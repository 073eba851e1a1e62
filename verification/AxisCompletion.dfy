/** What the axis walk is for: every temporal `time` x-encoding, however deep, ends with a complete axis. */
module AxisCompletion {
  import Durations
  import opened Wrappers
  import opened Json
  import TimeAxes
  import opened AxisDefaults
  import opened AxisPaths

  /** A dictionary that ends up in place of `v` still has the `encoding` the walk gives `v`. */
  ghost predicate KeepsEncoding(v: Json, w: Json, ds: seq<Entry>) {
    v.Obj? ==> w.Obj? && Get(w.entries, "encoding") == Get(Below(v.entries, ds), "encoding")
  }

  ghost predicate Carries(v: Json, w: Json, p: Path, ds: seq<Entry>) {
    Lookup(v, p).Some? ==> Lookup(w, p).Some? && KeepsEncoding(Lookup(v, p).value, Lookup(w, p).value, ds)
  }

  lemma RootCarries(v: Json, w: Json, ds: seq<Entry>)
    requires KeepsEncoding(v, w, ds)
    ensures Carries(v, w, [], ds)
  {
  }

  lemma CarriesBelow(v: Json, w: Json, p: Path, ds: seq<Entry>)
    requires p != []
    requires Step(v, p[0]).Some? ==> Step(w, p[0]).Some? && Carries(Step(v, p[0]).value, Step(w, p[0]).value, p[1..], ds)
    ensures Carries(v, w, p, ds)
  {
    hide KeepsEncoding, Step;
  }

  /** Wherever the author's spec has a dictionary, the walked spec has its walked `encoding`. */
  lemma {:induction false} NodesCarry(j: Json, ds: seq<Entry>, p: Path)
    requires Plain(ds)
    ensures Carries(j, NormalizeAxes(j, ds), p, ds)
    decreases |p|, 0
  {
    hide NormalizeAxes, Carries, TimeX, Encoding, NewEncoding, Step;
    if p == [] {
      WalkedKeepsEncoding(j, ds);
      RootCarries(j, NormalizeAxes(j, ds), ds);
    } else {
      if j.Obj? && TimeX(j.entries).Some? && p[0] == Key("encoding") {
        StepToEncoding(j.entries, ds);
        EncodingCarries(j.entries, ds, p[1..]);
      } else {
        StepNormalized(j, ds, p[0]);
        if Step(j, p[0]).Some? {
          NodesCarry(Step(j, p[0]).value, ds, p[1..]);
        }
      }
      CarriesBelow(j, NormalizeAxes(j, ds), p, ds);
    }
  }

  lemma WalkedKeepsEncoding(j: Json, ds: seq<Entry>)
    ensures KeepsEncoding(j, NormalizeAxes(j, ds), ds)
  {
  }

  lemma {:induction false} EncodingCarries(es: seq<Entry>, ds: seq<Entry>, p: Path)
    requires Plain(ds) && TimeX(es).Some?
    ensures Carries(Obj(Encoding(es)), NewEncoding(es, ds), p, ds)
    decreases |p|, 1
  {
    hide NormalizeAxes, Carries, TimeX, Encoding, X, NewX, Step, Below;
    if p == [] {
      GetPut(Below(Encoding(es), ds), "x", NewX(es, ds), "encoding");
      RootCarries(Obj(Encoding(es)), NewEncoding(es, ds), ds);
    } else {
      StepFromEncoding(es, ds, p[0]);
      if p[0] == Key("x") {
        XCarries(es, ds, p[1..]);
        CarriesBelow(Obj(Encoding(es)), NewEncoding(es, ds), p, ds);
      } else {
        NodesCarry(Obj(Encoding(es)), ds, p);
        SameStepCarries(Obj(Encoding(es)), NormalizeAxes(Obj(Encoding(es)), ds), NewEncoding(es, ds), p, ds);
      }
    }
  }

  lemma SameStepCarries(v: Json, w: Json, w': Json, p: Path, ds: seq<Entry>)
    requires p != [] && Carries(v, w, p, ds) && Step(w', p[0]) == Step(w, p[0])
    ensures Carries(v, w', p, ds)
  {
    hide KeepsEncoding, Step;
  }

  lemma {:induction false} XCarries(es: seq<Entry>, ds: seq<Entry>, p: Path)
    requires Plain(ds) && TimeX(es).Some?
    ensures Carries(Obj(X(es)), NewX(es, ds), p, ds)
    decreases |p|, 1
  {
    hide NormalizeAxes, Carries, TimeX, X, NewAxis, Below, FixAxis;
    if p == [] {
      GetFixAxis(Below(X(es), ds), ds, "encoding");
      RootCarries(Obj(X(es)), NewX(es, ds), ds);
    } else {
      StepFromX(es, ds, p[0]);
      if p[0] == Key("axis") {
        if Has(X(es), "axis") {
          AxisCarries(X(es), ds, p[1..]);
        }
        CarriesBelow(Obj(X(es)), NewX(es, ds), p, ds);
      } else {
        NodesCarry(Obj(X(es)), ds, p);
        SameStepCarries(Obj(X(es)), NormalizeAxes(Obj(X(es)), ds), NewX(es, ds), p, ds);
      }
    }
  }

  lemma {:induction false} AxisCarries(xs: seq<Entry>, ds: seq<Entry>, p: Path)
    requires Plain(ds) && Has(xs, "axis")
    ensures Carries(Get(xs, "axis").value, NewAxis(xs, ds), p, ds)
    decreases |p|, 1
  {
    var axis := Get(xs, "axis").value;
    hide NormalizeAxes, SetDefaults, Below, KeepsEncoding, Step;
    NodesCarry(axis, ds, p);
    match axis
    case Obj(es) =>
      if p == [] {
        AxisKeepsEncoding(es, ds);
        RootCarries(axis, NewAxis(xs, ds), ds);
      } else {
        StepSetDefaults(Below(es, ds), ds, p[0]);
        NormalizedIsBelow(es, ds);
        MoreStepsCarry(axis, NormalizeAxes(axis, ds), NewAxis(xs, ds), p, ds);
      }
    case Null => NullCarries(NewAxis(xs, ds), p, ds);
    case _ =>
  }

  lemma MoreStepsCarry(v: Json, w: Json, w': Json, p: Path, ds: seq<Entry>)
    requires p != [] && Carries(v, w, p, ds) && (Step(w, p[0]).Some? ==> Step(w', p[0]) == Step(w, p[0]))
    ensures Carries(v, w', p, ds)
  {
    hide KeepsEncoding, Step;
  }

  lemma NullCarries(w: Json, p: Path, ds: seq<Entry>)
    ensures Carries(Null, w, p, ds)
  {
  }

  lemma AxisKeepsEncoding(es: seq<Entry>, ds: seq<Entry>)
    requires Plain(ds)
    ensures KeepsEncoding(Obj(es), Obj(SetDefaults(Below(es, ds), ds)), ds)
  {
    hide Below;
    GetSetDefaults(Below(es, ds), ds, "encoding");
    GetMeaning(ds, "encoding");
  }

  // ---- The result -------------------------------------------------------------------

  lemma {:induction false} LookupConcat(j: Json, p: Path, q: Path)
    ensures Lookup(j, p + q) == if Lookup(j, p).None? then None else Lookup(Lookup(j, p).value, q)
    decreases |p|
  {
    if p == [] {
      assert p + q == q;
    } else {
      assert (p + q)[1..] == p[1..] + q;
      if Step(j, p[0]).Some? {
        LookupConcat(Step(j, p[0]).value, p[1..], q);
      }
    }
  }

  /** What the completed axis holds under a default key: the author's own value, walked, or the default. */
  lemma NewAxisHasKey(xs: seq<Entry>, ds: seq<Entry>, k: string)
    requires Plain(ds) && Has(ds, k)
    requires !Has(xs, "axis") || Get(xs, "axis").value.Null? || Get(xs, "axis").value.Obj?
    ensures NewAxis(xs, ds).Obj?
    ensures Get(NewAxis(xs, ds).entries, k)
            == if Has(xs, "axis") && Get(xs, "axis").value.Obj? && Has(Get(xs, "axis").value.entries, k)
               then Some(NormalizeAxes(Get(Get(xs, "axis").value.entries, k).value, ds)) else Get(ds, k)
  {
    GetMeaning(ds, k);
    if Has(xs, "axis") && Get(xs, "axis").value.Obj? {
      var es := Get(xs, "axis").value.entries;
      GetSetDefaults(Below(es, ds), ds, k);
      GetFixNode(NormalizeEntries(es, ds), ds, k);
      GetNormalized(es, ds, k);
    }
  }

  /** The author's axis of a time x-encoding can be completed: it is missing, null or a dictionary. */
  predicate Completable(es: seq<Entry>)
    requires TimeX(es).Some?
  {
    !Has(X(es), "axis") || Get(X(es), "axis").value.Null? || Get(X(es), "axis").value.Obj?
  }

  predicate AuthorSet(es: seq<Entry>, k: string)
    requires TimeX(es).Some?
  {
    Has(X(es), "axis") && Get(X(es), "axis").value.Obj? && Has(Get(X(es), "axis").value.entries, k)
  }

  lemma StepsToAxis(es: seq<Entry>, ds: seq<Entry>, w: Json, k: string)
    requires TimeX(es).Some? && KeepsEncoding(Obj(es), w, ds)
    requires NewAxis(X(es), ds).Obj?
    ensures Lookup(w, TO_AXIS + [Key(k)]) == Get(NewAxis(X(es), ds).entries, k)
  {
    hide NormalizeAxes, TimeX, X, Encoding, NewEncoding, NewX, NewAxis, Below, Get;
    NormalizedIsBelow(es, ds);
    StepToEncoding(es, ds);
    StepFromEncoding(es, ds, Key("x"));
    StepFromX(es, ds, Key("axis"));
    FourSteps(w, Key("encoding"), Key("x"), Key("axis"), Key(k));
    assert TO_AXIS + [Key(k)] == [Key("encoding"), Key("x"), Key("axis"), Key(k)];
  }

  lemma FourSteps(w: Json, a: Hop, b: Hop, c: Hop, d: Hop)
    requires Step(w, a).Some? && Step(Step(w, a).value, b).Some? && Step(Step(Step(w, a).value, b).value, c).Some?
    ensures Lookup(w, [a, b, c, d]) == Step(Step(Step(Step(w, a).value, b).value, c).value, d)
  {
    hide Step, Lookup;
    var w1 := Step(w, a).value;
    var w2 := Step(w1, b).value;
    var w3 := Step(w2, c).value;
    assert [a] + [b, c, d] == [a, b, c, d] && [b] + [c, d] == [b, c, d] && [c] + [d] == [c, d];
    LookupCons(w, a, [b, c, d]);
    LookupCons(w1, b, [c, d]);
    LookupCons(w2, c, [d]);
    OneStep(w3, d);
  }

  lemma OneStep(w: Json, h: Hop)
    ensures Lookup(w, [h]) == Step(w, h)
  {
    hide Step;
    assert [h][1..] == [];
  }

  /**
    At every dictionary of the author's spec with a temporal `time` x-encoding whose axis is
    missing, null or a dictionary, the walked spec has an axis entry for every default: exactly
    the default where the author gave none, and something of the same kind where the author did.
   */
  lemma EveryTimeAxisIsCompleted(j: Json, ds: seq<Entry>, p: Path, k: string)
    requires Plain(ds) && Has(ds, k)
    requires Lookup(j, p).Some? && Lookup(j, p).value.Obj?
    requires TimeX(Lookup(j, p).value.entries).Some? && Completable(Lookup(j, p).value.entries)
    ensures var es := Lookup(j, p).value.entries;
            var got := Lookup(NormalizeAxes(j, ds), p + (TO_AXIS + [Key(k)]));
            && got.Some?
            && (!AuthorSet(es, k) ==> got == Get(ds, k))
            && (AuthorSet(es, k) ==> SameKind(Get(Get(X(es), "axis").value.entries, k).value, got.value))
  {
    hide NormalizeAxes, TimeX, X, NewAxis, Lookup, KeepsEncoding, Get, SameKind;
    var es := Lookup(j, p).value.entries;
    NodesCarry(j, ds, p);
    LookupConcat(NormalizeAxes(j, ds), p, TO_AXIS + [Key(k)]);
    NewAxisHasKey(X(es), ds, k);
    StepsToAxis(es, ds, Lookup(NormalizeAxes(j, ds), p).value, k);
    if AuthorSet(es, k) {
      var v := Get(Get(X(es), "axis").value.entries, k).value;
      WalkKeepsKind(v, ds);
    }
  }

  lemma WalkKeepsKind(v: Json, ds: seq<Entry>)
    ensures SameKind(v, NormalizeAxes(v, ds))
  {
  }

  // ---- Which nodes ------------------------------------------------------------------

  ghost predicate HasText(es: seq<Entry>, key: string, text: string) {
    Has(es, key) && Get(es, key).value.Str? && Get(es, key).value.s == text
  }

  /** A node has a time x-encoding exactly when its `encoding` is a dictionary whose `x` is one of a temporal field `time`. */
  lemma TimeXMeaning(es: seq<Entry>)
    ensures TimeX(es).Some? <==>
              && Has(es, "encoding") && Get(es, "encoding").value.Obj?
              && var enc := Get(es, "encoding").value.entries;
              && Has(enc, "x") && Get(enc, "x").value.Obj?
              && HasText(Get(enc, "x").value.entries, "field", "time")
              && HasText(Get(enc, "x").value.entries, "type", "temporal")
  {
  }

  // ---- What the defaults show -------------------------------------------------------

  lemma DefaultKeysDiffer(stamp: int -> string, start: int, end: int)
    ensures var ds := Defaults(stamp, start, end);
            forall i, k :: 0 <= i < k < |ds| ==> ds[i].key != ds[k].key
  {
  }

  /** A range of up to a day is labelled with upright times, a longer one with slanted days and times. */
  lemma DefaultsOfTheRange(stamp: int -> string, start: int, end: int)
    ensures var ds, withinDay := Defaults(stamp, start, end), end - start <= 24 * Durations.HOUR;
            && Get(ds, "format") == Some(Str(if withinDay then "%H:%M" else "%d.%m %H:%M"))
            && Get(ds, "labelAngle") == Some(Int(if withinDay then 0 else -35))
            && Get(ds, "labelBound") == Get(ds, "labelFlush") == Some(Bool(true))
            && Get(ds, "labelOverlap") == Some(Str("greedy")) && Get(ds, "labelPadding") == Some(Int(4))
            && Get(ds, "values") == Some(Arr(StrItems(
                 TimeAxes.Texts(stamp, TimeAxes.Ticks(start, end, TimeAxes.IntervalHours(end - start))))))
  {
    var ds := Defaults(stamp, start, end);
    DefaultKeysDiffer(stamp, start, end);
    forall i | 0 <= i < |ds| ensures Get(ds, ds[i].key) == Some(ds[i].value) {
      GetUnique(ds, i);
    }
    assert ds[0].key == "format" && ds[1].key == "labelAngle" && ds[2].key == "labelBound" && ds[3].key == "labelFlush"
           && ds[4].key == "labelOverlap" && ds[5].key == "labelPadding" && ds[6].key == "values";
  }
}
