/** The axis walk seen through paths: what stays where it was, and where anything new can be. */
module AxisPaths {
  import opened Wrappers
  import opened Json
  import opened AxisDefaults
  import AxisLaws

  /** Scalars stay equal, containers stay containers of their kind; only a null may become a dictionary. */
  ghost predicate SameKind(v: Json, w: Json) {
    && (Scalar(v) ==> w == v)
    && (v.Arr? ==> w.Arr? && |w.items| == |v.items|)
    && (v.Obj? ==> w.Obj?)
    && (v.Null? ==> w.Null? || w.Obj?)
  }

  const TO_AXIS: Path := [Key("encoding"), Key("x"), Key("axis")]

  /** The path runs through the axis of a temporal `time` x-encoding, and continues inside the defaults to `v`. */
  ghost predicate IsDefault(j: Json, p: Path, ds: seq<Entry>, v: Json) {
    exists i :: 0 <= i <= |p| - 3 && AxisAt(j, p, i) && Lookup(Obj(ds), p[i + 3..]) == Some(v)
  }

  ghost predicate AxisAt(j: Json, p: Path, i: nat)
    requires i + 3 <= |p|
  {
    && p[i..i + 3] == TO_AXIS
    && Lookup(j, p[..i + 2]).Some? && IsTimeX(Lookup(j, p[..i + 2]).value)
  }

  // ---- One node ---------------------------------------------------------------------

  lemma StepNormalized(j: Json, ds: seq<Entry>, h: Hop)
    requires !(j.Obj? && TimeX(j.entries).Some? && h == Key("encoding"))
    ensures Step(NormalizeAxes(j, ds), h)
            == match Step(j, h) case None => None case Some(v) => Some(NormalizeAxes(v, ds))
  {
    match j
    case Obj(es) =>
      if h.Key? {
        GetNormalized(es, ds, h.key);
        GetFixNode(NormalizeEntries(es, ds), ds, h.key);
        AxisLaws.TimeXNormalized(es, ds);
      }
    case Arr(items) =>
      if h.Index? && h.index < |items| {
        ItemNormalized(items, ds, h.index);
      }
    case _ =>
  }

  /** A walked dictionary, as entries. */
  function Below(es: seq<Entry>, ds: seq<Entry>): seq<Entry> {
    FixNode(NormalizeEntries(es, ds), ds)
  }

  /** The `encoding` of a node with a time x-encoding, and that x-encoding. */
  function Encoding(es: seq<Entry>): seq<Entry>
    requires TimeX(es).Some?
  {
    Get(es, "encoding").value.entries
  }

  function X(es: seq<Entry>): seq<Entry>
    requires TimeX(es).Some?
  {
    TimeX(es).value
  }

  // Encoding, x-encoding and axis after the walk.

  function NewEncoding(es: seq<Entry>, ds: seq<Entry>): Json
    requires TimeX(es).Some?
  {
    Obj(Put(Below(Encoding(es), ds), "x", NewX(es, ds)))
  }

  function NewX(es: seq<Entry>, ds: seq<Entry>): Json
    requires TimeX(es).Some?
  {
    Obj(FixAxis(Below(X(es), ds), ds))
  }

  function NewAxis(xs: seq<Entry>, ds: seq<Entry>): Json {
    match Get(xs, "axis")
    case None => Obj(ds)
    case Some(axis) =>
      match axis
      case Null => Obj(ds)
      case Obj(es) => Obj(SetDefaults(Below(es, ds), ds))
      case _ => NormalizeAxes(axis, ds)
  }

  lemma StepToEncoding(es: seq<Entry>, ds: seq<Entry>)
    requires TimeX(es).Some?
    ensures Step(Obj(es), Key("encoding")) == Some(Obj(Encoding(es)))
    ensures Step(NormalizeAxes(Obj(es), ds), Key("encoding")) == Some(NewEncoding(es, ds))
  {
    hide FixAxis, IsTimeX;
    AxisLaws.TimeXNormalized(es, ds);
    GetFixNode(NormalizeEntries(es, ds), ds, "encoding");
  }

  lemma StepFromEncoding(es: seq<Entry>, ds: seq<Entry>, h: Hop)
    requires TimeX(es).Some?
    ensures h != Key("x") ==> Step(NewEncoding(es, ds), h) == Step(NormalizeAxes(Obj(Encoding(es)), ds), h)
    ensures h == Key("x") ==> Step(NewEncoding(es, ds), h) == Some(NewX(es, ds))
    ensures Step(Obj(Encoding(es)), Key("x")) == Some(Obj(X(es)))
  {
    hide FixAxis, IsTimeX, TimeX, FixNode;
    if h.Key? {
      GetPut(Below(Encoding(es), ds), "x", NewX(es, ds), h.key);
    }
  }

  lemma GetFixAxis(xs: seq<Entry>, ds: seq<Entry>, k: string)
    ensures k != "axis" ==> Get(FixAxis(xs, ds), k) == Get(xs, k)
    ensures Get(FixAxis(xs, ds), "axis")
            == match Get(xs, "axis")
               case None => Some(Obj(ds))
               case Some(axis) => Some(match axis
                                       case Null => Obj(ds)
                                       case Obj(es) => Obj(SetDefaults(es, ds))
                                       case _ => axis)
  {
    if Get(xs, "axis").None? || Get(xs, "axis").value.Null? {
      GetPut(xs, "axis", Obj(ds), k);
      GetPut(xs, "axis", Obj(ds), "axis");
    } else if Get(xs, "axis").value.Obj? {
      var axis := Obj(SetDefaults(Get(xs, "axis").value.entries, ds));
      GetPut(xs, "axis", axis, k);
      GetPut(xs, "axis", axis, "axis");
    }
  }

  lemma AxisNormalized(xs: seq<Entry>, ds: seq<Entry>)
    ensures Get(FixAxis(Below(xs, ds), ds), "axis") == Some(NewAxis(xs, ds))
  {
    GetNormalized(xs, ds, "axis");
    GetFixNode(NormalizeEntries(xs, ds), ds, "axis");
    GetFixAxis(Below(xs, ds), ds, "axis");
  }

  lemma StepFromX(es: seq<Entry>, ds: seq<Entry>, h: Hop)
    requires TimeX(es).Some?
    ensures h != Key("axis") ==> Step(NewX(es, ds), h) == Step(NormalizeAxes(Obj(X(es)), ds), h)
    ensures h == Key("axis") ==> Step(NewX(es, ds), h) == Some(NewAxis(X(es), ds))
  {
    hide FixAxis, IsTimeX, TimeX, FixNode, NewAxis;
    AxisNormalized(X(es), ds);
    if h.Key? {
      GetFixAxis(Below(X(es), ds), ds, h.key);
    }
  }

  lemma StepSetDefaults(es: seq<Entry>, ds: seq<Entry>, h: Hop)
    ensures Step(Obj(SetDefaults(es, ds)), h)
            == if Step(Obj(es), h).Some? then Step(Obj(es), h) else Step(Obj(ds), h)
  {
    if h.Key? {
      GetSetDefaults(es, ds, h.key);
    }
  }

  // ---- What was there stays there ---------------------------------------------------

  ghost predicate Stays(v: Json, w: Json, p: Path) {
    Lookup(v, p).Some? ==> Lookup(w, p).Some? && SameKind(Lookup(v, p).value, Lookup(w, p).value)
  }

  /** Every value of the author's spec is still at its path, scalars unchanged. */
  lemma {:induction false} AuthorsValuesStay(j: Json, ds: seq<Entry>, p: Path)
    ensures Stays(j, NormalizeAxes(j, ds), p)
    decreases |p|, 0
  {
    if p != [] && Lookup(j, p).Some? {
      if j.Obj? && TimeX(j.entries).Some? && p[0] == Key("encoding") {
        hide NormalizeAxes, TimeX, Encoding, NewEncoding;
        StepToEncoding(j.entries, ds);
        EncodingStays(j.entries, ds, p[1..]);
      } else {
        StepNormalized(j, ds, p[0]);
        AuthorsValuesStay(Step(j, p[0]).value, ds, p[1..]);
      }
    }
  }

  lemma {:induction false} EncodingStays(es: seq<Entry>, ds: seq<Entry>, p: Path)
    requires TimeX(es).Some?
    ensures Stays(Obj(Encoding(es)), NewEncoding(es, ds), p)
    decreases |p|, 1
  {
    if p != [] {
      hide NormalizeAxes, TimeX, Encoding, X, NewEncoding, NewX;
      StepFromEncoding(es, ds, p[0]);
      if p[0] == Key("x") {
        XStays(es, ds, p[1..]);
      } else {
        AuthorsValuesStay(Obj(Encoding(es)), ds, p);
      }
    }
  }

  lemma {:induction false} XStays(es: seq<Entry>, ds: seq<Entry>, p: Path)
    requires TimeX(es).Some?
    ensures Stays(Obj(X(es)), NewX(es, ds), p)
    decreases |p|, 1
  {
    if p != [] {
      hide NormalizeAxes, TimeX, X, NewX, NewAxis;
      StepFromX(es, ds, p[0]);
      if p[0] == Key("axis") {
        if Has(X(es), "axis") {
          AxisStays(X(es), ds, p[1..]);
        }
      } else {
        AuthorsValuesStay(Obj(X(es)), ds, p);
      }
    }
  }

  lemma {:induction false} AxisStays(xs: seq<Entry>, ds: seq<Entry>, p: Path)
    requires Has(xs, "axis")
    ensures Stays(Get(xs, "axis").value, NewAxis(xs, ds), p)
    decreases |p|, 1
  {
    var axis := Get(xs, "axis").value;
    AuthorsValuesStay(axis, ds, p);
    if axis.Obj? && p != [] {
      StepSetDefaults(Below(axis.entries, ds), ds, p[0]);
    }
  }

  // ---- Anything new is an axis default ----------------------------------------------

  lemma LookupCons(j: Json, h: Hop, p: Path)
    requires Step(j, h).Some?
    ensures Lookup(j, [h] + p) == Lookup(Step(j, h).value, p)
  {
    assert ([h] + p)[1..] == p;
  }

  lemma AxisBelow(j: Json, h: Hop, c: Json, p: Path, i: nat)
    requires Step(j, h) == Some(c) && i + 3 <= |p| && AxisAt(c, p, i)
    ensures AxisAt(j, [h] + p, i + 1)
    ensures ([h] + p)[i + 4..] == p[i + 3..]
  {
    hide IsTimeX, Lookup, Step;
    var q := [h] + p;
    assert q[i + 1..i + 4] == p[i..i + 3];
    assert q[..i + 3] == [h] + p[..i + 2];
    LookupCons(j, h, p[..i + 2]);
  }

  lemma DefaultBelow(j: Json, h: Hop, c: Json, p: Path, ds: seq<Entry>, v: Json)
    requires Step(j, h) == Some(c) && IsDefault(c, p, ds, v)
    ensures IsDefault(j, [h] + p, ds, v)
  {
    hide AxisAt, Lookup, Step;
    var i :| 0 <= i <= |p| - 3 && AxisAt(c, p, i) && Lookup(Obj(ds), p[i + 3..]) == Some(v);
    AxisBelow(j, h, c, p, i);
  }

  lemma DefaultHere(es: seq<Entry>, ds: seq<Entry>, p: Path, v: Json)
    requires TimeX(es).Some? && Lookup(Obj(ds), p) == Some(v)
    ensures IsDefault(Obj(es), TO_AXIS + p, ds, v)
  {
    hide IsTimeX, Lookup;
    var q := TO_AXIS + p;
    assert q[0..3] == TO_AXIS && q[3..] == p;
    assert q[..2] == [Key("encoding")] + [Key("x")];
    LookupCons(Obj(es), Key("encoding"), [Key("x")]);
    assert [Key("x")] == [Key("x")] + [];
    LookupCons(Obj(Encoding(es)), Key("x"), []);
    LookupNothing(Obj(X(es)));
    assert AxisAt(Obj(es), q, 0);
  }

  lemma LookupNothing(j: Json)
    ensures Lookup(j, []) == Some(j)
  {
  }

  /** Whatever is at path `p` of `w` was at `p` in `v`, or is an axis default at `path` of `j`. */
  ghost predicate Explained(v: Json, w: Json, p: Path, j: Json, path: Path, ds: seq<Entry>) {
    Lookup(w, p).Some? ==> Lookup(v, p).Some? || IsDefault(j, path, ds, Lookup(w, p).value)
  }

  /** Every path of the walked tree was a path of the author's tree, or leads into the axis defaults. */
  lemma {:induction false} NothingElseIsNew(j: Json, ds: seq<Entry>, p: Path)
    ensures Explained(j, NormalizeAxes(j, ds), p, j, p, ds)
    decreases |p|, 0
  {
    if p != [] && Lookup(NormalizeAxes(j, ds), p).Some? {
      assert p == [p[0]] + p[1..];
      hide IsDefault;
      if j.Obj? && TimeX(j.entries).Some? && p[0] == Key("encoding") {
        hide NormalizeAxes, TimeX, Encoding, NewEncoding;
        StepToEncoding(j.entries, ds);
        NewInEncoding(j.entries, ds, p[1..]);
      } else {
        StepNormalized(j, ds, p[0]);
        var c := Step(j, p[0]).value;
        NothingElseIsNew(c, ds, p[1..]);
        if Lookup(c, p[1..]).None? {
          DefaultBelow(j, p[0], c, p[1..], ds, Lookup(NormalizeAxes(j, ds), p).value);
        }
      }
    }
  }

  lemma {:induction false} NewInEncoding(es: seq<Entry>, ds: seq<Entry>, p: Path)
    requires TimeX(es).Some?
    ensures Explained(Obj(Encoding(es)), NewEncoding(es, ds), p, Obj(es), [Key("encoding")] + p, ds)
    decreases |p|, 1
  {
    if p != [] {
      hide NormalizeAxes, TimeX, Encoding, X, NewEncoding, NewX, IsDefault;
      StepFromEncoding(es, ds, p[0]);
      if p[0] == Key("x") {
        NewInX(es, ds, p[1..]);
        assert [Key("encoding")] + p == [Key("encoding"), Key("x")] + p[1..];
      } else {
        NothingElseIsNew(Obj(Encoding(es)), ds, p);
        if Lookup(NewEncoding(es, ds), p).Some? && Lookup(Obj(Encoding(es)), p).None? {
          StepToEncoding(es, ds);
          DefaultBelow(Obj(es), Key("encoding"), Obj(Encoding(es)), p, ds, Lookup(NewEncoding(es, ds), p).value);
        }
      }
    }
  }

  lemma DefaultBelowX(es: seq<Entry>, ds: seq<Entry>, p: Path, v: Json)
    requires TimeX(es).Some? && IsDefault(Obj(X(es)), p, ds, v)
    ensures IsDefault(Obj(es), [Key("encoding"), Key("x")] + p, ds, v)
  {
    hide IsDefault, TimeX, NormalizeAxes;
    StepToEncoding(es, ds);
    StepFromEncoding(es, ds, Key("x"));
    DefaultBelow(Obj(Encoding(es)), Key("x"), Obj(X(es)), p, ds, v);
    DefaultBelow(Obj(es), Key("encoding"), Obj(Encoding(es)), [Key("x")] + p, ds, v);
    assert [Key("encoding")] + ([Key("x")] + p) == [Key("encoding"), Key("x")] + p;
  }

  lemma {:induction false} NewInX(es: seq<Entry>, ds: seq<Entry>, p: Path)
    requires TimeX(es).Some?
    ensures Explained(Obj(X(es)), NewX(es, ds), p, Obj(es), [Key("encoding"), Key("x")] + p, ds)
    decreases |p|, 1
  {
    if p != [] {
      hide NormalizeAxes, TimeX, X, NewX, NewAxis, IsDefault;
      StepFromX(es, ds, p[0]);
      if p[0] == Key("axis") {
        NewInAxis(es, ds, p[1..]);
        assert [Key("encoding"), Key("x")] + p == TO_AXIS + p[1..];
      } else {
        NothingElseIsNew(Obj(X(es)), ds, p);
        if Lookup(NewX(es, ds), p).Some? && Lookup(Obj(X(es)), p).None? {
          DefaultBelowX(es, ds, p, Lookup(NewX(es, ds), p).value);
        }
      }
    }
  }

  lemma {:induction false} NewInAxis(es: seq<Entry>, ds: seq<Entry>, p: Path)
    requires TimeX(es).Some?
    ensures var w := Lookup(NewAxis(X(es), ds), p);
            w.Some? ==>
              || (Has(X(es), "axis") && Lookup(Get(X(es), "axis").value, p).Some?)
              || IsDefault(Obj(es), TO_AXIS + p, ds, w.value)
    decreases |p|, 2
  {
    hide TimeX, X, IsDefault, NormalizeAxes;
    var w := Lookup(NewAxis(X(es), ds), p);
    if w.Some? {
      if !Has(X(es), "axis") || Get(X(es), "axis").value.Null? {
        DefaultHere(es, ds, p, w.value);
      } else if p != [] {
        var axis := Get(X(es), "axis").value;
        NewInAuthorsAxis(es, ds, axis, p);
        if axis.Obj? {
          StepSetDefaults(Below(axis.entries, ds), ds, p[0]);
          NormalizedIsBelow(axis.entries, ds);
          if Step(Obj(Below(axis.entries, ds)), p[0]).None? {
            DefaultHere(es, ds, p, w.value);
          }
        }
      }
    }
  }

  lemma NormalizedIsBelow(es: seq<Entry>, ds: seq<Entry>)
    ensures NormalizeAxes(Obj(es), ds) == Obj(Below(es, ds))
  {
  }

  lemma {:induction false} NewInAuthorsAxis(es: seq<Entry>, ds: seq<Entry>, axis: Json, p: Path)
    requires TimeX(es).Some? && Get(X(es), "axis") == Some(axis)
    ensures Explained(axis, NormalizeAxes(axis, ds), p, Obj(es), TO_AXIS + p, ds)
    decreases |p|, 1
  {
    hide TimeX, X, IsDefault, NormalizeAxes, Lookup;
    NothingElseIsNew(axis, ds, p);
    if Lookup(NormalizeAxes(axis, ds), p).Some? && Lookup(axis, p).None? {
      var v := Lookup(NormalizeAxes(axis, ds), p).value;
      DefaultBelow(Obj(X(es)), Key("axis"), axis, p, ds, v);
      DefaultBelowX(es, ds, [Key("axis")] + p, v);
      assert [Key("encoding"), Key("x")] + ([Key("axis")] + p) == TO_AXIS + p;
    }
  }
}
