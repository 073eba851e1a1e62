/** What an accepted chart spec guarantees, and that the built-in default spec is accepted. */
module ChartLaws {
  import opened Wrappers
  import opened Json
  import opened AxisDefaults
  import AxisPaths
  import opened ChartSpec

  // ---- The checks, as statements about paths ----------------------------------------

  lemma PathTextLength(p: Path)
    ensures |PathText(p)| == |p|
  {
  }

  lemma {:induction false} NoKeyNoPath(j: Json, key: string, p: Path)
    requires !KeyAnywhere(j, key)
    ensures Lookup(j, p + [Key(key)]).None?
    decreases |p|
  {
    var q := p + [Key(key)];
    if Step(j, q[0]).Some? {
      var c := Step(j, q[0]).value;
      match j {
        case Obj(es) =>
          GetMeaning(es, q[0].key);
          var i :| 0 <= i < |es| && es[i].key == q[0].key && es[i].value == c;
          EntryHasNoKey(es, key, i);
        case Arr(items) => ItemHasNoKey(items, key, q[0].index);
        case _ =>
      }
      if p != [] {
        assert q[1..] == p[1..] + [Key(key)];
        NoKeyNoPath(c, key, p[1..]);
      }
    }
  }

  lemma {:induction false} EntryHasNoKey(es: seq<Entry>, key: string, i: nat)
    requires i < |es| && !KeyInEntries(es, key)
    ensures !KeyAnywhere(es[i].value, key)
  {
    if i > 0 {
      EntryHasNoKey(es[1..], key, i - 1);
    }
  }

  lemma {:induction false} ItemHasNoKey(items: seq<Json>, key: string, i: nat)
    requires i < |items| && !KeyInItems(items, key)
    ensures !KeyAnywhere(items[i], key)
  {
    if i > 0 {
      ItemHasNoKey(items[1..], key, i - 1);
    }
  }

  lemma {:induction false} FieldsFoundAllowed(found: seq<Found>, allowed: set<string>)
    ensures CheckFieldsFound(found, allowed).Ok? <==>
              forall i :: 0 <= i < |found| && found[i].value.Str? ==> found[i].value.s in allowed
  {
    if found != [] {
      FieldsFoundAllowed(found[1..], allowed);
      assert forall i :: 1 <= i < |found| ==> found[i] == found[1..][i - 1];
    }
  }

  lemma {:induction false} DataFoundAtTop(found: seq<Found>)
    ensures CheckDataFound(found).Ok? <==>
              forall i :: 0 <= i < |found| ==> found[i].path == ["data"] && found[i].value == NAMED_DATA
  {
    if found != [] {
      DataFoundAtTop(found[1..]);
      assert forall i :: 1 <= i < |found| ==> found[i] == found[1..][i - 1];
    }
  }

  /** Every text under a `field` key, however deep, is an allowed field. */
  ghost predicate FieldsAllowed(j: Json, allowed: set<string>) {
    forall p: Path, f: string :: Lookup(j, p + [Key("field")]) == Some(Str(f)) ==> f in allowed
  }

  /** A `data` key occurs at the root only, and names the data set. */
  ghost predicate DataAtTopOnly(j: Json) {
    forall p: Path :: Lookup(j, p + [Key("data")]).Some? ==>
      p == [] && Lookup(j, p + [Key("data")]).value == NAMED_DATA
  }

  ghost predicate KeyAbsent(j: Json, key: string) {
    forall p: Path :: Lookup(j, p + [Key(key)]).None?
  }

  /** The field check accepts exactly the specs whose texts under `field` are all allowed. */
  lemma FieldCheckExact(spec: Json, allowed: set<string>)
    requires WellFormed(spec)
    ensures ValidateFields(spec, allowed).Ok? <==> FieldsAllowed(spec, allowed)
  {
    var found := FindKeyValues(spec, "field");
    FieldsFoundAllowed(found, allowed);
    if ValidateFields(spec, allowed).Ok? {
      FieldCheckSound(spec, allowed);
    }
    if FieldsAllowed(spec, allowed) {
      forall i | 0 <= i < |found| && found[i].value.Str? ensures found[i].value.s in allowed {
        var p := SearchIsSound(spec, "field", [], found[i]);
        assert Lookup(spec, p + [Key("field")]) == Some(Str(found[i].value.s));
      }
    }
  }

  lemma FieldCheckSound(spec: Json, allowed: set<string>)
    requires ValidateFields(spec, allowed).Ok?
    ensures FieldsAllowed(spec, allowed)
  {
    var found := FindKeyValues(spec, "field");
    FieldsFoundAllowed(found, allowed);
    forall p: Path, f: string | Lookup(spec, p + [Key("field")]) == Some(Str(f)) ensures f in allowed {
      SearchIsComplete(spec, p, "field", []);
    }
  }

  lemma DataCheckSound(spec: Json)
    requires CheckDataFound(FindKeyValues(spec, "data")).Ok?
    ensures DataAtTopOnly(spec)
  {
    var found := FindKeyValues(spec, "data");
    DataFoundAtTop(found);
    forall p: Path | Lookup(spec, p + [Key("data")]).Some?
      ensures p == [] && Lookup(spec, p + [Key("data")]).value == NAMED_DATA
    {
      SearchIsComplete(spec, p, "data", []);
      PathTextLength(p + [Key("data")]);
    }
  }

  lemma EmptySearchMeansAbsent(spec: Json, key: string)
    requires FindKeyValues(spec, key) == []
    ensures KeyAbsent(spec, key)
  {
    forall p: Path ensures Lookup(spec, p + [Key(key)]).None? {
      if Lookup(spec, p + [Key(key)]).Some? {
        SearchIsComplete(spec, p, key, []);
      }
    }
  }

  lemma AbsentMeansEmptySearch(spec: Json, key: string)
    requires WellFormed(spec) && KeyAbsent(spec, key)
    ensures FindKeyValues(spec, key) == []
  {
    var found := FindKeyValues(spec, key);
    if found != [] {
      var p := SearchIsSound(spec, key, [], found[0]);
    }
  }

  /** The data check accepts exactly the objects with at most the named root `data` and no inline data anywhere. */
  lemma DataCheckExact(spec: Json)
    requires WellFormed(spec) && spec.Obj?
    ensures ValidateDataSources(spec).Ok? <==>
              && DataAtTopOnly(spec)
              && KeyAbsent(spec, "url") && KeyAbsent(spec, "values") && KeyAbsent(spec, "datasets")
  {
    var found := FindKeyValues(spec, "data");
    DataFoundAtTop(found);
    if ValidateDataSources(spec).Ok? {
      DataCheckSound(spec);
      EmptySearchMeansAbsent(spec, "url");
      EmptySearchMeansAbsent(spec, "values");
      EmptySearchMeansAbsent(spec, "datasets");
    }
    if DataAtTopOnly(spec) && KeyAbsent(spec, "url") && KeyAbsent(spec, "values") && KeyAbsent(spec, "datasets") {
      forall i | 0 <= i < |found| ensures found[i].path == ["data"] && found[i].value == NAMED_DATA {
        var p := SearchIsSound(spec, "data", [], found[i]);
        assert Lookup(spec, p + [Key("data")]).Some?;
        assert PathText([Key("data")]) == ["data"];
        assert [] + [Key("data")] == [Key("data")];
      }
      AbsentMeansEmptySearch(spec, "url");
      AbsentMeansEmptySearch(spec, "values");
      AbsentMeansEmptySearch(spec, "datasets");
    }
  }

  function LastHop(q: Path): Hop
    requires q != []
  {
    q[|q| - 1]
  }

  // ---- Preparation keeps them -------------------------------------------------------

  lemma LookupPut(es: seq<Entry>, k: string, v: Json, q: Path)
    requires q != []
    ensures Lookup(Obj(Put(es, k, v)), q) == if q[0] == Key(k) then Lookup(v, q[1..]) else Lookup(Obj(es), q)
  {
    if q[0].Key? {
      GetPut(es, k, v, q[0].key);
    }
  }

  lemma NothingUnderPlain(j: Json, q: Path)
    requires PlainValue(j) && |q| > 0 && q[|q| - 1].Key?
    ensures Lookup(j, q).None?
  {
    if j.Arr? && q[0].Index? && q[0].index < |j.items| {
      assert |q| > 1;
      assert q[1..][0] == q[1];
    }
  }

  /** No path into the defaults ends in a key the checks look for. */
  lemma DefaultsHideNothing(j: Json, p: Path, ds: seq<Entry>, v: Json, key: string)
    requires Plain(ds) && key in {"data", "field", "transform"}
    ensures !AxisPaths.IsDefault(j, p + [Key(key)], ds, v)
  {
    var q := p + [Key(key)];
    forall i | 0 <= i <= |q| - 3 && AxisPaths.AxisAt(j, q, i) ensures Lookup(Obj(ds), q[i + 3..]) != Some(v) {
      AxisIsNotLast(q, i);
      NoKeyInDefaults(ds, q[i + 3..], key);
    }
  }

  lemma AxisIsNotLast(q: Path, i: nat)
    requires i + 3 <= |q| && q[i..i + 3] == AxisPaths.TO_AXIS && q[|q| - 1] != Key("axis")
    ensures i + 3 < |q|
  {
    assert q[i..i + 3][2] == q[i + 2];
  }

  lemma NoKeyInDefaults(ds: seq<Entry>, r: Path, key: string)
    requires Plain(ds) && key in {"data", "field", "transform"}
    requires r != [] && LastHop(r) == Key(key)
    ensures Lookup(Obj(ds), r).None?
  {
    if Step(Obj(ds), r[0]).Some? {
      var c := Step(Obj(ds), r[0]).value;
      GetMeaning(ds, r[0].key);
      var i :| 0 <= i < |ds| && ds[i].key == r[0].key && ds[i].value == c;
      assert |r| > 1;
      assert r[1..][|r| - 2] == Key(key);
      NothingUnderPlain(c, r[1..]);
    }
  }

  /** Under a checked key the axis walk adds nothing, and leaves texts as they were. */
  lemma WalkAddsNoCheckedKey(j: Json, ds: seq<Entry>, p: Path, key: string)
    requires Plain(ds) && key in {"data", "field", "transform"}
    requires Lookup(NormalizeAxes(j, ds), p + [Key(key)]).Some?
    ensures Lookup(j, p + [Key(key)]).Some?
    ensures forall f :: Lookup(NormalizeAxes(j, ds), p + [Key(key)]) == Some(Str(f)) ==>
              Lookup(j, p + [Key(key)]) == Some(Str(f))
  {
    hide NormalizeAxes, AxisPaths.IsDefault;
    var q := p + [Key(key)];
    AxisPaths.NothingElseIsNew(j, ds, q);
    DefaultsHideNothing(j, p, ds, Lookup(NormalizeAxes(j, ds), q).value, key);
    AxisPaths.AuthorsValuesStay(j, ds, q);
  }

  lemma ScalarIsALeaf(j: Json, q: Path)
    requires Scalar(j) && q != []
    ensures Lookup(j, q).None?
  {
  }

  /** Setting the dimensions adds no checked key. */
  lemma DimensionsAddNoCheckedKey(es: seq<Entry>, q: Path)
    requires q != [] && LastHop(q) != Key("width") && LastHop(q) != Key("height")
    requires Lookup(Obj(NormalizeDimensions(es)), q).Some?
    ensures Lookup(Obj(NormalizeDimensions(es)), q) == Lookup(Obj(es), q)
  {
    var w := Int(BoundedDimension(Get(es, "width"), DEFAULT_WIDTH, MAX_WIDTH));
    var es1 := Put(es, "width", w);
    var h := Int(BoundedDimension(Get(es1, "height"), DEFAULT_HEIGHT, MAX_HEIGHT));
    LookupPut(es1, "height", h, q);
    LookupPut(es, "width", w, q);
    if q[0] == Key("height") {
      ScalarIsALeaf(h, q[1..]);
    } else if q[0] == Key("width") {
      ScalarIsALeaf(w, q[1..]);
    }
  }

  lemma NamedDataIsFlat(q: Path)
    requires q != [] && LastHop(q) != Key("name")
    ensures Lookup(NAMED_DATA, q).None?
  {
    var es := NAMED_DATA.entries;
    assert Step(NAMED_DATA, q[0]).Some? ==> q[0] == Key("name") by {
      if q[0].Key? {
        GetMeaning(es, q[0].key);
      }
    }
    if |q| > 1 {
      ScalarIsALeaf(Str(DATASET), q[1..]);
    }
  }

  /** Outside `datasets`, completing the spec adds no checked key but the root `data`. */
  lemma {:induction false} CompletionAddsOnlyRootData(es: seq<Entry>, records: Json, q: Path)
    requires q != [] && q[0] != Key("datasets")
    requires LastHop(q) != Key("background") && LastHop(q) != Key("name")
    requires Lookup(Obj(Complete(es, records)), q).Some?
    ensures || (q == [Key("data")] && Lookup(Obj(Complete(es, records)), q).value == NAMED_DATA)
            || (q[0] != Key("data") && Lookup(Obj(Complete(es, records)), q) == Lookup(Obj(es), q))
  {
    var b := Get(es, "background").GetOr(Str("white"));
    var es1 := Put(es, "background", b);
    var es2 := Put(es1, "data", NAMED_DATA);
    LookupPut(es2, "datasets", Obj([Entry(DATASET, records)]), q);
    LookupPut(es1, "data", NAMED_DATA, q);
    LookupPut(es, "background", b, q);
    if q[0] == Key("data") && |q| > 1 {
      assert q[1..][|q| - 2] == q[|q| - 1];
      NamedDataIsFlat(q[1..]);
    } else if q[0] == Key("background") {
      if Get(es, "background").None? {
        ScalarIsALeaf(b, q[1..]);
      }
    }
  }

  // ---- The main result --------------------------------------------------------------

  /** What a renderer may rely on, everywhere outside `datasets`. */
  ghost predicate SafeSpec(out: Json, records: Json, allowed: set<string>) {
    && out.Obj?
    && (forall p: Path :: Outside(p + [Key("data")]) && Lookup(out, p + [Key("data")]).Some? ==> p == [])
    && Get(out.entries, "data") == Some(NAMED_DATA)
    && Get(out.entries, "datasets") == Some(Obj([Entry(DATASET, records)]))
    && (forall p: Path, f :: Outside(p + [Key("field")]) && Lookup(out, p + [Key("field")]) == Some(Str(f)) ==> f in allowed)
    && (forall p: Path :: Outside(p + [Key("transform")]) ==> Lookup(out, p + [Key("transform")]).None?)
    && (exists w :: Get(out.entries, "width") == Some(Int(w)) && 1 <= w <= MAX_WIDTH)
    && (exists h :: Get(out.entries, "height") == Some(Int(h)) && 1 <= h <= MAX_HEIGHT)
  }

  predicate Outside(q: Path)
    requires q != []
  {
    q[0] != Key("datasets")
  }

  /** A checked key of the prepared spec was in the author's spec, with the same text, or is the root `data`. */
  lemma CheckedKeysComeFromTheAuthor(es: seq<Entry>, records: Json, ds: seq<Entry>, p: Path, key: string)
    requires Plain(ds) && key in {"data", "field", "transform"}
    requires Outside(p + [Key(key)])
    requires var out := Obj(Complete(NormalizeAxes(Obj(NormalizeDimensions(es)), ds).entries, records));
             Lookup(out, p + [Key(key)]).Some?
    ensures var out := Obj(Complete(NormalizeAxes(Obj(NormalizeDimensions(es)), ds).entries, records));
            || (p == [] && key == "data")
            || (&& Lookup(Obj(es), p + [Key(key)]).Some?
                && forall f :: Lookup(out, p + [Key(key)]) == Some(Str(f)) ==> Lookup(Obj(es), p + [Key(key)]) == Some(Str(f)))
  {
    hide NormalizeAxes, NormalizeDimensions, Complete;
    var q := p + [Key(key)];
    assert q[|q| - 1] == Key(key);
    var walked := NormalizeAxes(Obj(NormalizeDimensions(es)), ds);
    WalkedIsObj(NormalizeDimensions(es), ds);
    CompletionAddsOnlyRootData(walked.entries, records, q);
    if q != [Key("data")] {
      WalkAddsNoCheckedKey(Obj(NormalizeDimensions(es)), ds, p, key);
      DimensionsAddNoCheckedKey(es, q);
    } else {
      assert |p| == 0;
    }
  }

  lemma DimensionsSurvive(es: seq<Entry>, records: Json, ds: seq<Entry>)
    ensures var out := Complete(NormalizeAxes(Obj(NormalizeDimensions(es)), ds).entries, records);
            && Get(out, "width") == Some(Int(BoundedDimension(Get(es, "width"), DEFAULT_WIDTH, MAX_WIDTH)))
            && Get(out, "height") == Some(Int(BoundedDimension(Get(es, "height"), DEFAULT_HEIGHT, MAX_HEIGHT)))
            && Get(out, "data") == Some(NAMED_DATA)
            && Get(out, "datasets") == Some(Obj([Entry(DATASET, records)]))
  {
    hide NormalizeAxes;
    var w := Int(BoundedDimension(Get(es, "width"), DEFAULT_WIDTH, MAX_WIDTH));
    var es1 := Put(es, "width", w);
    GetPut(es, "width", w, "width");
    GetPut(es, "width", w, "height");
    var h := Int(BoundedDimension(Get(es1, "height"), DEFAULT_HEIGHT, MAX_HEIGHT));
    GetPut(es1, "height", h, "width");
    GetPut(es1, "height", h, "height");
    var sized := NormalizeDimensions(es);
    WalkedIsObj(sized, ds);
    WalkKeepsRootScalar(sized, ds, "width", w);
    WalkKeepsRootScalar(sized, ds, "height", h);
    CompleteGets(NormalizeAxes(Obj(sized), ds).entries, records);
  }

  lemma WalkKeepsRootScalar(es: seq<Entry>, ds: seq<Entry>, key: string, v: Json)
    requires Get(es, key) == Some(v) && Scalar(v)
    ensures Get(NormalizeAxes(Obj(es), ds).entries, key) == Some(v)
  {
    AxisPaths.AuthorsValuesStay(Obj(es), ds, [Key(key)]);
    assert Lookup(Obj(es), [Key(key)]) == Some(v);
    WalkedIsObj(es, ds);
    var walked := NormalizeAxes(Obj(es), ds);
    assert Lookup(walked, [Key(key)]) == Step(walked, Key(key));
  }

  lemma CompleteGets(es: seq<Entry>, records: Json)
    ensures Get(Complete(es, records), "width") == Get(es, "width")
    ensures Get(Complete(es, records), "height") == Get(es, "height")
    ensures Get(Complete(es, records), "data") == Some(NAMED_DATA)
    ensures Get(Complete(es, records), "datasets") == Some(Obj([Entry(DATASET, records)]))
  {
    var b := Get(es, "background").GetOr(Str("white"));
    var es1 := Put(es, "background", b);
    var es2 := Put(es1, "data", NAMED_DATA);
    forall k ensures Get(es1, k) == if k == "background" then Some(b) else Get(es, k) {
      GetPut(es, "background", b, k);
    }
    forall k ensures Get(es2, k) == if k == "data" then Some(NAMED_DATA) else Get(es1, k) {
      GetPut(es1, "data", NAMED_DATA, k);
    }
    forall k ensures Get(Complete(es, records), k)
                     == if k == "datasets" then Some(Obj([Entry(DATASET, records)])) else Get(es2, k) {
      GetPut(es2, "datasets", Obj([Entry(DATASET, records)]), k);
    }
  }

  /** Every spec the preparation returns is safe, whatever the author wrote. */
  lemma PreparedSpecIsSafe(spec: Json, records: Json, allowed: set<string>, stamp: int -> string, start: int, end: int,
                           accepts: Json -> bool)
    requires Prepare(spec, records, allowed, stamp, start, end, accepts).Ok?
    ensures SafeSpec(Prepare(spec, records, allowed, stamp, start, end, accepts).value, records, allowed)
  {
    hide NormalizeAxes, Defaults, Complete, NormalizeDimensions, BoundedDimension;
    var es, ds := spec.entries, Defaults(stamp, start, end);
    var out := Prepare(spec, records, allowed, stamp, start, end, accepts).value;
    DefaultsArePlain(stamp, start, end);
    DataCheckSound(spec);
    FieldCheckSound(spec, allowed);
    DimensionsSurvive(es, records, ds);
    forall p: Path | Outside(p + [Key("data")]) && Lookup(out, p + [Key("data")]).Some? ensures p == [] {
      CheckedKeysComeFromTheAuthor(es, records, ds, p, "data");
    }
    forall p: Path, f | Outside(p + [Key("field")]) && Lookup(out, p + [Key("field")]) == Some(Str(f)) ensures f in allowed {
      CheckedKeysComeFromTheAuthor(es, records, ds, p, "field");
    }
    forall p: Path | Outside(p + [Key("transform")]) ensures Lookup(out, p + [Key("transform")]).None? {
      NoKeyNoPath(spec, "transform", p);
      if Lookup(out, p + [Key("transform")]).Some? {
        CheckedKeysComeFromTheAuthor(es, records, ds, p, "transform");
      }
    }
  }
}
