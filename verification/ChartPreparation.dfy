/** Exactly when a chart spec is prepared, and what the preparation leaves of it. */
module ChartPreparation {
  import Durations
  import opened Wrappers
  import opened Json
  import opened AxisDefaults
  import opened ChartSpec
  import opened ChartLaws

  // ---- The shape check --------------------------------------------------------------

  /** A key that occurs in a tree occurs at the end of a path. */
  lemma {:induction false} KeyHasPath(j: Json, key: string) returns (p: Path)
    requires WellFormed(j) && KeyAnywhere(j, key)
    ensures Lookup(j, p + [Key(key)]).Some?
    decreases j, 1
  {
    match j
    case Obj(es) =>
      if Has(es, key) {
        p := [];
        assert Lookup(j, [Key(key)]) == Lookup(Get(es, key).value, []);
      } else {
        var i, q := EntryKeyHasPath(es, key);
        GetUnique(es, i);
        p := [Key(es[i].key)] + q;
        assert (p + [Key(key)])[1..] == q + [Key(key)];
      }
    case Arr(items) =>
      var i, q := ItemKeyHasPath(items, key);
      p := [Index(i)] + q;
      assert (p + [Key(key)])[1..] == q + [Key(key)];
  }

  lemma {:induction false} EntryKeyHasPath(es: seq<Entry>, key: string) returns (i: nat, q: Path)
    requires KeyInEntries(es, key) && forall k :: 0 <= k < |es| ==> WellFormed(es[k].value)
    ensures i < |es| && Lookup(es[i].value, q + [Key(key)]).Some?
    decreases es, 0
  {
    if KeyAnywhere(es[0].value, key) {
      i := 0;
      q := KeyHasPath(es[0].value, key);
    } else {
      var k, r := EntryKeyHasPath(es[1..], key);
      i, q := k + 1, r;
    }
  }

  lemma {:induction false} ItemKeyHasPath(items: seq<Json>, key: string) returns (i: nat, q: Path)
    requires KeyInItems(items, key) && forall k :: 0 <= k < |items| ==> WellFormed(items[k])
    ensures i < |items| && Lookup(items[i], q + [Key(key)]).Some?
    decreases items, 0
  {
    if KeyAnywhere(items[0], key) {
      i := 0;
      q := KeyHasPath(items[0], key);
    } else {
      var k, r := ItemKeyHasPath(items[1..], key);
      i, q := k + 1, r;
    }
  }

  /** An object without composition keys at the root, with a mark or a list of layers, and without `transform` anywhere. */
  ghost predicate ShapeAllowed(spec: Json) {
    && spec.Obj?
    && (forall k :: k in {"datasets", "facet", "concat", "hconcat", "vconcat", "repeat", "params"} ==> !Has(spec.entries, k))
    && (Has(spec.entries, "mark") || Has(spec.entries, "layer"))
    && (Has(spec.entries, "layer") ==> Get(spec.entries, "layer").value.Arr?)
    && KeyAbsent(spec, "transform")
  }

  /** The shape check accepts exactly the specs of an allowed shape. */
  lemma ShapeCheckExact(spec: Json)
    requires WellFormed(spec)
    ensures ValidateShape(spec).Ok? <==> ShapeAllowed(spec)
  {
    if KeyAnywhere(spec, "transform") {
      var p := KeyHasPath(spec, "transform");
    } else {
      forall p: Path ensures Lookup(spec, p + [Key("transform")]).None? {
        NoKeyNoPath(spec, "transform", p);
      }
    }
  }

  // ---- The whole preparation --------------------------------------------------------

  /** Everything the preparation asks of a spec before the schema validation. */
  ghost predicate Acceptable(spec: Json, allowed: set<string>, start: int, end: int) {
    && 0 <= end - start <= 7 * Durations.DAY
    && ShapeAllowed(spec)
    && DataAtTopOnly(spec) && KeyAbsent(spec, "url") && KeyAbsent(spec, "values") && KeyAbsent(spec, "datasets")
    && FieldsAllowed(spec, allowed)
  }

  /**
    A spec is prepared exactly when the range is at most seven days, the checks at every depth
    hold and the schema validation accepts the result.
   */
  lemma PreparedIff(spec: Json, records: Json, allowed: set<string>, stamp: int -> string, start: int, end: int,
                    accepts: Json -> bool)
    requires WellFormed(spec)
    ensures var unvalidated := Prepare(spec, records, allowed, stamp, start, end, _ => true);
            var r := Prepare(spec, records, allowed, stamp, start, end, accepts);
            && (unvalidated.Ok? <==> Acceptable(spec, allowed, start, end))
            && (if unvalidated.Err? then r == unvalidated
                else if accepts(unvalidated.value) then r == unvalidated
                else r == Err(SchemaRejected))
  {
    hide ValidateShape, ValidateDataSources, ValidateFields, ShapeAllowed, DataAtTopOnly, KeyAbsent, FieldsAllowed,
         NormalizeAxes, Defaults, Complete, NormalizeDimensions;
    ShapeCheckExact(spec);
    FieldCheckExact(spec, allowed);
    AllowedIsObject(spec);
    if spec.Obj? {
      DataCheckExact(spec);
    }
  }

  lemma AllowedIsObject(spec: Json)
    ensures ShapeAllowed(spec) ==> spec.Obj?
  {
  }

  /** A key the preparation sets itself, whatever the author wrote. */
  const OWN_KEYS: set<string> := {"width", "height", "data", "datasets"}

  lemma CompleteKeeps(es: seq<Entry>, records: Json, k: string)
    requires k !in OWN_KEYS
    ensures Get(Complete(es, records), k) == if k == "background" && !Has(es, k) then Some(Str("white")) else Get(es, k)
  {
    var b := Get(es, "background").GetOr(Str("white"));
    var es1 := Put(es, "background", b);
    var es2 := Put(es1, "data", NAMED_DATA);
    GetPut(es, "background", b, k);
    GetPut(es1, "data", NAMED_DATA, k);
    GetPut(es2, "datasets", Obj([Entry(DATASET, records)]), k);
  }

  lemma WalkKeepsRootKey(es: seq<Entry>, ds: seq<Entry>, k: string)
    ensures Has(NormalizeAxes(Obj(es), ds).entries, k) <==> Has(es, k)
  {
    hide NormalizeAxes;
    WalkedRoot(es, ds);
    GetNormalized(es, ds, k);
    GetFixNode(NormalizeEntries(es, ds), ds, k);
  }

  lemma WalkedRoot(es: seq<Entry>, ds: seq<Entry>)
    ensures NormalizeAxes(Obj(es), ds) == Obj(FixNode(NormalizeEntries(es, ds), ds))
  {
  }

  lemma SizedKeeps(es: seq<Entry>, k: string)
    requires k !in OWN_KEYS
    ensures Get(NormalizeDimensions(es), k) == Get(es, k)
  {
    hide BoundedDimension;
    var es1 := Put(es, "width", Int(BoundedDimension(Get(es, "width"), DEFAULT_WIDTH, MAX_WIDTH)));
    GetPut(es, "width", Int(BoundedDimension(Get(es, "width"), DEFAULT_WIDTH, MAX_WIDTH)), k);
    GetPut(es1, "height", Int(BoundedDimension(Get(es1, "height"), DEFAULT_HEIGHT, MAX_HEIGHT)), k);
  }

  /**
    A prepared spec has the author's root entries, scalars with their values, a white background
    unless the author gave one, the named data, the records, and width and height brought into
    1 to 900 and 1 to 500.
   */
  lemma PreparedRoot(spec: Json, records: Json, allowed: set<string>, stamp: int -> string, start: int, end: int,
                     accepts: Json -> bool, k: string)
    requires Prepare(spec, records, allowed, stamp, start, end, accepts).Ok?
    ensures spec.Obj? && Prepare(spec, records, allowed, stamp, start, end, accepts).value.Obj?
    ensures var es, out := spec.entries, Prepare(spec, records, allowed, stamp, start, end, accepts).value.entries;
            && (k !in OWN_KEYS && k != "background" ==> (Has(out, k) <==> Has(es, k)))
            && (k !in OWN_KEYS && Has(es, k) && Scalar(Get(es, k).value) ==> Get(out, k) == Get(es, k))
            && (!Has(es, "background") ==> Get(out, "background") == Some(Str("white")))
            && Get(out, "width") == Some(Int(BoundedDimension(Get(es, "width"), 720, 900)))
            && Get(out, "height") == Some(Int(BoundedDimension(Get(es, "height"), 360, 500)))
            && Get(out, "data") == Some(Obj([Entry("name", Str("forecast"))]))
            && Get(out, "datasets") == Some(Obj([Entry("forecast", records)]))
  {
    hide NormalizeAxes, Defaults, Complete, NormalizeDimensions, BoundedDimension, ValidateShape, ValidateDataSources,
         ValidateFields, Get, Scalar;
    ShapeMeansObject(spec);
    var ds, sized := Defaults(stamp, start, end), NormalizeDimensions(spec.entries);
    WalkedIsObj(sized, ds);
    DimensionsSurvive(spec.entries, records, ds);
    var walked := NormalizeAxes(Obj(sized), ds).entries;
    if !Has(spec.entries, "background") {
      SizedKeeps(spec.entries, "background");
      WalkKeepsRootKey(sized, ds, "background");
      CompleteKeeps(walked, records, "background");
    }
    if k !in OWN_KEYS {
      SizedKeeps(spec.entries, k);
      WalkKeepsRootKey(sized, ds, k);
      CompleteKeeps(walked, records, k);
      if Has(spec.entries, k) && Scalar(Get(spec.entries, k).value) {
        WalkKeepsRootScalar(sized, ds, k, Get(spec.entries, k).value);
      }
    }
  }
}
