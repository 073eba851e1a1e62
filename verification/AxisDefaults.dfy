/**
  `normalize_time_axes` (llm/tools/chart_time_axes.py): walk a spec and complete the axis of
  every temporal `time` x-encoding.  The walk is modelled on values; `ds` is the list of
  axis defaults.
 */
module AxisDefaults {
  import Durations
  import opened Wrappers
  import opened Json
  import TimeAxes

  function Defaults(stamp: int -> string, start: int, end: int): seq<Entry> {
    var duration := end - start;
    var sameDay := duration <= Durations.DAY;
    [Entry("format", Str(if sameDay then "%H:%M" else "%d.%m %H:%M")),
     Entry("labelAngle", Int(if sameDay then 0 else -35)),
     Entry("labelBound", Bool(true)),
     Entry("labelFlush", Bool(true)),
     Entry("labelOverlap", Str("greedy")),
     Entry("labelPadding", Int(4)),
     Entry("values", Arr(StrItems(TimeAxes.Texts(stamp, TimeAxes.Ticks(start, end, TimeAxes.IntervalHours(duration))))))]
  }

  function StrItems(texts: seq<string>): (r: seq<Json>)
    ensures |r| == |texts| && forall i :: 0 <= i < |texts| ==> r[i] == Str(texts[i])
  {
    seq(|texts|, i requires 0 <= i < |texts| => Str(texts[i]))
  }

  /** Defaults hold scalars and lists of texts only, and use none of the keys the chart checks look for. */
  ghost predicate Plain(ds: seq<Entry>) {
    forall i :: 0 <= i < |ds| ==>
      && PlainValue(ds[i].value)
      && ds[i].key !in {"encoding", "data", "field", "transform"}
  }

  ghost predicate PlainValue(j: Json) {
    || Scalar(j)
    || (j.Arr? && forall i :: 0 <= i < |j.items| ==> j.items[i].Str?)
  }

  predicate Scalar(j: Json) {
    j.Bool? || j.Int? || j.Float? || j.Str?
  }

  lemma DefaultsArePlain(stamp: int -> string, start: int, end: int)
    ensures Plain(Defaults(stamp, start, end))
  {
  }

  // ---- The walk ---------------------------------------------------------------------

  predicate IsTimeX(j: Json) {
    j.Obj? && Get(j.entries, "field") == Some(Str("time")) && Get(j.entries, "type") == Some(Str("temporal"))
  }

  /** `setdefault` for every default in turn. */
  function SetDefaults(es: seq<Entry>, ds: seq<Entry>): seq<Entry>
    decreases |ds|
  {
    if ds == [] then es
    else SetDefaults(if Has(es, ds[0].key) then es else Put(es, ds[0].key, ds[0].value), ds[1..])
  }

  /** Complete the axis of an x-encoding: fill in a dictionary, replace a missing or null axis. */
  function FixAxis(xs: seq<Entry>, ds: seq<Entry>): seq<Entry> {
    match Get(xs, "axis")
    case None => Put(xs, "axis", Obj(ds))
    case Some(axis) =>
      match axis
      case Obj(es) => Put(xs, "axis", Obj(SetDefaults(es, ds)))
      case Null => Put(xs, "axis", Obj(ds))
      case _ => xs
  }

  /** The time x-encoding of a node, if its `encoding` has one. */
  function TimeX(es: seq<Entry>): (r: Option<seq<Entry>>)
    ensures r.Some? ==>
              && Has(es, "encoding") && Get(es, "encoding").value.Obj?
              && Get(Get(es, "encoding").value.entries, "x") == Some(Obj(r.value))
              && IsTimeX(Obj(r.value))
  {
    match Get(es, "encoding")
    case Some(Obj(enc)) =>
      (match Get(enc, "x")
       case Some(x) => if IsTimeX(x) then Some(x.entries) else None
       case None => None)
    case _ => None
  }

  /** The part of a visit that changes this node. */
  function FixNode(es: seq<Entry>, ds: seq<Entry>): seq<Entry> {
    match TimeX(es)
    case None => es
    case Some(xs) =>
      Put(es, "encoding", Obj(Put(Get(es, "encoding").value.entries, "x", Obj(FixAxis(xs, ds)))))
  }

  function NormalizeAxes(j: Json, ds: seq<Entry>): Json
    decreases j, 1
  {
    match j
    case Obj(es) => Obj(FixNode(NormalizeEntries(es, ds), ds))
    case Arr(items) => Arr(NormalizeItems(items, ds))
    case _ => j
  }

  function NormalizeEntries(es: seq<Entry>, ds: seq<Entry>): (r: seq<Entry>)
    ensures |r| == |es|
    decreases es, 0
  {
    if es == [] then []
    else [Entry(es[0].key, NormalizeAxes(es[0].value, ds))] + NormalizeEntries(es[1..], ds)
  }

  function NormalizeItems(items: seq<Json>, ds: seq<Entry>): (r: seq<Json>)
    ensures |r| == |items|
    decreases items, 0
  {
    if items == [] then [] else [NormalizeAxes(items[0], ds)] + NormalizeItems(items[1..], ds)
  }

  // ---- Dictionaries under the walk --------------------------------------------------

  lemma {:induction false} GetNormalized(es: seq<Entry>, ds: seq<Entry>, k: string)
    ensures Get(NormalizeEntries(es, ds), k)
            == match Get(es, k) case None => None case Some(v) => Some(NormalizeAxes(v, ds))
  {
    if es != [] {
      GetNormalized(es[1..], ds, k);
      assert NormalizeEntries(es, ds)[1..] == NormalizeEntries(es[1..], ds);
    }
  }

  lemma {:induction false} ItemNormalized(items: seq<Json>, ds: seq<Entry>, i: nat)
    requires i < |items|
    ensures NormalizeItems(items, ds)[i] == NormalizeAxes(items[i], ds)
  {
    if i > 0 {
      ItemNormalized(items[1..], ds, i - 1);
    }
  }

  lemma {:induction false} NormalizePut(es: seq<Entry>, ds: seq<Entry>, k: string, v: Json)
    ensures NormalizeEntries(Put(es, k, v), ds) == Put(NormalizeEntries(es, ds), k, NormalizeAxes(v, ds))
  {
    var p := Put(es, k, v);
    if es != [] {
      NormalizePut(es[1..], ds, k, v);
      assert NormalizeEntries(es, ds)[1..] == NormalizeEntries(es[1..], ds);
      if es[0].key == k {
        assert p[1..] == es[1..];
      } else {
        assert p[1..] == Put(es[1..], k, v);
      }
    } else {
      assert p[1..] == [];
    }
  }

  lemma {:induction false} PutCommute(es: seq<Entry>, k: string, v: Json, l: string, u: Json)
    requires k != l && Has(es, k)
    ensures Put(Put(es, k, v), l, u) == Put(Put(es, l, u), k, v)
  {
    if es[0].key == k {
      assert Put(es, k, v)[1..] == es[1..];
      assert Put(es, l, u)[1..] == Put(es[1..], l, u);
    } else {
      PutCommute(es[1..], k, v, l, u);
      assert Put(es, k, v)[1..] == Put(es[1..], k, v);
      if es[0].key == l {
        assert Put(es, l, u)[1..] == es[1..];
      } else {
        assert Put(es, l, u)[1..] == Put(es[1..], l, u);
      }
    }
  }

  // ---- Set defaults -----------------------------------------------------------------

  /** A key keeps its value; a missing key gets its default, if there is one. */
  lemma {:induction false} GetSetDefaults(es: seq<Entry>, ds: seq<Entry>, k: string)
    ensures Get(SetDefaults(es, ds), k) == if Has(es, k) then Get(es, k) else Get(ds, k)
    decreases |ds|
  {
    if ds != [] {
      var es' := if Has(es, ds[0].key) then es else Put(es, ds[0].key, ds[0].value);
      GetSetDefaults(es', ds[1..], k);
      GetPut(es, ds[0].key, ds[0].value, k);
    }
  }

  lemma {:induction false} SetDefaultsStable(es: seq<Entry>, ds: seq<Entry>)
    requires forall i :: 0 <= i < |ds| ==> Has(es, ds[i].key)
    ensures SetDefaults(es, ds) == es
  {
    if ds != [] {
      SetDefaultsStable(es, ds[1..]);
    }
  }

  lemma DefaultsAreSet(es: seq<Entry>, ds: seq<Entry>)
    ensures forall i :: 0 <= i < |ds| ==> Has(SetDefaults(es, ds), ds[i].key)
  {
    forall i | 0 <= i < |ds| ensures Has(SetDefaults(es, ds), ds[i].key) {
      GetSetDefaults(es, ds, ds[i].key);
      GetMeaning(ds, ds[i].key);
    }
  }

  lemma PlainValueStays(j: Json, ds: seq<Entry>)
    requires PlainValue(j)
    ensures NormalizeAxes(j, ds) == j
  {
    if j.Arr? {
      forall i | 0 <= i < |j.items| ensures NormalizeItems(j.items, ds)[i] == j.items[i] {
        ItemNormalized(j.items, ds, i);
      }
    }
  }

  lemma {:induction false} PlainEntriesStay(es: seq<Entry>, ds: seq<Entry>)
    requires forall i :: 0 <= i < |es| ==> PlainValue(es[i].value)
    ensures NormalizeEntries(es, ds) == es
  {
    if es != [] {
      PlainValueStays(es[0].value, ds);
      PlainEntriesStay(es[1..], ds);
    }
  }

  lemma {:induction false} NormalizeSetDefaults(es: seq<Entry>, ds: seq<Entry>, rest: seq<Entry>)
    requires Plain(rest)
    ensures NormalizeEntries(SetDefaults(es, rest), ds) == SetDefaults(NormalizeEntries(es, ds), rest)
    decreases |rest|
  {
    if rest != [] {
      var k, v := rest[0].key, rest[0].value;
      GetNormalized(es, ds, k);
      NormalizePut(es, ds, k, v);
      PlainValueStays(v, ds);
      NormalizeSetDefaults(if Has(es, k) then es else Put(es, k, v), ds, rest[1..]);
    }
  }

  // ---- Fixing a node looks at `encoding` only ---------------------------------------

  lemma FixNodePut(es: seq<Entry>, ds: seq<Entry>, k: string, v: Json)
    requires k != "encoding"
    ensures FixNode(Put(es, k, v), ds) == Put(FixNode(es, ds), k, v)
  {
    GetPut(es, k, v, "encoding");
    if TimeX(es).Some? {
      var fixed := Obj(Put(Get(es, "encoding").value.entries, "x", Obj(FixAxis(TimeX(es).value, ds))));
      PutCommute(es, "encoding", fixed, k, v);
    }
  }

  lemma GetFixNode(es: seq<Entry>, ds: seq<Entry>, k: string)
    ensures k != "encoding" ==> Get(FixNode(es, ds), k) == Get(es, k)
    ensures TimeX(es).None? ==> FixNode(es, ds) == es
    ensures TimeX(es).Some? ==>
              Get(FixNode(es, ds), "encoding")
              == Some(Obj(Put(Get(es, "encoding").value.entries, "x", Obj(FixAxis(TimeX(es).value, ds)))))
  {
    if TimeX(es).Some? {
      GetPut(es, "encoding", Obj(Put(Get(es, "encoding").value.entries, "x", Obj(FixAxis(TimeX(es).value, ds)))), k);
      GetPut(es, "encoding", Obj(Put(Get(es, "encoding").value.entries, "x", Obj(FixAxis(TimeX(es).value, ds)))), "encoding");
    }
  }

  lemma {:induction false} FixNodeSetDefaults(es: seq<Entry>, ds: seq<Entry>, rest: seq<Entry>)
    requires Plain(rest)
    ensures FixNode(SetDefaults(es, rest), ds) == SetDefaults(FixNode(es, ds), rest)
    decreases |rest|
  {
    if rest != [] {
      var k, v := rest[0].key, rest[0].value;
      GetFixNode(es, ds, k);
      FixNodePut(es, ds, k, v);
      FixNodeSetDefaults(if Has(es, k) then es else Put(es, k, v), ds, rest[1..]);
    }
  }

  lemma IsTimeXNormalized(x: Json, ds: seq<Entry>)
    ensures IsTimeX(NormalizeAxes(x, ds)) <==> IsTimeX(x)
  {
    if x.Obj? {
      var es := NormalizeEntries(x.entries, ds);
      GetNormalized(x.entries, ds, "field");
      GetNormalized(x.entries, ds, "type");
      GetFixNode(es, ds, "field");
      GetFixNode(es, ds, "type");
    }
  }
}
