/** The axis walk: order of visiting, idempotence, and what it leaves alone. */
module AxisLaws {
  import opened Wrappers
  import opened Json
  import opened AxisDefaults

  // ---- Parents before children ------------------------------------------------------

  /** Completing an x-encoding commutes with the walk below it. */
  lemma NormalizeFixAxis(xs: seq<Entry>, ds: seq<Entry>)
    requires Plain(ds)
    ensures NormalizeEntries(FixAxis(xs, ds), ds) == FixAxis(NormalizeEntries(xs, ds), ds)
  {
    GetNormalized(xs, ds, "axis");
    PlainEntriesStay(ds, ds);
    NoEncodingNoFix(ds, ds);
    match Get(xs, "axis")
    case None => NormalizePut(xs, ds, "axis", Obj(ds));
    case Some(axis) =>
      match axis
      case Null => NormalizePut(xs, ds, "axis", Obj(ds));
      case Obj(es) =>
        NormalizePut(xs, ds, "axis", Obj(SetDefaults(es, ds)));
        NormalizeSetDefaults(es, ds, ds);
        FixNodeSetDefaults(NormalizeEntries(es, ds), ds, ds);
      case _ =>
  }

  lemma NoEncodingNoFix(es: seq<Entry>, ds: seq<Entry>)
    requires Plain(es)
    ensures FixNode(es, ds) == es
  {
    GetMeaning(es, "encoding");
  }

  /** Completing an x-encoding does not touch its own `encoding` entry. */
  lemma FixNodeFixAxis(xs: seq<Entry>, ds: seq<Entry>)
    ensures FixNode(FixAxis(xs, ds), ds) == FixAxis(FixNode(xs, ds), ds)
  {
    GetFixNode(xs, ds, "axis");
    match Get(xs, "axis")
    case None => FixNodePut(xs, ds, "axis", Obj(ds));
    case Some(axis) =>
      match axis
      case Null => FixNodePut(xs, ds, "axis", Obj(ds));
      case Obj(es) => FixNodePut(xs, ds, "axis", Obj(SetDefaults(es, ds)));
      case _ =>
  }

  /** The time x-encoding of a walked node is the walked time x-encoding of the node. */
  lemma TimeXNormalized(es: seq<Entry>, ds: seq<Entry>)
    ensures TimeX(NormalizeEntries(es, ds)).Some? <==> TimeX(es).Some?
    ensures TimeX(es).Some? ==>
              && var enc := Get(es, "encoding").value.entries;
              && Get(NormalizeEntries(es, ds), "encoding") == Some(Obj(FixNode(NormalizeEntries(enc, ds), ds)))
              && TimeX(NormalizeEntries(es, ds)).value == FixNode(NormalizeEntries(TimeX(es).value, ds), ds)
  {
    GetNormalized(es, ds, "encoding");
    if Has(es, "encoding") && Get(es, "encoding").value.Obj? {
      var enc := Get(es, "encoding").value.entries;
      GetNormalized(enc, ds, "x");
      GetFixNode(NormalizeEntries(enc, ds), ds, "x");
      if Has(enc, "x") {
        IsTimeXNormalized(Get(enc, "x").value, ds);
      }
    }
  }

  /**
    The source completes a node before it visits the node's children; doing it afterwards
    gives the same tree.
   */
  lemma ParentFirstIsTheSame(es: seq<Entry>, ds: seq<Entry>)
    requires Plain(ds)
    ensures NormalizeAxes(Obj(es), ds) == Obj(NormalizeEntries(FixNode(es, ds), ds))
  {
    hide FixAxis, IsTimeX;
    TimeXNormalized(es, ds);
    if TimeX(es).Some? {
      var xs, enc := TimeX(es).value, Get(es, "encoding").value.entries;
      var fixed := Obj(FixAxis(xs, ds));
      NormalizePut(es, ds, "encoding", Obj(Put(enc, "x", fixed)));
      NormalizePut(enc, ds, "x", fixed);
      FixNodePut(NormalizeEntries(enc, ds), ds, "x", NormalizeAxes(fixed, ds));
      NormalizeFixAxis(xs, ds);
      FixNodeFixAxis(NormalizeEntries(xs, ds), ds);
    }
  }

  // ---- Idempotence ------------------------------------------------------------------

  lemma FixAxisTwice(xs: seq<Entry>, ds: seq<Entry>)
    ensures FixAxis(FixAxis(xs, ds), ds) == FixAxis(xs, ds)
  {
    var once := FixAxis(xs, ds);
    if Has(xs, "axis") && !Get(xs, "axis").value.Obj? && !Get(xs, "axis").value.Null? {
      assert once == xs;
    } else {
      var axis := if Has(xs, "axis") && Get(xs, "axis").value.Obj?
                  then SetDefaults(Get(xs, "axis").value.entries, ds) else ds;
      forall i | 0 <= i < |ds| ensures Has(ds, ds[i].key) {
        GetMeaning(ds, ds[i].key);
      }
      assert once == Put(xs, "axis", Obj(axis));
      GetPut(xs, "axis", Obj(axis), "axis");
      if Has(xs, "axis") && Get(xs, "axis").value.Obj? {
        DefaultsAreSet(Get(xs, "axis").value.entries, ds);
      }
      SetDefaultsStable(axis, ds);
      PutTwice(xs, "axis", Obj(axis), Obj(axis));
    }
  }

  lemma FixAxisKeepsTimeX(xs: seq<Entry>, ds: seq<Entry>)
    requires IsTimeX(Obj(xs))
    ensures IsTimeX(Obj(FixAxis(xs, ds)))
  {
    if Get(xs, "axis").None? || Get(xs, "axis").value.Null? {
      GetPut(xs, "axis", Obj(ds), "field");
      GetPut(xs, "axis", Obj(ds), "type");
    } else if Get(xs, "axis").value.Obj? {
      GetPut(xs, "axis", Obj(SetDefaults(Get(xs, "axis").value.entries, ds)), "field");
      GetPut(xs, "axis", Obj(SetDefaults(Get(xs, "axis").value.entries, ds)), "type");
    }
  }

  lemma TimeXOfFixedNode(es: seq<Entry>, ds: seq<Entry>)
    requires TimeX(es).Some?
    ensures TimeX(FixNode(es, ds)) == Some(FixAxis(TimeX(es).value, ds))
  {
    hide FixAxis, FixNode;
    var xs, enc := TimeX(es).value, Get(es, "encoding").value.entries;
    GetFixNode(es, ds, "encoding");
    GetPut(enc, "x", Obj(FixAxis(xs, ds)), "x");
    FixAxisKeepsTimeX(xs, ds);
  }

  lemma FixNodeTwice(es: seq<Entry>, ds: seq<Entry>)
    ensures FixNode(FixNode(es, ds), ds) == FixNode(es, ds)
  {
    hide FixAxis, TimeX;
    if TimeX(es).Some? {
      GetFixNode(es, ds, "encoding");
      TimeXOfFixedNode(es, ds);
      FixAxisTwice(TimeX(es).value, ds);
      var fixed := Obj(FixAxis(TimeX(es).value, ds));
      var enc := Get(es, "encoding").value.entries;
      PutTwice(enc, "x", fixed, fixed);
      PutTwice(es, "encoding", Obj(Put(enc, "x", fixed)), Obj(Put(enc, "x", fixed)));
    }
  }

  /** Normalising twice is normalising once. */
  lemma {:induction false} NormalizeTwice(j: Json, ds: seq<Entry>)
    requires Plain(ds)
    ensures NormalizeAxes(NormalizeAxes(j, ds), ds) == NormalizeAxes(j, ds)
    decreases j, 1
  {
    match j
    case Obj(es) =>
      var once := NormalizeEntries(es, ds);
      ParentFirstIsTheSame(once, ds);
      ParentFirstIsTheSame(FixNode(once, ds), ds);
      EntriesTwice(es, ds);
      assert NormalizeAxes(Obj(once), ds) == Obj(FixNode(once, ds));
      FixNodeTwice(once, ds);
    case Arr(items) => ItemsTwice(items, ds);
    case _ =>
  }

  lemma {:induction false} EntriesTwice(es: seq<Entry>, ds: seq<Entry>)
    requires Plain(ds)
    ensures NormalizeEntries(NormalizeEntries(es, ds), ds) == NormalizeEntries(es, ds)
    decreases es, 0
  {
    if es != [] {
      NormalizeTwice(es[0].value, ds);
      EntriesTwice(es[1..], ds);
      assert NormalizeEntries(es, ds)[1..] == NormalizeEntries(es[1..], ds);
    }
  }

  lemma {:induction false} ItemsTwice(items: seq<Json>, ds: seq<Entry>)
    requires Plain(ds)
    ensures NormalizeItems(NormalizeItems(items, ds), ds) == NormalizeItems(items, ds)
    decreases items, 0
  {
    if items != [] {
      NormalizeTwice(items[0], ds);
      ItemsTwice(items[1..], ds);
      assert NormalizeItems(items, ds)[1..] == NormalizeItems(items[1..], ds);
    }
  }
}
