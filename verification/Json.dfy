/** JSON trees as the chart tools handle them: ordered dictionaries, lists and scalars. */
module Json {
  import opened Wrappers
  import Text

  datatype Json =
    | Null
    | Bool(b: bool)
    | Int(i: int)
    | Float(r: real)
    | Str(s: string)
    | Arr(items: seq<Json>)
    | Obj(entries: seq<Entry>)

  datatype Entry = Entry(key: string, value: Json)

  // ---- Dictionaries -----------------------------------------------------------------

  /** `d.get(key)`, None when the key is absent. */
  function Get(es: seq<Entry>, key: string): Option<Json> {
    if es == [] then None
    else if es[0].key == key then Some(es[0].value)
    else Get(es[1..], key)
  }

  /** Some exactly when the key is there; the value is one stored under it. */
  lemma {:induction false} GetMeaning(es: seq<Entry>, key: string)
    ensures Get(es, key).Some? ==> exists i :: 0 <= i < |es| && es[i].key == key && es[i].value == Get(es, key).value
    ensures Get(es, key).None? ==> forall i :: 0 <= i < |es| ==> es[i].key != key
  {
    if es != [] && es[0].key != key {
      GetMeaning(es[1..], key);
      assert forall i :: 1 <= i < |es| ==> es[i] == es[1..][i - 1];
    } else if es != [] {
      assert es[0].key == key;
    }
  }

  predicate Has(es: seq<Entry>, key: string) {
    Get(es, key).Some?
  }

  /** `d[key] = value`: in place when the key is there, else at the end. */
  function Put(es: seq<Entry>, key: string, value: Json): seq<Entry> {
    if es == [] then [Entry(key, value)]
    else if es[0].key == key then [Entry(key, value)] + es[1..]
    else [es[0]] + Put(es[1..], key, value)
  }

  lemma {:induction false} GetPut(es: seq<Entry>, key: string, value: Json, k: string)
    ensures Get(Put(es, key, value), k) == if k == key then Some(value) else Get(es, k)
  {
    if es != [] && es[0].key != key {
      GetPut(es[1..], key, value, k);
      assert Put(es, key, value)[1..] == Put(es[1..], key, value);
    } else if es != [] {
      assert Put(es, key, value)[1..] == es[1..];
    }
  }

  lemma {:induction false} PutSame(es: seq<Entry>, key: string)
    requires Has(es, key)
    ensures Put(es, key, Get(es, key).value) == es
  {
    if es[0].key != key {
      PutSame(es[1..], key);
    }
  }

  lemma {:induction false} PutTwice(es: seq<Entry>, key: string, a: Json, b: Json)
    ensures Put(Put(es, key, a), key, b) == Put(es, key, b)
  {
    if es != [] && es[0].key != key {
      PutTwice(es[1..], key, a, b);
      assert Put(es, key, a)[1..] == Put(es[1..], key, a);
    } else if es != [] {
      assert Put(es, key, a)[1..] == es[1..];
    }
  }

  /** Dictionaries hold each key once, at every level. */
  ghost predicate WellFormed(j: Json) {
    match j
    case Arr(items) => forall i :: 0 <= i < |items| ==> WellFormed(items[i])
    case Obj(es) =>
      && (forall i, k :: 0 <= i < k < |es| ==> es[i].key != es[k].key)
      && (forall i :: 0 <= i < |es| ==> WellFormed(es[i].value))
    case _ => true
  }

  lemma {:induction false} GetUnique(es: seq<Entry>, i: nat)
    requires i < |es| && forall i, k :: 0 <= i < k < |es| ==> es[i].key != es[k].key
    ensures Get(es, es[i].key) == Some(es[i].value)
  {
    if i > 0 {
      GetUnique(es[1..], i - 1);
    }
  }

  // ---- Paths ------------------------------------------------------------------------

  datatype Hop = Key(key: string) | Index(index: nat)

  type Path = seq<Hop>

  function Step(j: Json, h: Hop): Option<Json> {
    match (j, h)
    case (Obj(es), Key(k)) => Get(es, k)
    case (Arr(items), Index(i)) => if i < |items| then Some(items[i]) else None
    case _ => None
  }

  function Lookup(j: Json, p: Path): Option<Json>
    decreases |p|
  {
    if p == [] then Some(j)
    else
      var child := Step(j, p[0]);
      if child.None? then None else Lookup(child.value, p[1..])
  }

  // ---- Searching for a key anywhere -------------------------------------------------

  datatype Found = Found(path: seq<string>, value: Json)

  /** `_find_key_values`: every value stored under `key`, in visiting order, with its path. */
  function FindKeyValues(j: Json, key: string, path: seq<string> := []): seq<Found>
    decreases j, 1
  {
    match j
    case Obj(es) => FindInEntries(es, key, path)
    case Arr(items) => FindInItems(items, key, path, 0)
    case _ => []
  }

  function FindInEntries(es: seq<Entry>, key: string, path: seq<string>): seq<Found>
    decreases es, 0
  {
    if es == [] then []
    else
      var here := path + [es[0].key];
      (if es[0].key == key then [Found(here, es[0].value)] else [])
      + FindKeyValues(es[0].value, key, here)
      + FindInEntries(es[1..], key, path)
  }

  function FindInItems(items: seq<Json>, key: string, path: seq<string>, index: nat): seq<Found>
    decreases items, 0
  {
    if items == [] then []
    else FindKeyValues(items[0], key, path + [Text.IntText(index)]) + FindInItems(items[1..], key, path, index + 1)
  }

  /** The search as the source runs it: a visitor that appends to one list. */
  class KeySearch {
    const key: string
    var found: seq<Found>

    constructor (key: string)
      ensures this.key == key && found == []
    {
      this.key := key;
      found := [];
    }

    method Visit(current: Json, path: seq<string>)
      modifies this
      ensures found == old(found) + FindKeyValues(current, key, path)
      decreases current
    {
      hide FindInEntries, FindInItems, Text.IntText;
      match current
      case Obj(es) =>
        assert es[0..] == es;
        for i := 0 to |es|
          invariant found + FindInEntries(es[i..], key, path) == old(found) + FindInEntries(es, key, path)
        {
          EntriesFrom(es, i, key, path);
          ghost var before := found;
          var childPath := path + [es[i].key];
          if es[i].key == key {
            found := found + [Found(childPath, es[i].value)];
          }
          assert found == before + FoundHere(es[i], key, path);
          Visit(es[i].value, childPath);
        }
        assert es[|es|..] == [];
        NoEntries(key, path);
      case Arr(items) =>
        assert items[0..] == items;
        for i := 0 to |items|
          invariant found + FindInItems(items[i..], key, path, i) == old(found) + FindInItems(items, key, path, 0)
        {
          ItemsFrom(items, i, key, path);
          Visit(items[i], path + [Text.IntText(i)]);
        }
        assert items[|items|..] == [];
        NoItems(key, path, |items|);
      case _ =>
    }
  }

  function FoundHere(e: Entry, key: string, path: seq<string>): seq<Found> {
    if e.key == key then [Found(path + [e.key], e.value)] else []
  }

  lemma EntriesFrom(es: seq<Entry>, i: nat, key: string, path: seq<string>)
    requires i < |es|
    ensures FindInEntries(es[i..], key, path)
            == FoundHere(es[i], key, path) + FindKeyValues(es[i].value, key, path + [es[i].key])
               + FindInEntries(es[i + 1..], key, path)
  {
    hide FindKeyValues;
    assert es[i..][1..] == es[i + 1..];
  }

  lemma ItemsFrom(items: seq<Json>, i: nat, key: string, path: seq<string>)
    requires i < |items|
    ensures FindInItems(items[i..], key, path, i)
            == FindKeyValues(items[i], key, path + [Text.IntText(i)]) + FindInItems(items[i + 1..], key, path, i + 1)
  {
    hide FindKeyValues;
    assert items[i..][1..] == items[i + 1..];
  }

  lemma NoEntries(key: string, path: seq<string>)
    ensures FindInEntries([], key, path) == []
  {
  }

  lemma NoItems(key: string, path: seq<string>, index: nat)
    ensures FindInItems([], key, path, index) == []
  {
  }

  function HopText(h: Hop): string {
    match h
    case Key(k) => k
    case Index(i) => Text.IntText(i)
  }

  function PathText(p: Path): seq<string> {
    if p == [] then [] else [HopText(p[0])] + PathText(p[1..])
  }

  /** A child's findings are among its parent's, and so is the child itself when it sits under `key`. */
  lemma ChildIsSearched(j: Json, h: Hop, key: string, path: seq<string>)
    requires Step(j, h).Some?
    ensures forall f :: f in FindKeyValues(Step(j, h).value, key, path + [HopText(h)]) ==> f in FindKeyValues(j, key, path)
    ensures h == Key(key) ==> Found(path + [key], Step(j, h).value) in FindKeyValues(j, key, path)
  {
    match j
    case Obj(es) =>
      GetMeaning(es, h.key);
      var i :| 0 <= i < |es| && es[i].key == h.key && es[i].value == Step(j, h).value;
      EntryIsSearched(es, i, key, path);
    case Arr(items) =>
      ItemIsSearched(items, h.index, key, path, 0);
    case _ =>
  }

  /** Whatever a path ending in `key` leads to is found, with the text of that path. */
  lemma {:induction false} SearchIsComplete(j: Json, p: Path, key: string, path: seq<string>)
    requires Lookup(j, p + [Key(key)]).Some?
    ensures Found(path + PathText(p + [Key(key)]), Lookup(j, p + [Key(key)]).value) in FindKeyValues(j, key, path)
    decreases |p|
  {
    hide FindKeyValues;
    if p == [] {
      assert p + [Key(key)] == [Key(key)];
      assert PathText([Key(key)]) == [key];
      assert Lookup(j, [Key(key)]) == Step(j, Key(key));
      ChildIsSearched(j, Key(key), key, path);
    } else {
      assert p == [p[0]] + p[1..];
      assert (p + [Key(key)])[0] == p[0];
      PathGrows(j, p[0], p[1..], key, path);
      ChildIsSearched(j, p[0], key, path);
      SearchIsComplete(Step(j, p[0]).value, p[1..], key, path + [HopText(p[0])]);
    }
  }

  lemma {:induction false} EntryIsSearched(es: seq<Entry>, i: nat, key: string, path: seq<string>)
    requires i < |es|
    ensures forall f :: f in FindKeyValues(es[i].value, key, path + [es[i].key]) ==> f in FindInEntries(es, key, path)
    ensures es[i].key == key ==> Found(path + [key], es[i].value) in FindInEntries(es, key, path)
  {
    if i > 0 {
      EntryIsSearched(es[1..], i - 1, key, path);
    }
  }

  lemma {:induction false} ItemIsSearched(items: seq<Json>, i: nat, key: string, path: seq<string>, index: nat)
    requires i < |items|
    ensures forall f :: f in FindKeyValues(items[i], key, path + [Text.IntText(index + i)]) ==>
              f in FindInItems(items, key, path, index)
  {
    if i > 0 {
      ItemIsSearched(items[1..], i - 1, key, path, index + 1);
    }
  }

  ghost predicate OnPath(j: Json, p: Path, key: string, path: seq<string>, f: Found) {
    Lookup(j, p + [Key(key)]) == Some(f.value) && f.path == path + PathText(p + [Key(key)])
  }

  /** Everything found in a well-formed tree lies on a path ending in `key`. */
  lemma {:induction false} SearchIsSound(j: Json, key: string, path: seq<string>, f: Found) returns (p: Path)
    requires WellFormed(j) && f in FindKeyValues(j, key, path)
    ensures OnPath(j, p, key, path, f)
    decreases j, 1
  {
    match j
    case Obj(es) =>
      var i := FoundInEntry(es, key, path, f);
      GetUnique(es, i);
      var here := path + [es[i].key];
      if es[i].key == key && f == Found(here, es[i].value) {
        p := [];
        assert [] + [Key(key)] == [Key(key)];
      } else {
        var rest := SearchIsSound(es[i].value, key, here, f);
        p := [Key(es[i].key)] + rest;
        PathGrows(j, Key(es[i].key), rest, key, path);
      }
    case Arr(items) =>
      var i := FoundInItem(items, key, path, 0, f);
      var rest := SearchIsSound(items[i], key, path + [Text.IntText(i)], f);
      p := [Index(i)] + rest;
      PathGrows(j, Index(i), rest, key, path);
    case _ =>
  }

  lemma PathGrows(j: Json, h: Hop, rest: Path, key: string, path: seq<string>)
    requires Step(j, h).Some?
    ensures var p := [h] + rest;
            && Lookup(j, p + [Key(key)]) == Lookup(Step(j, h).value, rest + [Key(key)])
            && path + PathText(p + [Key(key)]) == (path + [HopText(h)]) + PathText(rest + [Key(key)])
  {
    var q := [h] + rest + [Key(key)];
    assert q[1..] == rest + [Key(key)];
  }

  lemma {:induction false} FoundInEntry(es: seq<Entry>, key: string, path: seq<string>, f: Found) returns (i: nat)
    requires f in FindInEntries(es, key, path)
    ensures i < |es|
    ensures || (es[i].key == key && f == Found(path + [es[i].key], es[i].value))
            || f in FindKeyValues(es[i].value, key, path + [es[i].key])
  {
    if f in FindInEntries(es[1..], key, path) {
      i := FoundInEntry(es[1..], key, path, f);
      i := i + 1;
    } else {
      i := 0;
    }
  }

  lemma {:induction false} FoundInItem(items: seq<Json>, key: string, path: seq<string>, index: nat, f: Found)
    returns (i: nat)
    requires f in FindInItems(items, key, path, index)
    ensures i < |items| && f in FindKeyValues(items[i], key, path + [Text.IntText(index + i)])
  {
    if f in FindInItems(items[1..], key, path, index + 1) {
      i := FoundInItem(items[1..], key, path, index + 1, f);
      i := i + 1;
    } else {
      i := 0;
    }
  }
}
