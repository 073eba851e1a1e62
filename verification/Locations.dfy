/**
  Saved locations of users (domain/locations.py).  Text normalisation for matching is a
  function `norm`; coordinates and description are one value `place`.
 */
module Locations {
  import opened Wrappers

  datatype Place = Place(latitude: real, longitude: real, description: Option<string>)

  datatype Location = Location(id: int, user: int, name: string, aliases: seq<string>, place: Place, enabled: bool)

  datatype Update = Update(name: Option<string>, aliases: Option<seq<string>>, place: Option<Place>, enabled: Option<bool>)

  datatype Error = NameTaken(name: string, holder: int) | AliasTaken(alias: string, holder: int) | NotFound

  type Norm = string -> string

  // ---- Conflict checks --------------------------------------------------------------

  /** An enabled location of the user, other than the excluded one. */
  predicate Rival(loc: Location, user: int, exclude: Option<int>) {
    loc.user == user && loc.enabled && (exclude.None? || loc.id != exclude.value)
  }

  /** The first rival with this name. */
  function NameConflict(norm: Norm, rows: seq<Location>, user: int, name: string, exclude: Option<int>, i: nat := 0):
    (r: Option<nat>)
    requires i <= |rows|
    ensures r.Some? ==> i <= r.value < |rows| && Rival(rows[r.value], user, exclude) && norm(rows[r.value].name) == norm(name)
    ensures r.None? ==> forall k :: i <= k < |rows| && Rival(rows[k], user, exclude) ==> norm(rows[k].name) != norm(name)
    decreases |rows| - i
  {
    if i == |rows| then None
    else if Rival(rows[i], user, exclude) && norm(rows[i].name) == norm(name) then Some(i)
    else NameConflict(norm, rows, user, name, exclude, i + 1)
  }

  /** The first of `aliases` that reads as `target`, an already normalised text. */
  function Reading(norm: Norm, aliases: seq<string>, target: string, i: nat := 0): (r: Option<string>)
    requires i <= |aliases|
    ensures r.Some? <==> exists k :: i <= k < |aliases| && norm(aliases[k]) == target
    ensures r.Some? ==> r.value in aliases && norm(r.value) == target
    decreases |aliases| - i
  {
    if i == |aliases| then None
    else if norm(aliases[i]) == target then Some(aliases[i])
    else Reading(norm, aliases, target, i + 1)
  }

  /** The first alias of `existing` that one of `aliases` repeats: that one. */
  function SharedAlias(norm: Norm, aliases: seq<string>, existing: seq<string>, i: nat := 0): (r: Option<string>)
    requires i <= |existing|
    ensures r.Some? <==> exists k :: i <= k < |existing| && Reading(norm, aliases, norm(existing[k])).Some?
    decreases |existing| - i
  {
    if i == |existing| then None
    else
      var a := Reading(norm, aliases, norm(existing[i]));
      if a.Some? then a else SharedAlias(norm, aliases, existing, i + 1)
  }

  /** An alias that names the location, or repeats one of its aliases. */
  function AliasClash(norm: Norm, aliases: seq<string>, loc: Location): Option<string> {
    var named := Reading(norm, aliases, norm(loc.name));
    if named.Some? then named else SharedAlias(norm, aliases, loc.aliases)
  }

  function AliasConflict(norm: Norm, rows: seq<Location>, user: int, aliases: seq<string>, exclude: Option<int>,
                         i: nat := 0): (r: Option<(string, int)>)
    requires i <= |rows|
    ensures r.None? <==> forall k :: i <= k < |rows| && Rival(rows[k], user, exclude) ==> AliasClash(norm, aliases, rows[k]).None?
    decreases |rows| - i
  {
    if i == |rows| then None
    else
      var clash := if Rival(rows[i], user, exclude) then AliasClash(norm, aliases, rows[i]) else None;
      if clash.Some? then Some((clash.value, rows[i].id)) else AliasConflict(norm, rows, user, aliases, exclude, i + 1)
  }

  // ---- Operations -------------------------------------------------------------------

  datatype Registry = Registry(rows: seq<Location>, nextId: int)

  function FindId(rows: seq<Location>, id: int, i: nat := 0): (r: Option<nat>)
    requires i <= |rows|
    ensures r.Some? ==> i <= r.value < |rows| && rows[r.value].id == id
    ensures r.None? ==> forall k :: i <= k < |rows| ==> rows[k].id != id
    decreases |rows| - i
  {
    if i == |rows| then None else if rows[i].id == id then Some(i) else FindId(rows, id, i + 1)
  }

  function CheckName(norm: Norm, g: Registry, user: int, name: string, exclude: Option<int>): Result<(), Error> {
    match NameConflict(norm, g.rows, user, name, exclude)
    case Some(i) => Err(NameTaken(name, g.rows[i].id))
    case None => Ok(())
  }

  function CheckAliases(norm: Norm, g: Registry, user: int, aliases: seq<string>, exclude: Option<int>): Result<(), Error> {
    match AliasConflict(norm, g.rows, user, aliases, exclude)
    case Some((alias, holder)) => Err(AliasTaken(alias, holder))
    case None => Ok(())
  }

  function Created(norm: Norm, g: Registry, user: int, name: string, aliases: seq<string>, place: Place):
    (Registry, Result<(), Error>)
  {
    var r0 := CheckName(norm, g, user, name, None);
    if r0.Err? then (g, r0)
    else
      var r1 := CheckAliases(norm, g, user, aliases, None);
      if r1.Err? then (g, r1)
      else (Registry(g.rows + [Location(g.nextId, user, name, aliases, place, true)], g.nextId + 1), Ok(()))
  }

  function With(g: Registry, i: nat, loc: Location): Registry
    requires i < |g.rows|
  {
    g.(rows := g.rows[i := loc])
  }

  /** A new name is set before the aliases are checked, and stays set when that check fails. */
  function Updated(norm: Norm, g: Registry, id: int, data: Update): (Registry, Result<(), Error>) {
    match FindId(g.rows, id)
    case None => (g, Err(NotFound))
    case Some(i) =>
      var loc := g.rows[i];
      var r0 := if data.name.Some? then CheckName(norm, g, loc.user, data.name.value, Some(id)) else Ok(());
      if r0.Err? then (g, r0)
      else
        var loc1 := if data.name.Some? then loc.(name := data.name.value) else loc;
        var g1 := With(g, i, loc1);
        var r1 := if data.aliases.Some? then CheckAliases(norm, g1, loc.user, data.aliases.value, Some(id)) else Ok(());
        if r1.Err? then (g1, r1)
        else
          (With(g1, i, loc1.(aliases := data.aliases.GetOr(loc.aliases), place := data.place.GetOr(loc.place),
                             enabled := data.enabled.GetOr(loc.enabled))),
           Ok(()))
  }

  function Switched(g: Registry, id: int, enabled: bool): (Registry, Result<(), Error>) {
    match FindId(g.rows, id)
    case None => (g, Err(NotFound))
    case Some(i) => (With(g, i, g.rows[i].(enabled := enabled)), Ok(()))
  }

  function Deleted(g: Registry, id: int): Registry {
    match FindId(g.rows, id)
    case None => g
    case Some(i) => g.(rows := g.rows[..i] + g.rows[i + 1..])
  }

  // ---- Lookup -----------------------------------------------------------------------

  predicate IsNamed(norm: Norm, loc: Location, user: int, q: string) {
    Rival(loc, user, None) && norm(loc.name) == q
  }

  predicate HasAlias(norm: Norm, loc: Location, user: int, q: string) {
    Rival(loc, user, None) && exists k :: 0 <= k < |loc.aliases| && norm(loc.aliases[k]) == q
  }

  function FirstNamed(norm: Norm, rows: seq<Location>, user: int, q: string, i: nat := 0): (r: Option<Location>)
    requires i <= |rows|
    ensures r.Some? ==> r.value in rows && IsNamed(norm, r.value, user, q)
    ensures r.None? ==> forall k :: i <= k < |rows| ==> !IsNamed(norm, rows[k], user, q)
    decreases |rows| - i
  {
    if i == |rows| then None
    else if IsNamed(norm, rows[i], user, q) then Some(rows[i])
    else FirstNamed(norm, rows, user, q, i + 1)
  }

  function FirstAliased(norm: Norm, rows: seq<Location>, user: int, q: string, i: nat := 0): (r: Option<Location>)
    requires i <= |rows|
    ensures r.Some? ==> r.value in rows && HasAlias(norm, r.value, user, q)
    ensures r.None? ==> forall k :: i <= k < |rows| ==> !HasAlias(norm, rows[k], user, q)
    decreases |rows| - i
  {
    if i == |rows| then None
    else if HasAlias(norm, rows[i], user, q) then Some(rows[i])
    else FirstAliased(norm, rows, user, q, i + 1)
  }

  /** `resolve_location`: names first, then aliases, in whatever order the rows come. */
  function Resolve(norm: Norm, rows: seq<Location>, user: int, query: string): Option<Location> {
    var named := FirstNamed(norm, rows, user, norm(query));
    if named.Some? then named else FirstAliased(norm, rows, user, norm(query))
  }

  // ---- The service ------------------------------------------------------------------

  class LocationService {
    const norm: Norm
    var rows: seq<Location>
    var nextId: int

    constructor (norm: Norm)
      ensures this.norm == norm && Snapshot() == Registry([], 1)
    {
      this.norm := norm;
      rows, nextId := [], 1;
    }

    function Snapshot(): Registry
      reads this
    {
      Registry(rows, nextId)
    }

    method CheckNameConflict(user: int, name: string, exclude: Option<int>) returns (r: Result<(), Error>)
      ensures r == CheckName(norm, Snapshot(), user, name, exclude)
    {
      var i := 0;
      while i < |rows|
        invariant i <= |rows|
        invariant NameConflict(norm, rows, user, name, exclude) == NameConflict(norm, rows, user, name, exclude, i)
      {
        if rows[i].user == user && rows[i].enabled {
          if !(exclude.Some? && rows[i].id == exclude.value) && norm(rows[i].name) == norm(name) {
            return Err(NameTaken(name, rows[i].id));
          }
        }
        i := i + 1;
      }
      r := Ok(());
    }

    /** The inner loop of the alias check: the first alias of one location that `aliases` repeats. */
    method FirstSharedAlias(aliases: seq<string>, existing: seq<string>) returns (r: Option<string>)
      ensures r == SharedAlias(norm, aliases, existing)
    {
      var k := 0;
      while k < |existing|
        invariant k <= |existing|
        invariant SharedAlias(norm, aliases, existing) == SharedAlias(norm, aliases, existing, k)
      {
        r := Reading(norm, aliases, norm(existing[k]));
        if r.Some? {
          return;
        }
        k := k + 1;
      }
      r := None;
    }

    method CheckAliasConflicts(user: int, aliases: seq<string>, exclude: Option<int>) returns (r: Result<(), Error>)
      ensures r == CheckAliases(norm, Snapshot(), user, aliases, exclude)
    {
      hide Reading, SharedAlias;
      var i := 0;
      while i < |rows|
        invariant i <= |rows|
        invariant AliasConflict(norm, rows, user, aliases, exclude) == AliasConflict(norm, rows, user, aliases, exclude, i)
      {
        var loc := rows[i];
        if loc.user == user && loc.enabled && !(exclude.Some? && loc.id == exclude.value) {
          var clash := Reading(norm, aliases, norm(loc.name));
          if clash.None? {
            clash := FirstSharedAlias(aliases, loc.aliases);
          }
          if clash.Some? {
            return Err(AliasTaken(clash.value, loc.id));
          }
        }
        i := i + 1;
      }
      r := Ok(());
    }

    method CreateLocation(user: int, name: string, aliases: seq<string>, place: Place) returns (r: Result<(), Error>)
      modifies this
      ensures (Snapshot(), r) == Created(norm, old(Snapshot()), user, name, aliases, place)
    {
      r := CheckNameConflict(user, name, None);
      if r.Err? {
        return;
      }
      r := CheckAliasConflicts(user, aliases, None);
      if r.Err? {
        return;
      }
      rows := rows + [Location(nextId, user, name, aliases, place, true)];
      nextId := nextId + 1;
    }

    /** The columns an update writes once its checks have passed. */
    method SetColumns(i: nat, data: Update)
      requires i < |rows|
      modifies this`rows
      ensures rows == old(rows)[i := old(rows[i]).(aliases := data.aliases.GetOr(old(rows[i]).aliases),
                                                   place := data.place.GetOr(old(rows[i]).place),
                                                   enabled := data.enabled.GetOr(old(rows[i]).enabled))]
    {
      if data.aliases.Some? {
        rows := rows[i := rows[i].(aliases := data.aliases.value)];
      }
      if data.place.Some? {
        rows := rows[i := rows[i].(place := data.place.value)];
      }
      if data.enabled.Some? {
        rows := rows[i := rows[i].(enabled := data.enabled.value)];
      }
    }

    method UpdateLocation(id: int, data: Update) returns (r: Result<(), Error>)
      modifies this
      ensures (Snapshot(), r) == Updated(norm, old(Snapshot()), id, data)
    {
      var found := FindId(rows, id);
      if found.None? {
        return Err(NotFound);
      }
      hide CheckName, CheckAliases, FindId;
      var i := found.value;
      if data.name.Some? {
        r := CheckNameConflict(rows[i].user, data.name.value, Some(id));
        if r.Err? {
          return;
        }
        rows := rows[i := rows[i].(name := data.name.value)];
      }
      assert Snapshot() == With(old(Snapshot()), i, rows[i]);
      if data.aliases.Some? {
        r := CheckAliasConflicts(rows[i].user, data.aliases.value, Some(id));
        if r.Err? {
          return;
        }
      }
      SetColumns(i, data);
      r := Ok(());
    }

    method DisableLocation(id: int) returns (r: Result<(), Error>)
      modifies this
      ensures (Snapshot(), r) == Switched(old(Snapshot()), id, false)
    {
      var found := FindId(rows, id);
      if found.None? {
        return Err(NotFound);
      }
      rows := rows[found.value := rows[found.value].(enabled := false)];
      r := Ok(());
    }

    method EnableLocation(id: int) returns (r: Result<(), Error>)
      modifies this
      ensures (Snapshot(), r) == Switched(old(Snapshot()), id, true)
    {
      var found := FindId(rows, id);
      if found.None? {
        return Err(NotFound);
      }
      rows := rows[found.value := rows[found.value].(enabled := true)];
      r := Ok(());
    }

    method DeleteLocation(id: int) returns (deleted: bool)
      modifies this
      ensures Snapshot() == Deleted(old(Snapshot()), id)
      ensures deleted <==> FindId(old(rows), id).Some?
    {
      var found := FindId(rows, id);
      if found.None? {
        return false;
      }
      rows := rows[..found.value] + rows[found.value + 1..];
      deleted := true;
    }

    method ResolveLocation(query: string, user: int) returns (r: Option<Location>)
      ensures r == Resolve(norm, rows, user, query)
    {
      var q := norm(query);
      var i := 0;
      while i < |rows|
        invariant i <= |rows|
        invariant FirstNamed(norm, rows, user, q) == FirstNamed(norm, rows, user, q, i)
      {
        if rows[i].user == user && rows[i].enabled && norm(rows[i].name) == q {
          return Some(rows[i]);
        }
        i := i + 1;
      }
      i := 0;
      while i < |rows|
        invariant i <= |rows|
        invariant FirstAliased(norm, rows, user, q) == FirstAliased(norm, rows, user, q, i)
      {
        if rows[i].user == user && rows[i].enabled {
          var k := 0;
          while k < |rows[i].aliases|
            invariant k <= |rows[i].aliases|
            invariant forall m :: 0 <= m < k ==> norm(rows[i].aliases[m]) != q
          {
            if norm(rows[i].aliases[k]) == q {
              assert HasAlias(norm, rows[i], user, q);
              return Some(rows[i]);
            }
            k := k + 1;
          }
        }
        i := i + 1;
      }
      r := None;
    }
  }
}
