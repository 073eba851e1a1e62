/** What the location registry keeps, and why its lookup does not depend on row order. */
module LocationLaws {
  import opened Wrappers
  import opened Locations

  // ---- Invariant --------------------------------------------------------------------

  ghost predicate SharesAlias(norm: Norm, a: seq<string>, b: seq<string>) {
    exists i, j :: 0 <= i < |a| && 0 <= j < |b| && norm(a[i]) == norm(b[j])
  }

  /** Two enabled locations of one user that a lookup could confuse. */
  ghost predicate Confusable(norm: Norm, a: Location, b: Location) {
    && a.user == b.user && a.enabled && b.enabled
    && (norm(a.name) == norm(b.name) || SharesAlias(norm, a.aliases, b.aliases))
  }

  ghost predicate Distinct(norm: Norm, rows: seq<Location>) {
    forall i, j :: 0 <= i < j < |rows| ==> !Confusable(norm, rows[i], rows[j])
  }

  ghost predicate Sound(g: Registry) {
    && (forall i :: 0 <= i < |g.rows| ==> g.rows[i].id < g.nextId)
    && (forall i, j :: 0 <= i < j < |g.rows| ==> g.rows[i].id != g.rows[j].id)
  }

  lemma ConfusableSymmetric(norm: Norm, a: Location, b: Location)
    requires Confusable(norm, a, b)
    ensures Confusable(norm, b, a)
  {
  }

  // ---- What the checks accept -------------------------------------------------------

  /** The name check accepts exactly a name no other enabled location of the user has. */
  lemma NameCheckExact(norm: Norm, g: Registry, user: int, name: string, exclude: Option<int>)
    ensures var r := CheckName(norm, g, user, name, exclude);
            && (r.Ok? <==>
                forall loc :: loc in g.rows && loc.user == user && loc.enabled && exclude != Some(loc.id) ==>
                  norm(loc.name) != norm(name))
            && (r.Err? ==> exists loc :: loc in g.rows && loc.user == user && loc.enabled && exclude != Some(loc.id)
                             && norm(loc.name) == norm(name) && r.error == NameTaken(name, loc.id))
  {
    var found := NameConflict(norm, g.rows, user, name, exclude);
    if found.Some? {
      assert g.rows[found.value] in g.rows;
    }
  }

  /** The alias names the location or repeats one of its aliases, as normalised texts. */
  ghost predicate Clashes(norm: Norm, alias: string, loc: Location) {
    norm(alias) == norm(loc.name) || exists k :: 0 <= k < |loc.aliases| && norm(alias) == norm(loc.aliases[k])
  }

  lemma AliasClashMeaning(norm: Norm, aliases: seq<string>, loc: Location)
    ensures AliasClash(norm, aliases, loc).None? <==> forall alias :: alias in aliases ==> !Clashes(norm, alias, loc)
    ensures AliasClash(norm, aliases, loc).Some? ==>
              AliasClash(norm, aliases, loc).value in aliases && Clashes(norm, AliasClash(norm, aliases, loc).value, loc)
  {
    SharedAliasAt(norm, aliases, loc.aliases, 0);
    if alias :| alias in aliases && Clashes(norm, alias, loc) {
      var i :| 0 <= i < |aliases| && aliases[i] == alias;
      if norm(alias) != norm(loc.name) {
        var k :| 0 <= k < |loc.aliases| && norm(alias) == norm(loc.aliases[k]);
        assert norm(aliases[i]) == norm(loc.aliases[k]);
        assert Reading(norm, aliases, norm(loc.aliases[k])).Some?;
      }
    }
  }

  lemma {:induction false} SharedAliasAt(norm: Norm, aliases: seq<string>, existing: seq<string>, i: nat)
    requires i <= |existing|
    ensures var r := SharedAlias(norm, aliases, existing, i);
            r.Some? ==> r.value in aliases && exists k :: i <= k < |existing| && norm(r.value) == norm(existing[k])
    decreases |existing| - i
  {
    if i < |existing| {
      SharedAliasAt(norm, aliases, existing, i + 1);
    }
  }

  /** The alias check accepts exactly aliases that neither name nor repeat an alias of another enabled location of the user. */
  lemma AliasCheckExact(norm: Norm, g: Registry, user: int, aliases: seq<string>, exclude: Option<int>)
    ensures var r := CheckAliases(norm, g, user, aliases, exclude);
            && (r.Ok? <==>
                forall loc, alias ::
                  loc in g.rows && loc.user == user && loc.enabled && exclude != Some(loc.id) && alias in aliases ==>
                    !Clashes(norm, alias, loc))
            && (r.Err? ==> exists loc, alias :: loc in g.rows && loc.user == user && loc.enabled && exclude != Some(loc.id)
                             && alias in aliases && Clashes(norm, alias, loc) && r.error == AliasTaken(alias, loc.id))
  {
    hide Clashes, AliasClash;
    forall loc ensures AliasClash(norm, aliases, loc).None? <==> forall alias :: alias in aliases ==> !Clashes(norm, alias, loc) {
      AliasClashMeaning(norm, aliases, loc);
    }
    AliasConflictAt(norm, g.rows, user, aliases, exclude, 0);
  }

  lemma {:induction false} AliasConflictAt(norm: Norm, rows: seq<Location>, user: int, aliases: seq<string>,
                                           exclude: Option<int>, i: nat)
    requires i <= |rows|
    ensures var r := AliasConflict(norm, rows, user, aliases, exclude, i);
            r.Some? ==> exists loc :: loc in rows && Rival(loc, user, exclude) && r.value.1 == loc.id
                          && r.value.0 in aliases && Clashes(norm, r.value.0, loc)
    decreases |rows| - i
  {
    hide Clashes, AliasClash;
    if i < |rows| {
      AliasClashMeaning(norm, aliases, rows[i]);
      AliasConflictAt(norm, rows, user, aliases, exclude, i + 1);
    }
  }

  // ---- What the operations do -------------------------------------------------------

  /** A create appends one enabled location with the given columns, or says what it clashes with and changes nothing. */
  lemma CreatedLocation(norm: Norm, g: Registry, user: int, name: string, aliases: seq<string>, place: Place)
    ensures var (g', r) := Created(norm, g, user, name, aliases, place);
            var named, aliased := CheckName(norm, g, user, name, None), CheckAliases(norm, g, user, aliases, None);
            if named.Err? then r == named && g' == g
            else if aliased.Err? then r == aliased && g' == g
            else r.Ok? && g' == Registry(g.rows + [Location(g.nextId, user, name, aliases, place, true)], g.nextId + 1)
  {
  }

  /** The row has these columns now, and no other row differs. */
  ghost predicate RowIs(g: Registry, g': Registry, i: nat, loc: Location) {
    i < |g.rows| && g' == g.(rows := g.rows[i := loc])
  }

  /**
    An update sets the given columns of the row with this key; a taken name changes nothing, a
    taken alias changes only the name, and without such a row nothing happens.
   */
  lemma UpdatedLocation(norm: Norm, g: Registry, id: int, data: Update, i: nat)
    requires Sound(g)
    ensures (forall k :: 0 <= k < |g.rows| ==> g.rows[k].id != id) ==> Updated(norm, g, id, data) == (g, Err(NotFound))
    ensures i < |g.rows| && g.rows[i].id == id ==>
              var loc, (g', r) := g.rows[i], Updated(norm, g, id, data);
              var name := if data.name.Some? then data.name.value else loc.name;
              var renamed := g.(rows := g.rows[i := loc.(name := name)]);
              if data.name.Some? && CheckName(norm, g, loc.user, name, Some(id)).Err? then
                r == CheckName(norm, g, loc.user, name, Some(id)) && g' == g
              else if data.aliases.Some? && CheckAliases(norm, renamed, loc.user, data.aliases.value, Some(id)).Err? then
                r == CheckAliases(norm, renamed, loc.user, data.aliases.value, Some(id)) && g' == renamed
              else
                r.Ok? && RowIs(g, g', i, Location(id, loc.user, name,
                                                  if data.aliases.Some? then data.aliases.value else loc.aliases,
                                                  if data.place.Some? then data.place.value else loc.place,
                                                  if data.enabled.Some? then data.enabled.value else loc.enabled))
  {
    hide CheckName, CheckAliases;
    if i < |g.rows| && g.rows[i].id == id {
      assert FindId(g.rows, id) == Some(i);
      assert data.name.None? ==> g.rows[i := g.rows[i]] == g.rows;
    }
  }

  /** Switching and deleting touch the row with this key only, and without one nothing. */
  lemma SwitchedOrDeleted(g: Registry, id: int, enabled: bool, i: nat)
    requires Sound(g)
    ensures (forall k :: 0 <= k < |g.rows| ==> g.rows[k].id != id) ==>
              Switched(g, id, enabled) == (g, Err(NotFound)) && Deleted(g, id) == g
    ensures i < |g.rows| && g.rows[i].id == id ==>
              && Switched(g, id, enabled).1.Ok?
              && RowIs(g, Switched(g, id, enabled).0, i, g.rows[i].(enabled := enabled))
              && Deleted(g, id) == g.(rows := g.rows[..i] + g.rows[i + 1..])
  {
    if i < |g.rows| && g.rows[i].id == id {
      assert FindId(g.rows, id) == Some(i);
    }
  }

  // ---- Operations keep it -----------------------------------------------------------

  lemma NoClashNoShare(norm: Norm, aliases: seq<string>, loc: Location)
    requires AliasClash(norm, aliases, loc).None?
    ensures !SharesAlias(norm, loc.aliases, aliases)
  {
    forall i, j | 0 <= i < |loc.aliases| && 0 <= j < |aliases| ensures norm(loc.aliases[i]) != norm(aliases[j]) {
      assert Reading(norm, aliases, norm(loc.aliases[i])).None?;
    }
  }

  lemma CreateKeepsDistinct(norm: Norm, g: Registry, user: int, name: string, aliases: seq<string>, place: Place)
    requires Sound(g) && Distinct(norm, g.rows)
    ensures var (g', r) := Created(norm, g, user, name, aliases, place);
            Sound(g') && Distinct(norm, g'.rows)
  {
    hide SharesAlias, AliasClash, NameConflict;
    var (g', r) := Created(norm, g, user, name, aliases, place);
    if r.Ok? {
      var n := |g.rows|;
      forall i | 0 <= i < n ensures !Confusable(norm, g'.rows[i], g'.rows[n]) {
        if Rival(g.rows[i], user, None) {
          NoClashNoShare(norm, aliases, g.rows[i]);
        }
      }
    }
  }

  /** The row at `i` is replaced by one that is not confusable with any other. */
  lemma ReplaceKeepsDistinct(norm: Norm, g: Registry, i: nat, loc: Location)
    requires Sound(g) && Distinct(norm, g.rows) && i < |g.rows| && loc.id == g.rows[i].id
    requires forall k :: 0 <= k < |g.rows| && k != i ==> !Confusable(norm, g.rows[k], loc)
    ensures Sound(With(g, i, loc)) && Distinct(norm, With(g, i, loc).rows)
  {
    hide Confusable;
    var rows := With(g, i, loc).rows;
    forall a, b | 0 <= a < b < |rows| ensures !Confusable(norm, rows[a], rows[b]) {
      if a == i && Confusable(norm, loc, g.rows[b]) {
        ConfusableSymmetric(norm, loc, g.rows[b]);
      }
    }
  }

  lemma OthersAreRivals(g: Registry, i: nat, k: nat, user: int)
    requires Sound(g) && i < |g.rows| && k < |g.rows| && k != i
    ensures Rival(g.rows[k], user, Some(g.rows[i].id)) <==> g.rows[k].user == user && g.rows[k].enabled
  {
  }

  /** Before the update the row was not confusable with `other`; a checked new name keeps it so. */
  lemma RenameKeepsApart(norm: Norm, other: Location, loc: Location, name: string)
    requires !Confusable(norm, other, loc)
    requires other.user == loc.user && other.enabled ==> norm(other.name) != norm(name)
    ensures !Confusable(norm, other, loc.(name := name))
  {
  }

  lemma NotConfusableNow(norm: Norm, rows: seq<Location>, i: nat, k: nat)
    requires Distinct(norm, rows) && i < |rows| && k < |rows| && k != i
    ensures !Confusable(norm, rows[k], rows[i])
  {
    hide Confusable;
    if k > i && Confusable(norm, rows[k], rows[i]) {
      ConfusableSymmetric(norm, rows[k], rows[i]);
    }
  }

  lemma RenamedKeepsDistinct(norm: Norm, g: Registry, i: nat, name: string)
    requires Sound(g) && Distinct(norm, g.rows) && i < |g.rows|
    requires CheckName(norm, g, g.rows[i].user, name, Some(g.rows[i].id)).Ok?
    ensures Sound(With(g, i, g.rows[i].(name := name))) && Distinct(norm, With(g, i, g.rows[i].(name := name)).rows)
  {
    hide Confusable;
    forall k | 0 <= k < |g.rows| && k != i ensures !Confusable(norm, g.rows[k], g.rows[i].(name := name)) {
      NotConfusableNow(norm, g.rows, i, k);
      OthersAreRivals(g, i, k, g.rows[i].user);
      RenameKeepsApart(norm, g.rows[k], g.rows[i], name);
    }
    ReplaceKeepsDistinct(norm, g, i, g.rows[i].(name := name));
  }

  /** New aliases, place and switch of a row; a disabled row stays disabled. */
  lemma RealiasedKeepsDistinct(norm: Norm, g: Registry, i: nat, aliases: seq<string>, place: Place, enabled: bool)
    requires Sound(g) && Distinct(norm, g.rows) && i < |g.rows|
    requires enabled ==> g.rows[i].enabled
    requires aliases == g.rows[i].aliases
             || CheckAliases(norm, g, g.rows[i].user, aliases, Some(g.rows[i].id)).Ok?
    ensures var loc := g.rows[i].(aliases := aliases, place := place, enabled := enabled);
            Sound(With(g, i, loc)) && Distinct(norm, With(g, i, loc).rows)
  {
    hide SharesAlias, AliasClash;
    var loc := g.rows[i].(aliases := aliases, place := place, enabled := enabled);
    forall k | 0 <= k < |g.rows| && k != i ensures !Confusable(norm, g.rows[k], loc) {
      NotConfusableNow(norm, g.rows, i, k);
      OthersAreRivals(g, i, k, loc.user);
      if aliases != g.rows[i].aliases && Rival(g.rows[k], loc.user, Some(loc.id)) {
        NoClashNoShare(norm, aliases, g.rows[k]);
      }
    }
    ReplaceKeepsDistinct(norm, g, i, loc);
  }

  /** An update keeps the invariant, also when it is rejected after having changed the name. */
  lemma UpdateKeepsDistinct(norm: Norm, g: Registry, id: int, data: Update)
    requires Sound(g) && Distinct(norm, g.rows)
    requires data.enabled == Some(true) ==>
               forall i :: 0 <= i < |g.rows| && g.rows[i].id == id ==> g.rows[i].enabled
    ensures var (g', r) := Updated(norm, g, id, data);
            Sound(g') && Distinct(norm, g'.rows)
  {
    hide Sound, Distinct, CheckName, CheckAliases;
    var found := FindId(g.rows, id);
    if found.Some? {
      var i := found.value;
      var loc := g.rows[i];
      var g1 := g;
      var named := data.name.None? || CheckName(norm, g, loc.user, data.name.value, Some(id)).Ok?;
      if named {
        if data.name.Some? {
          RenamedKeepsDistinct(norm, g, i, data.name.value);
          g1 := With(g, i, loc.(name := data.name.value));
        } else {
          assert g == With(g, i, loc);
        }
        if data.aliases.None? || CheckAliases(norm, g1, loc.user, data.aliases.value, Some(id)).Ok? {
          RealiasedKeepsDistinct(norm, g1, i, data.aliases.GetOr(loc.aliases), data.place.GetOr(loc.place),
                                 data.enabled.GetOr(loc.enabled));
        }
      }
    }
  }

  lemma DisableKeepsDistinct(norm: Norm, g: Registry, id: int)
    requires Sound(g) && Distinct(norm, g.rows)
    ensures Sound(Switched(g, id, false).0) && Distinct(norm, Switched(g, id, false).0.rows)
  {
    hide Confusable;
    var found := FindId(g.rows, id);
    if found.Some? {
      var off := g.rows[found.value].(enabled := false);
      forall k | 0 <= k < |g.rows| ensures !Confusable(norm, g.rows[k], off) {
        DisabledIsApart(norm, g.rows[k], off);
      }
      ReplaceKeepsDistinct(norm, g, found.value, off);
    }
  }

  lemma DisabledIsApart(norm: Norm, a: Location, b: Location)
    requires !b.enabled
    ensures !Confusable(norm, a, b)
  {
  }

  lemma DeleteKeepsDistinct(norm: Norm, g: Registry, id: int)
    requires Sound(g) && Distinct(norm, g.rows)
    ensures Sound(Deleted(g, id)) && Distinct(norm, Deleted(g, id).rows)
  {
    hide Confusable;
    var found := FindId(g.rows, id);
    if found.Some? {
      var i, rows := found.value, Deleted(g, id).rows;
      assert forall k :: 0 <= k < |rows| ==> rows[k] == g.rows[if k < i then k else k + 1];
    }
  }

  // ---- Runs -------------------------------------------------------------------------

  datatype Step =
    | Create(user: int, name: string, aliases: seq<string>, place: Place)
    | Change(id: int, data: Update)
    | Disable(id: int)
    | Enable(id: int)
    | Delete(id: int)

  function Act(norm: Norm, g: Registry, step: Step): Registry {
    match step
    case Create(user, name, aliases, place) => Created(norm, g, user, name, aliases, place).0
    case Change(id, data) => Updated(norm, g, id, data).0
    case Disable(id) => Switched(g, id, false).0
    case Enable(id) => Switched(g, id, true).0
    case Delete(id) => Deleted(g, id)
  }

  /** This step switches a disabled location on again. */
  ghost predicate Reenables(g: Registry, step: Step) {
    && (step.Enable? || (step.Change? && step.data.enabled == Some(true)))
    && exists i :: 0 <= i < |g.rows| && g.rows[i].id == step.id && !g.rows[i].enabled
  }

  ghost predicate Run(norm: Norm, gs: seq<Registry>, steps: seq<Step>) {
    && |gs| == |steps| + 1
    && gs[0].rows == []
    && forall i :: 0 <= i < |steps| ==> gs[i + 1] == Act(norm, gs[i], steps[i])
  }

  lemma StepKeepsDistinct(norm: Norm, g: Registry, step: Step)
    requires Sound(g) && Distinct(norm, g.rows) && !Reenables(g, step)
    ensures Sound(Act(norm, g, step)) && Distinct(norm, Act(norm, g, step).rows)
  {
    match step
    case Create(user, name, aliases, place) => CreateKeepsDistinct(norm, g, user, name, aliases, place);
    case Change(id, data) => UpdateKeepsDistinct(norm, g, id, data);
    case Disable(id) => DisableKeepsDistinct(norm, g, id);
    case Delete(id) => DeleteKeepsDistinct(norm, g, id);
    case Enable(id) =>
      var found := FindId(g.rows, id);
      if found.Some? {
        assert With(g, found.value, g.rows[found.value]) == g;
      }
  }

  /**
    In every run without re-enabling, the enabled locations of a user have pairwise different
    normalised names and disjoint normalised aliases.
   */
  lemma {:induction false} EnabledLocationsStayDistinct(norm: Norm, gs: seq<Registry>, steps: seq<Step>, n: nat)
    requires Run(norm, gs, steps) && n < |gs|
    requires forall i :: 0 <= i < |steps| ==> !Reenables(gs[i], steps[i])
    ensures Sound(gs[n]) && Distinct(norm, gs[n].rows)
  {
    if n > 0 {
      hide Act, Reenables, Distinct, Sound;
      EnabledLocationsStayDistinct(norm, gs, steps, n - 1);
      StepKeepsDistinct(norm, gs[n - 1], steps[n - 1]);
    }
  }

  /** No alias of the location repeats an alias of another enabled location of its user. */
  ghost predicate AliasesFree(norm: Norm, g: Registry, loc: Location) {
    forall k :: 0 <= k < |g.rows| && Rival(g.rows[k], loc.user, Some(loc.id)) ==>
      SharedAlias(norm, loc.aliases, g.rows[k].aliases).None?
  }

  lemma SharedAliasMeaning(norm: Norm, aliases: seq<string>, existing: seq<string>)
    ensures SharedAlias(norm, aliases, existing).Some? <==> SharesAlias(norm, existing, aliases)
  {
    if SharesAlias(norm, existing, aliases) {
      var i, j :| 0 <= i < |existing| && 0 <= j < |aliases| && norm(existing[i]) == norm(aliases[j]);
      assert Reading(norm, aliases, norm(existing[i])).Some?;
    }
  }

  lemma ConfusableAsChecked(norm: Norm, g: Registry, i: nat, k: nat)
    requires Sound(g) && i < |g.rows| && k < |g.rows| && k != i
    ensures var loc := g.rows[i];
            Confusable(norm, g.rows[k], loc.(enabled := true)) <==>
              Rival(g.rows[k], loc.user, Some(loc.id))
              && (norm(g.rows[k].name) == norm(loc.name) || SharedAlias(norm, loc.aliases, g.rows[k].aliases).Some?)
  {
    hide SharedAlias, SharesAlias;
    OthersAreRivals(g, i, k, g.rows[i].user);
    SharedAliasMeaning(norm, g.rows[i].aliases, g.rows[k].aliases);
  }

  lemma EnabledFitsIff(norm: Norm, g: Registry, i: nat)
    requires Sound(g) && Distinct(norm, g.rows) && i < |g.rows|
    ensures Distinct(norm, Switched(g, g.rows[i].id, true).0.rows) <==>
              forall k :: 0 <= k < |g.rows| && k != i ==> !Confusable(norm, g.rows[k], g.rows[i].(enabled := true))
  {
    hide Confusable;
    var on := g.rows[i].(enabled := true);
    assert FindId(g.rows, g.rows[i].id) == Some(i);
    var rows := Switched(g, g.rows[i].id, true).0.rows;
    if Distinct(norm, rows) {
      forall k | 0 <= k < |g.rows| && k != i ensures !Confusable(norm, g.rows[k], on) {
        NotConfusableNow(norm, rows, i, k);
      }
    }
    if forall k :: 0 <= k < |g.rows| && k != i ==> !Confusable(norm, g.rows[k], on) {
      ReplaceKeepsDistinct(norm, g, i, on);
    }
  }

  /**
    Re-enabling keeps the invariant exactly when the checks of an update would pass: the name check
    with the location itself excluded, and no alias shared with another enabled location.
   */
  lemma EnableKeepsDistinctIff(norm: Norm, g: Registry, i: nat)
    requires Sound(g) && Distinct(norm, g.rows) && i < |g.rows|
    ensures Distinct(norm, Switched(g, g.rows[i].id, true).0.rows) <==>
              && CheckName(norm, g, g.rows[i].user, g.rows[i].name, Some(g.rows[i].id)).Ok?
              && AliasesFree(norm, g, g.rows[i])
  {
    hide Distinct, Confusable, SharedAlias, NameConflict, Switched;
    var loc := g.rows[i];
    EnabledFitsIff(norm, g, i);
    forall k | 0 <= k < |g.rows| && k != i
      ensures Confusable(norm, g.rows[k], loc.(enabled := true)) <==>
                Rival(g.rows[k], loc.user, Some(loc.id))
                && (norm(g.rows[k].name) == norm(loc.name) || SharedAlias(norm, loc.aliases, g.rows[k].aliases).Some?)
    {
      ConfusableAsChecked(norm, g, i, k);
    }
    assert !Rival(loc, loc.user, Some(loc.id));
  }

  /**
    The failing case is reached: for every user, name and place, a location is created, disabled
    and shadowed by a second one of the same name; re-enabling it makes the two confusable.
   */
  lemma ReenablingRun(norm: Norm, user: int, name: string, place: Place)
    returns (gs: seq<Registry>, steps: seq<Step>)
    ensures Run(norm, gs, steps) && gs[0] == Registry([], 1)
    ensures steps == [Create(user, name, [], place), Disable(1), Create(user, name, [], place), Enable(1)]
    ensures Distinct(norm, gs[3].rows) && !Distinct(norm, gs[4].rows)
  {
    steps := [Create(user, name, [], place), Disable(1), Create(user, name, [], place), Enable(1)];
    var first, second := Location(1, user, name, [], place, true), Location(2, user, name, [], place, true);
    var g0 := Registry([], 1);
    var g1 := Act(norm, g0, steps[0]);
    assert g1 == Registry([first], 2);
    var g2 := Act(norm, g1, steps[1]);
    assert g2 == Registry([first.(enabled := false)], 2);
    var g3 := Act(norm, g2, steps[2]);
    assert g3 == Registry([first.(enabled := false), second], 3);
    var g4 := Act(norm, g3, steps[3]);
    assert g4 == Registry([first, second], 3);
    assert Confusable(norm, g4.rows[0], g4.rows[1]);
    gs := [g0, g1, g2, g3, g4];
  }

  // ---- Lookup -----------------------------------------------------------------------

  /** An enabled location of the user with this name, as normalised texts. */
  ghost predicate CalledSo(norm: Norm, loc: Location, user: int, query: string) {
    loc.user == user && loc.enabled && norm(loc.name) == norm(query)
  }

  ghost predicate AlsoCalledSo(norm: Norm, loc: Location, user: int, query: string) {
    loc.user == user && loc.enabled && exists alias :: alias in loc.aliases && norm(alias) == norm(query)
  }

  lemma HasAliasMeaning(norm: Norm, loc: Location, user: int, query: string)
    ensures HasAlias(norm, loc, user, norm(query)) <==> AlsoCalledSo(norm, loc, user, query)
  {
    if alias :| alias in loc.aliases && norm(alias) == norm(query) {
      var k :| 0 <= k < |loc.aliases| && loc.aliases[k] == alias;
      assert norm(loc.aliases[k]) == norm(query);
    }
  }

  /**
    A lookup answers one of the user's enabled locations: one with that name if there is any,
    otherwise one with that alias if there is any, otherwise nothing.
   */
  lemma ResolveMeaning(norm: Norm, rows: seq<Location>, user: int, query: string)
    ensures var r := Resolve(norm, rows, user, query);
            if exists loc :: loc in rows && CalledSo(norm, loc, user, query) then
              r.Some? && r.value in rows && CalledSo(norm, r.value, user, query)
            else if exists loc :: loc in rows && AlsoCalledSo(norm, loc, user, query) then
              r.Some? && r.value in rows && AlsoCalledSo(norm, r.value, user, query)
            else r.None?
  {
    hide FirstNamed, FirstAliased, HasAlias, AlsoCalledSo;
    forall loc ensures HasAlias(norm, loc, user, norm(query)) <==> AlsoCalledSo(norm, loc, user, query) {
      HasAliasMeaning(norm, loc, user, query);
    }
  }

  lemma SameRow(norm: Norm, rows: seq<Location>, a: Location, b: Location)
    requires Distinct(norm, rows) && a in rows && b in rows
    requires Confusable(norm, a, b)
    ensures a == b
  {
    hide Confusable;
    var i :| 0 <= i < |rows| && rows[i] == a;
    var j :| 0 <= j < |rows| && rows[j] == b;
    ConfusableSymmetric(norm, a, b);
  }

  lemma AliasShared(norm: Norm, a: Location, b: Location, user: int, q: string)
    requires HasAlias(norm, a, user, q) && HasAlias(norm, b, user, q)
    ensures Confusable(norm, a, b)
  {
    var i :| 0 <= i < |a.aliases| && norm(a.aliases[i]) == q;
    var j :| 0 <= j < |b.aliases| && norm(b.aliases[j]) == q;
    assert norm(a.aliases[i]) == norm(b.aliases[j]);
  }

  lemma FirstNamedAnyOrder(norm: Norm, rows: seq<Location>, rows': seq<Location>, user: int, q: string)
    requires Distinct(norm, rows) && multiset(rows) == multiset(rows')
    ensures FirstNamed(norm, rows, user, q) == FirstNamed(norm, rows', user, q)
  {
    hide FirstNamed, Distinct;
    SameMembers(rows, rows');
    var a, b := FirstNamed(norm, rows, user, q), FirstNamed(norm, rows', user, q);
    if a.Some? && b.Some? {
      SameRow(norm, rows, a.value, b.value);
    }
  }

  lemma FirstAliasedAnyOrder(norm: Norm, rows: seq<Location>, rows': seq<Location>, user: int, q: string)
    requires Distinct(norm, rows) && multiset(rows) == multiset(rows')
    ensures FirstAliased(norm, rows, user, q) == FirstAliased(norm, rows', user, q)
  {
    hide FirstAliased, Distinct, HasAlias, Confusable;
    SameMembers(rows, rows');
    var a, b := FirstAliased(norm, rows, user, q), FirstAliased(norm, rows', user, q);
    if a.Some? && b.Some? {
      AliasShared(norm, a.value, b.value, user, q);
      SameRow(norm, rows, a.value, b.value);
    }
  }

  lemma SameMembers(rows: seq<Location>, rows': seq<Location>)
    requires multiset(rows) == multiset(rows')
    ensures forall loc :: loc in rows <==> loc in rows'
    ensures forall k :: 0 <= k < |rows| ==> rows[k] in rows'
    ensures forall k :: 0 <= k < |rows'| ==> rows'[k] in rows
  {
    assert forall loc :: loc in rows <==> loc in multiset(rows);
    assert forall loc :: loc in rows' <==> loc in multiset(rows');
  }

  /** Under the invariant the lookup answers the same for every order of the rows. */
  lemma ResolveIgnoresRowOrder(norm: Norm, rows: seq<Location>, rows': seq<Location>, user: int, query: string)
    requires Distinct(norm, rows) && multiset(rows) == multiset(rows')
    ensures Resolve(norm, rows, user, query) == Resolve(norm, rows', user, query)
  {
    hide FirstNamed, FirstAliased;
    FirstNamedAnyOrder(norm, rows, rows', user, norm(query));
    FirstAliasedAnyOrder(norm, rows, rows', user, norm(query));
  }

  /** In every run without re-enabling, lookups are well defined whatever order the database picks. */
  lemma LookupsAreDeterministic(norm: Norm, gs: seq<Registry>, steps: seq<Step>, n: nat,
                                order: seq<Location>, user: int, query: string)
    requires Run(norm, gs, steps) && n < |gs| && multiset(order) == multiset(gs[n].rows)
    requires forall i :: 0 <= i < |steps| ==> !Reenables(gs[i], steps[i])
    ensures Resolve(norm, order, user, query) == Resolve(norm, gs[n].rows, user, query)
  {
    hide Act, Reenables, Resolve, Distinct;
    EnabledLocationsStayDistinct(norm, gs, steps, n);
    ResolveIgnoresRowOrder(norm, gs[n].rows, order, user, query);
  }

  /**
    What a successful create does to lookups: the new name now means the new location, even
    where it was an alias of another one, since names are not checked against aliases; the new
    aliases mean the new location only where nothing answered before; all else is as before.
   */
  lemma CreateResolves(norm: Norm, g: Registry, user: int, name: string, aliases: seq<string>, place: Place, query: string)
    requires Created(norm, g, user, name, aliases, place).1.Ok?
    ensures var rows' := Created(norm, g, user, name, aliases, place).0.rows;
            var loc := Location(g.nextId, user, name, aliases, place, true);
            var before := Resolve(norm, g.rows, user, query);
            Resolve(norm, rows', user, query)
            == if norm(query) == norm(name) then Some(loc)
               else if before.Some? then before
               else if HasAlias(norm, loc, user, norm(query)) then Some(loc)
               else None
  {
    hide HasAlias, AliasConflict;
    var loc := Location(g.nextId, user, name, aliases, place, true);
    FirstNamedSnoc(norm, g.rows, loc, user, norm(query), 0);
    FirstAliasedSnoc(norm, g.rows, loc, user, norm(query), 0);
  }

  lemma {:induction false} FirstNamedSnoc(norm: Norm, rows: seq<Location>, loc: Location, user: int, q: string, i: nat)
    requires i <= |rows|
    ensures FirstNamed(norm, rows + [loc], user, q, i)
            == if FirstNamed(norm, rows, user, q, i).Some? then FirstNamed(norm, rows, user, q, i)
               else if IsNamed(norm, loc, user, q) then Some(loc) else None
    decreases |rows| - i
  {
    if i < |rows| {
      FirstNamedSnoc(norm, rows, loc, user, q, i + 1);
    } else {
      assert FirstNamed(norm, rows + [loc], user, q, i + 1).None?;
    }
  }

  lemma {:induction false} FirstAliasedSnoc(norm: Norm, rows: seq<Location>, loc: Location, user: int, q: string, i: nat)
    requires i <= |rows|
    ensures FirstAliased(norm, rows + [loc], user, q, i)
            == if FirstAliased(norm, rows, user, q, i).Some? then FirstAliased(norm, rows, user, q, i)
               else if HasAlias(norm, loc, user, q) then Some(loc) else None
    decreases |rows| - i
  {
    if i < |rows| {
      FirstAliasedSnoc(norm, rows, loc, user, q, i + 1);
    } else {
      assert FirstAliased(norm, rows + [loc], user, q, i + 1).None?;
    }
  }
}
