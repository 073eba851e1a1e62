/**
  The notification rule service (domain/rules/service.py), as far as the chat tools use it.
  Expression validation and the random short ids are given by the caller of each operation.
 */
module RuleService {
  import opened Wrappers
  import Rules

  /** A row with the columns the chat tools see beside those of `Rule`. */
  datatype Row = Row(rule: Rules.Rule, shortId: string, description: string)

  /** Rows in primary-key order, and the key the next insert gets. */
  datatype RuleTable = RuleTable(rows: seq<Row>, nextId: int)

  datatype RuleCreate = RuleCreate(
    chat: int, thread: Option<int>, location: int, expression: string,
    schedule: Option<string>, cooldownMinutes: int, enabled: bool, dryRun: bool,
    fingerprint: string, description: string
  )

  /** The new values of an update; a missing one leaves the column as it is. */
  datatype RuleUpdate = RuleUpdate(
    chat: Option<int>, thread: Option<int>, location: Option<int>, expression: Option<string>,
    schedule: Option<string>, cooldownMinutes: Option<int>, enabled: Option<bool>, dryRun: Option<bool>,
    fingerprint: Option<string>, description: Option<string>
  )

  datatype Error = InvalidExpression | ShortIdCollision | RuleNotFound

  const MAX_COLLISION_RETRIES: nat := 10
  const DEFAULT_COOLDOWN: int := 60

  // ---- Row searches -----------------------------------------------------------------

  predicate InUse(rows: seq<Row>, shortId: string) {
    exists i :: 0 <= i < |rows| && rows[i].shortId == shortId
  }

  function StripHash(s: string): string {
    if |s| > 0 && s[0] == '#' then StripHash(s[1..]) else s
  }

  predicate IsRowOf(row: Row, user: int, shortId: string) {
    row.rule.user == user && row.shortId == shortId
  }

  /** `get_rule_for_user` by short id. */
  function FindForUser(rows: seq<Row>, user: int, shortId: string, i: nat := 0): (r: Option<nat>)
    requires i <= |rows|
    ensures r.Some? ==> i <= r.value < |rows| && IsRowOf(rows[r.value], user, shortId)
    ensures r.None? ==> forall k :: i <= k < |rows| ==> !IsRowOf(rows[k], user, shortId)
    decreases |rows| - i
  {
    if i == |rows| then None
    else if IsRowOf(rows[i], user, shortId) then Some(i)
    else FindForUser(rows, user, shortId, i + 1)
  }

  /** What makes two scheduled notifications the same one. */
  datatype Identity = Identity(
    user: int, chat: int, thread: Option<int>, location: int,
    expression: string, schedule: string, fingerprint: string
  )

  function IdentityOf(r: Rules.Rule): Option<Identity> {
    if r.schedule.None? then None
    else Some(Identity(r.user, r.chat, r.thread, r.location, r.expression, r.schedule.value, r.fingerprint))
  }

  predicate Matches(row: Row, id: Identity) {
    row.rule.enabled && IdentityOf(row.rule) == Some(id)
  }

  /** `find_matching_scheduled_rule`: the first enabled match. */
  function FindMatching(rows: seq<Row>, id: Identity, i: nat := 0): (r: Option<nat>)
    requires i <= |rows|
    ensures r.Some? ==> i <= r.value < |rows| && Matches(rows[r.value], id)
    ensures r.None? ==> forall k :: i <= k < |rows| ==> !Matches(rows[k], id)
    decreases |rows| - i
  {
    if i == |rows| then None
    else if Matches(rows[i], id) then Some(i)
    else FindMatching(rows, id, i + 1)
  }

  function FindId(rows: seq<Row>, id: int, i: nat := 0): (r: Option<nat>)
    requires i <= |rows|
    ensures r.Some? ==> i <= r.value < |rows| && rows[r.value].rule.id == id
    ensures r.None? ==> forall k :: i <= k < |rows| ==> rows[k].rule.id != id
    decreases |rows| - i
  {
    if i == |rows| then None
    else if rows[i].rule.id == id then Some(i)
    else FindId(rows, id, i + 1)
  }

  // ---- Row changes ------------------------------------------------------------------

  /** The first free short id among ten draws. */
  function FreshShortId(rows: seq<Row>, draw: nat -> string, i: nat := 0): Option<string>
    requires i <= MAX_COLLISION_RETRIES
    decreases MAX_COLLISION_RETRIES - i
  {
    if i == MAX_COLLISION_RETRIES then None
    else if !InUse(rows, draw(i)) then Some(draw(i))
    else FreshShortId(rows, draw, i + 1)
  }

  function NewRow(id: int, user: int, data: RuleCreate, shortId: string): Row {
    Row(Rules.Rule(id, user, data.chat, data.thread, data.location, data.expression, data.schedule,
             Some(data.cooldownMinutes), data.enabled, data.dryRun, None, data.fingerprint),
        shortId, data.description)
  }

  function Create(t: RuleTable, user: int, data: RuleCreate, valid: string -> bool, draw: nat -> string):
    Result<RuleTable, Error>
  {
    if !valid(data.expression) then Err(InvalidExpression)
    else match FreshShortId(t.rows, draw)
      case None => Err(ShortIdCollision)
      case Some(shortId) => Ok(RuleTable(t.rows + [NewRow(t.nextId, user, data, shortId)], t.nextId + 1))
  }

  /** An update of expression and description only. */
  function Rewording(expression: string, description: string): RuleUpdate {
    RuleUpdate(None, None, None, Some(expression), None, None, None, None, None, Some(description))
  }

  function Changed(row: Row, data: RuleUpdate): Row {
    var r := row.rule;
    Row(r.(chat := data.chat.GetOr(r.chat),
           thread := if data.thread.Some? then data.thread else r.thread,
           location := data.location.GetOr(r.location),
           expression := data.expression.GetOr(r.expression),
           schedule := if data.schedule.Some? then data.schedule else r.schedule,
           cooldownMinutes := if data.cooldownMinutes.Some? then data.cooldownMinutes else r.cooldownMinutes,
           enabled := data.enabled.GetOr(r.enabled),
           dryRun := data.dryRun.GetOr(r.dryRun),
           fingerprint := data.fingerprint.GetOr(r.fingerprint)),
        row.shortId, data.description.GetOr(row.description))
  }

  function Update(t: RuleTable, id: int, data: RuleUpdate, valid: string -> bool): Result<RuleTable, Error> {
    match FindId(t.rows, id)
    case None => Err(RuleNotFound)
    case Some(i) =>
      if data.expression.Some? && !valid(data.expression.value) then Err(InvalidExpression)
      else Ok(t.(rows := t.rows[i := Changed(t.rows[i], data)]))
  }

  function SwitchOff(t: RuleTable, id: int): Result<RuleTable, Error> {
    match FindId(t.rows, id)
    case None => Err(RuleNotFound)
    case Some(i) => Ok(t.(rows := t.rows[i := t.rows[i].(rule := t.rows[i].rule.(enabled := false))]))
  }

  /** The table after `delete_rule`, which deletes nothing when the rule is gone. */
  function Delete(t: RuleTable, id: int): RuleTable {
    match FindId(t.rows, id)
    case None => t
    case Some(i) => t.(rows := t.rows[..i] + t.rows[i + 1..])
  }

  // ---- The service ------------------------------------------------------------------

  class NotificationRuleService {
    var table: RuleTable

    constructor ()
      ensures table == RuleTable([], 1)
    {
      table := RuleTable([], 1);
    }

    method GenerateUniqueShortId(draw: nat -> string) returns (r: Option<string>)
      ensures r == FreshShortId(table.rows, draw)
    {
      for i := 0 to MAX_COLLISION_RETRIES
        invariant FreshShortId(table.rows, draw) == FreshShortId(table.rows, draw, i)
      {
        if !InUse(table.rows, draw(i)) {
          return Some(draw(i));
        }
      }
      r := None;
    }

    method CreateRule(user: int, data: RuleCreate, valid: string -> bool, draw: nat -> string)
      returns (r: Result<Row, Error>)
      modifies this
      ensures match Create(old(table), user, data, valid, draw)
              case Ok(t) => table == t && r == Ok(t.rows[|t.rows| - 1])
              case Err(e) => table == old(table) && r == Err(e)
    {
      if !valid(data.expression) {
        return Err(InvalidExpression);
      }
      var shortId := GenerateUniqueShortId(draw);
      if shortId.None? {
        return Err(ShortIdCollision);
      }
      var row := NewRow(table.nextId, user, data, shortId.value);
      table := RuleTable(table.rows + [row], table.nextId + 1);
      r := Ok(row);
    }

    method FindMatchingScheduledRule(id: Identity) returns (r: Option<Row>)
      ensures match FindMatching(table.rows, id)
              case Some(i) => r == Some(table.rows[i])
              case None => r.None?
    {
      var i := 0;
      while i < |table.rows|
        invariant i <= |table.rows|
        invariant FindMatching(table.rows, id) == FindMatching(table.rows, id, i)
      {
        if Matches(table.rows[i], id) {
          return Some(table.rows[i]);
        }
        i := i + 1;
      }
      r := None;
    }

    method GetRuleForUser(user: int, shortId: string) returns (r: Option<Row>)
      ensures match FindForUser(table.rows, user, StripHash(shortId))
              case Some(i) => r == Some(table.rows[i])
              case None => r.None?
    {
      var found := FindForUser(table.rows, user, StripHash(shortId));
      r := if found.Some? then Some(table.rows[found.value]) else None;
    }

    /** The assignments of an update, one column at a time. */
    static method SetFields(row: Row, data: RuleUpdate) returns (changed: Row)
      ensures changed == Changed(row, data)
    {
      var r := row.rule;
      var chat, thread, location := r.chat, r.thread, r.location;
      var expression, schedule, cooldownMinutes := r.expression, r.schedule, r.cooldownMinutes;
      var enabled, dryRun, fingerprint, description := r.enabled, r.dryRun, r.fingerprint, row.description;
      if data.chat.Some? { chat := data.chat.value; }
      assert chat == data.chat.GetOr(r.chat);
      if data.thread.Some? { thread := data.thread; }
      assert thread == if data.thread.Some? then data.thread else r.thread;
      if data.location.Some? { location := data.location.value; }
      assert location == data.location.GetOr(r.location);
      if data.expression.Some? { expression := data.expression.value; }
      assert expression == data.expression.GetOr(r.expression);
      if data.schedule.Some? { schedule := data.schedule; }
      assert schedule == if data.schedule.Some? then data.schedule else r.schedule;
      if data.cooldownMinutes.Some? { cooldownMinutes := data.cooldownMinutes; }
      assert cooldownMinutes == if data.cooldownMinutes.Some? then data.cooldownMinutes else r.cooldownMinutes;
      if data.enabled.Some? { enabled := data.enabled.value; }
      assert enabled == data.enabled.GetOr(r.enabled);
      if data.dryRun.Some? { dryRun := data.dryRun.value; }
      assert dryRun == data.dryRun.GetOr(r.dryRun);
      if data.description.Some? { description := data.description.value; }
      assert description == data.description.GetOr(row.description);
      if data.fingerprint.Some? { fingerprint := data.fingerprint.value; }
      assert fingerprint == data.fingerprint.GetOr(r.fingerprint);
      changed := Row(Rules.Rule(r.id, r.user, chat, thread, location, expression, schedule, cooldownMinutes,
                          enabled, dryRun, r.snoozeUntil, fingerprint),
                     row.shortId, description);
    }

    method UpdateRule(id: int, data: RuleUpdate, valid: string -> bool) returns (r: Result<Row, Error>)
      modifies this
      ensures match Update(old(table), id, data, valid)
              case Ok(t) => table == t && FindId(t.rows, id).Some? && r == Ok(t.rows[FindId(t.rows, id).value])
              case Err(e) => table == old(table) && r == Err(e)
    {
      hide Changed;
      var found := FindId(table.rows, id);
      if found.None? {
        return Err(RuleNotFound);
      }
      if data.expression.Some? && !valid(data.expression.value) {
        return Err(InvalidExpression);
      }
      var i := found.value;
      var row := SetFields(table.rows[i], data);
      ChangedKeepsId(table.rows[i], data);
      FoundAgain(table.rows, table.rows[i := row], id, 0);
      table := table.(rows := table.rows[i := row]);
      r := Ok(row);
    }

    method DisableRule(id: int) returns (r: Result<(), Error>)
      modifies this
      ensures match SwitchOff(old(table), id)
              case Ok(t) => table == t && r.Ok?
              case Err(e) => table == old(table) && r == Err(e)
    {
      var found := FindId(table.rows, id);
      if found.None? {
        return Err(RuleNotFound);
      }
      var row := table.rows[found.value];
      table := table.(rows := table.rows[found.value := row.(rule := row.rule.(enabled := false))]);
      r := Ok(());
    }

    method DeleteRule(id: int) returns (deleted: bool)
      modifies this
      ensures deleted <==> FindId(old(table).rows, id).Some?
      ensures table == Delete(old(table), id)
    {
      var found := FindId(table.rows, id);
      if found.None? {
        return false;
      }
      table := table.(rows := table.rows[..found.value] + table.rows[found.value + 1..]);
      deleted := true;
    }
  }

  lemma ChangedKeepsId(row: Row, data: RuleUpdate)
    ensures Changed(row, data).rule.id == row.rule.id && Changed(row, data).shortId == row.shortId
  {
  }

  lemma {:induction false} FoundAgain(rows: seq<Row>, rows': seq<Row>, id: int, i: nat)
    requires |rows| == |rows'| && i <= |rows|
    requires forall k :: 0 <= k < |rows| ==> rows'[k].rule.id == rows[k].rule.id
    ensures FindId(rows', id, i) == FindId(rows, id, i)
    decreases |rows| - i
  {
    if i < |rows| {
      FoundAgain(rows, rows', id, i + 1);
    }
  }

  // ---- What the table keeps ---------------------------------------------------------

  /** Keys grow, short ids are unique. */
  ghost predicate Sound(t: RuleTable) {
    && (forall i :: 0 <= i < |t.rows| ==> t.rows[i].rule.id < t.nextId)
    && (forall i, j :: 0 <= i < j < |t.rows| ==> t.rows[i].rule.id < t.rows[j].rule.id)
    && (forall i, j :: 0 <= i < j < |t.rows| ==> t.rows[i].shortId != t.rows[j].shortId)
  }

  /** The single-row query of `get_rule_for_user` never sees a second row. */
  lemma ShortIdNamesOneRow(t: RuleTable, user: int, shortId: string, k: nat)
    requires Sound(t) && k < |t.rows| && IsRowOf(t.rows[k], user, shortId)
    ensures FindForUser(t.rows, user, shortId) == Some(k)
  {
  }

  lemma {:induction false} FreshIsUnused(rows: seq<Row>, draw: nat -> string, i: nat)
    requires i <= MAX_COLLISION_RETRIES
    ensures FreshShortId(rows, draw, i).Some? ==> !InUse(rows, FreshShortId(rows, draw, i).value)
    ensures FreshShortId(rows, draw, i).None? <==> forall k :: i <= k < MAX_COLLISION_RETRIES ==> InUse(rows, draw(k))
    decreases MAX_COLLISION_RETRIES - i
  {
    if i < MAX_COLLISION_RETRIES {
      FreshIsUnused(rows, draw, i + 1);
    }
  }

  /** The drawn short id is the first of the ten that is not in use. */
  lemma {:induction false} FreshIsTheFirst(rows: seq<Row>, draw: nat -> string, i: nat) returns (k: nat)
    requires i <= MAX_COLLISION_RETRIES && FreshShortId(rows, draw, i).Some?
    ensures i <= k < 10 && FreshShortId(rows, draw, i) == Some(draw(k)) && !InUse(rows, draw(k))
    ensures forall j :: i <= j < k ==> InUse(rows, draw(j))
    decreases MAX_COLLISION_RETRIES - i
  {
    k := i;
    if InUse(rows, draw(i)) {
      k := FreshIsTheFirst(rows, draw, i + 1);
    }
  }

  /**
    A create appends one row of the user with exactly the given columns, not snoozed, under the
    next key and the first unused of ten drawn short ids; it fails exactly when the expression is
    not valid or all ten are in use.
   */
  lemma CreatedRule(t: RuleTable, user: int, data: RuleCreate, valid: string -> bool, draw: nat -> string)
    ensures var r := Create(t, user, data, valid, draw);
            if !valid(data.expression) then r == Err(InvalidExpression)
            else if forall k :: 0 <= k < 10 ==> InUse(t.rows, draw(k)) then r == Err(ShortIdCollision)
            else
              && r.Ok? && |r.value.rows| == |t.rows| + 1 && r.value.rows[..|t.rows|] == t.rows
              && r.value.nextId == t.nextId + 1
              && var row := r.value.rows[|t.rows|];
              && (exists k :: 0 <= k < 10 && row.shortId == draw(k) && !InUse(t.rows, draw(k))
                    && forall j :: 0 <= j < k ==> InUse(t.rows, draw(j)))
              && row.description == data.description
              && row.rule == Rules.Rule(t.nextId, user, data.chat, data.thread, data.location, data.expression,
                                        data.schedule, Some(data.cooldownMinutes), data.enabled, data.dryRun, None,
                                        data.fingerprint)
  {
    hide InUse, FreshShortId;
    FreshIsUnused(t.rows, draw, 0);
    if valid(data.expression) && FreshShortId(t.rows, draw).Some? {
      var k := FreshIsTheFirst(t.rows, draw, 0);
    }
  }

  /** Stripping removes the leading `#` signs, all of them and nothing else. */
  lemma {:induction false} StripHashMeaning(s: string)
    ensures var r := StripHash(s);
            && |r| <= |s| && s[|s| - |r|..] == r
            && (forall i :: 0 <= i < |s| - |r| ==> s[i] == '#')
            && (r != "" ==> r[0] != '#')
  {
    if |s| > 0 && s[0] == '#' {
      StripHashMeaning(s[1..]);
      forall i | 0 <= i < |s| - |StripHash(s)| ensures s[i] == '#' {
        assert i > 0 ==> s[1..][i - 1] == s[i];
      }
    }
  }

  lemma CreateKeepsSound(t: RuleTable, user: int, data: RuleCreate, valid: string -> bool, draw: nat -> string)
    requires Sound(t) && Create(t, user, data, valid, draw).Ok?
    ensures Sound(Create(t, user, data, valid, draw).value)
  {
    FreshIsUnused(t.rows, draw, 0);
  }

  lemma UpdateKeepsSound(t: RuleTable, id: int, data: RuleUpdate, valid: string -> bool)
    requires Sound(t) && Update(t, id, data, valid).Ok?
    ensures Sound(Update(t, id, data, valid).value)
  {
  }

  /** Row `k` is the only one that differs between the tables, if any does. */
  ghost predicate OnlyRow(t: RuleTable, t': RuleTable, k: nat) {
    && |t'.rows| == |t.rows| && t'.nextId == t.nextId
    && forall j :: 0 <= j < |t.rows| && j != k ==> t'.rows[j] == t.rows[j]
  }

  /** Disabling turns off the row with this key and nothing else, or fails because there is none. */
  lemma DisabledRuleIsOff(t: RuleTable, id: int)
    requires Sound(t)
    ensures SwitchOff(t, id).Err? <==> forall k :: 0 <= k < |t.rows| ==> t.rows[k].rule.id != id
    ensures forall k :: 0 <= k < |t.rows| && t.rows[k].rule.id == id ==>
              && SwitchOff(t, id).Ok? && OnlyRow(t, SwitchOff(t, id).value, k)
              && SwitchOff(t, id).value.rows[k] == t.rows[k].(rule := t.rows[k].rule.(enabled := false))
  {
  }

  /** The new value where the update gives one, else the old. */
  predicate Set<T(==)>(given: Option<T>, before: T, after: T) {
    after == if given.Some? then given.value else before
  }

  /** The row after an update: each column named in it is set, all others stay. */
  ghost predicate RowUpdated(row: Row, row': Row, data: RuleUpdate) {
    var r, r' := row.rule, row'.rule;
    && Set(data.chat, r.chat, r'.chat) && Set(data.location, r.location, r'.location)
    && Set(data.expression, r.expression, r'.expression) && Set(data.enabled, r.enabled, r'.enabled)
    && Set(data.dryRun, r.dryRun, r'.dryRun) && Set(data.fingerprint, r.fingerprint, r'.fingerprint)
    && Set(data.description, row.description, row'.description)
    && (if data.thread.Some? then r'.thread == data.thread else r'.thread == r.thread)
    && (if data.schedule.Some? then r'.schedule == data.schedule else r'.schedule == r.schedule)
    && (if data.cooldownMinutes.Some? then r'.cooldownMinutes == data.cooldownMinutes else r'.cooldownMinutes == r.cooldownMinutes)
    && row'.shortId == row.shortId && r'.id == r.id && r'.user == r.user && r'.snoozeUntil == r.snoozeUntil
  }

  /**
    An update rewrites the named columns of the row with this key and nothing else; it fails
    exactly when there is no such row or the new expression is not valid.
   */
  lemma UpdatedRule(t: RuleTable, id: int, data: RuleUpdate, valid: string -> bool)
    requires Sound(t)
    ensures var r := Update(t, id, data, valid);
            && (r == Err(RuleNotFound) <==> forall k :: 0 <= k < |t.rows| ==> t.rows[k].rule.id != id)
            && forall k :: 0 <= k < |t.rows| && t.rows[k].rule.id == id ==>
                 if data.expression.Some? && !valid(data.expression.value) then r == Err(InvalidExpression)
                 else r.Ok? && OnlyRow(t, r.value, k) && RowUpdated(t.rows[k], r.value.rows[k], data)
  {
  }

  /** Deleting removes the row with this key and keeps the others in order; without one nothing changes. */
  lemma DeletedRule(t: RuleTable, id: int)
    requires Sound(t)
    ensures (forall k :: 0 <= k < |t.rows| ==> t.rows[k].rule.id != id) ==> Delete(t, id) == t
    ensures forall k :: 0 <= k < |t.rows| && t.rows[k].rule.id == id ==>
              Delete(t, id) == t.(rows := t.rows[..k] + t.rows[k + 1..])
  {
  }

  lemma SwitchOffKeepsSound(t: RuleTable, id: int)
    requires Sound(t) && SwitchOff(t, id).Ok?
    ensures Sound(SwitchOff(t, id).value)
  {
  }

  lemma DeleteKeepsSound(t: RuleTable, id: int)
    requires Sound(t)
    ensures Sound(Delete(t, id))
    ensures forall k :: 0 <= k < |Delete(t, id).rows| ==> Delete(t, id).rows[k].rule.id != id
  {
  }
}
