/**
  The `notification_events` table and the service that leases its rows
  (domain/notifications/events.py, infrastructure/db/base.py).

  A row is addressed by its position, so a table is a sequence of rows; rows are
  never deleted.  Every write goes through `Flush`, which applies the partial
  unique index on (rule_id, payload_hash) to the whole table that would result.
 */
module NotificationEvents {
  import Durations
  import opened Wrappers

  type Hash = string

  const LEASE_TIMEOUT: int := 10 * Durations.MINUTE

  datatype Status = Pending | Sending | Sent | Suppressed

  datatype Event = Event(
    rule: int,
    hash: Option<Hash>,
    status: Status,
    claimedAt: Option<int>,
    createdAt: int,
    sentAt: Option<int>,
    suppressed: bool,
    reason: Option<string>,
    message: Option<string>
  ) {
    predicate Active() {
      status != Suppressed
    }

    predicate Finished() {
      status == Sent || status == Suppressed
    }

    // The unique index is partial: it holds only rows with a hash and an active status.
    predicate HasKey(r: int, h: Hash) {
      rule == r && hash == Some(h)
    }

    function LeaseStart(): int {
      claimedAt.GetOr(createdAt)
    }
  }

  type Table = seq<Event>

  datatype Error = EventNotFound | IntegrityError

  predicate Conflict(e: Event, f: Event) {
    e.Active() && f.Active() && e.hash.Some? && e.rule == f.rule && e.hash == f.hash
  }

  /** The partial unique index `uq_notification_events_rule_payload_active`. */
  predicate UniqueIndex(t: Table) {
    forall i, j :: 0 <= i < j < |t| ==> !Conflict(t[i], t[j])
  }

  function Flush(t: Table): Result<Table, Error> {
    if UniqueIndex(t) then Ok(t) else Err(IntegrityError)
  }

  // ---- Selecting the active row of a key -------------------------------------------

  function FindActive(t: Table, rule: int, hash: Hash, i: nat := 0): (r: Option<nat>)
    requires i <= |t|
    ensures r.Some? ==> i <= r.value < |t| && t[r.value].Active() && t[r.value].HasKey(rule, hash)
    ensures r.None? ==> forall k :: i <= k < |t| ==> !(t[k].Active() && t[k].HasKey(rule, hash))
    decreases |t| - i
  {
    if i == |t| then None
    else if t[i].Active() && t[i].HasKey(rule, hash) then Some(i)
    else FindActive(t, rule, hash, i + 1)
  }

  /** Under the index the `limit(1)` select has a single candidate, so its order does not matter. */
  lemma ActiveRowIsUnique(t: Table, rule: int, hash: Hash, k: nat)
    requires UniqueIndex(t)
    requires k < |t| && t[k].Active() && t[k].HasKey(rule, hash)
    ensures FindActive(t, rule, hash) == Some(k)
  {
    var r := FindActive(t, rule, hash);
    assert r.Some?;
    if r.value < k {
      assert Conflict(t[r.value], t[k]);
    } else if k < r.value {
      assert Conflict(t[k], t[r.value]);
    }
  }

  // ---- create_event_once, read part and write part ---------------------------------

  /** What the first select of `create_event_once` leads to. */
  datatype Lookup = Absent | Held(id: nat) | Stale(id: nat)

  function LookUp(t: Table, rule: int, hash: Hash, now: int): (r: Lookup)
    ensures !r.Absent? ==> r.id < |t| && t[r.id].Active() && t[r.id].HasKey(rule, hash)
    ensures r.Stale? ==> t[r.id].status != Sent && now - t[r.id].LeaseStart() >= LEASE_TIMEOUT
  {
    match FindActive(t, rule, hash)
    case None => Absent
    case Some(i) =>
      if t[i].status == Sent then Held(i)
      else if now - t[i].LeaseStart() < LEASE_TIMEOUT then Held(i)
      else Stale(i)
  }

  function Reclaim(t: Table, id: nat, now: int): Table
    requires id < |t|
  {
    t[id := t[id].(status := Sending, claimedAt := Some(now))]
  }

  function NewEvent(rule: int, hash: Option<Hash>, now: int): Event {
    Event(rule, hash, Sending, Some(now), now, None, false, None, None)
  }

  /** `create_event`: append a leased row, subject to the index. */
  function CreateEvent(t: Table, rule: int, hash: Option<Hash>, now: int): Result<Table, Error> {
    Flush(t + [NewEvent(rule, hash, now)])
  }

  /** The reply of `create_event_once`: the row, and whether the caller now owns its delivery. */
  datatype Reply = Reply(id: nat, created: bool)

  /** The write part: insert under a savepoint; on an index violation select the row again. */
  function InsertOrYield(t: Table, rule: int, hash: Hash, now: int): (r: Result<(Table, Reply), Error>)
    ensures r.Ok? ==> r.value.1.id < |r.value.0|
  {
    match CreateEvent(t, rule, Some(hash), now)
    case Ok(t') => Ok((t', Reply(|t|, true)))
    case Err(e) =>
      match FindActive(t, rule, hash)
      case Some(i) => Ok((t, Reply(i, false)))
      case None => Err(e)
  }

  function CreateOnce(t: Table, rule: int, hash: Hash, now: int, insertedAt: int):
    (r: Result<(Table, Reply), Error>)
    ensures r.Ok? ==> r.value.1.id < |r.value.0|
  {
    match LookUp(t, rule, hash, now)
    case Held(i) => Ok((t, Reply(i, false)))
    case Stale(i) =>
      (match Flush(Reclaim(t, i, now))
       case Ok(t') => Ok((t', Reply(i, true)))
       case Err(e) => Err(e))
    case Absent => InsertOrYield(t, rule, hash, insertedAt)
  }

  // ---- Finishing a delivery ---------------------------------------------------------

  function SentTable(t: Table, id: nat, now: int, message: Option<string>): Result<Table, Error> {
    if id >= |t| then Err(EventNotFound)
    else
      var e := t[id].(sentAt := Some(now), status := Sent);
      var e' := if message.Some? then e.(message := message) else e;
      Flush(t[id := e'])
  }

  function SuppressedTable(t: Table, id: nat, reason: string): Result<Table, Error> {
    if id >= |t| then Err(EventNotFound)
    else Flush(t[id := t[id].(suppressed := true, reason := Some(reason), status := Suppressed)])
  }

  // ---- What the index guarantees ----------------------------------------------------

  /** Replacing an active row by a row of the same key, or by any suppressed row, passes the index. */
  lemma UpdateKeepsIndex(t: Table, id: nat, e: Event)
    requires UniqueIndex(t) && id < |t|
    requires !e.Active() || (t[id].Active() && e.rule == t[id].rule && e.hash == t[id].hash)
    ensures UniqueIndex(t[id := e])
  {
    var t' := t[id := e];
    forall i, j | 0 <= i < j < |t'| ensures !Conflict(t'[i], t'[j]) {
      assert !Conflict(t[i], t[j]);
    }
  }

  /** An insert is refused exactly when the key already has an active row. */
  lemma InsertRefusedIffActive(t: Table, rule: int, hash: Hash, now: int)
    requires UniqueIndex(t)
    ensures CreateEvent(t, rule, Some(hash), now).Err? <==> FindActive(t, rule, hash).Some?
  {
    var t' := t + [NewEvent(rule, Some(hash), now)];
    match FindActive(t, rule, hash)
    case Some(i) =>
      assert Conflict(t'[i], t'[|t|]);
    case None =>
      forall i, j | 0 <= i < j < |t'| ensures !Conflict(t'[i], t'[j]) {
        if j < |t| {
          assert !Conflict(t[i], t[j]);
        }
      }
  }

  /** Rows without a hash are outside the index: adding one is never refused. */
  lemma UnhashedIsNeverRefused(t: Table, rule: int, now: int)
    requires UniqueIndex(t)
    ensures CreateEvent(t, rule, None, now) == Ok(t + [NewEvent(rule, None, now)])
  {
    var t' := t + [NewEvent(rule, None, now)];
    forall i, j | 0 <= i < j < |t'| ensures !Conflict(t'[i], t'[j]) {
      if j < |t| {
        assert !Conflict(t[i], t[j]);
      }
    }
  }

  /**
    A whole call of `create_event_once` never raises on an indexed table, keeps the index,
    changes at most the row it returns, hands out only rows of the key asked for, and tells
    the caller "created" exactly when that row was missing or its lease had run out.
   */
  lemma CreateEventOnceMeaning(t: Table, rule: int, hash: Hash, now: int, insertedAt: int)
    requires UniqueIndex(t)
    ensures var r := CreateOnce(t, rule, hash, now, insertedAt);
            && r.Ok?
            && var (t', reply) := r.value;
            && UniqueIndex(t')
            && |t| <= |t'| <= |t| + 1
            && (forall k :: 0 <= k < |t| && k != reply.id ==> t'[k] == t[k])
            && t'[reply.id].HasKey(rule, hash) && t'[reply.id].Active()
            && (reply.created ==> t'[reply.id].status == Sending)
            && (!reply.created ==> t' == t)
            && (reply.created <==>
                forall k :: 0 <= k < |t| && t[k].HasKey(rule, hash) && t[k].Active()
                  ==> t[k].status != Sent && now - t[k].LeaseStart() >= LEASE_TIMEOUT)
  {
    InsertRefusedIffActive(t, rule, hash, insertedAt);
    match LookUp(t, rule, hash, now)
    case Held(i) =>
    case Stale(i) =>
      UpdateKeepsIndex(t, i, Reclaim(t, i, now)[i]);
      forall k | 0 <= k < |t| && t[k].HasKey(rule, hash) && t[k].Active() ensures k == i {
        ActiveRowIsUnique(t, rule, hash, k);
      }
    case Absent =>
  }

  /**
    The row a call hands out as created: a new one, leased, unsent and unsuppressed since the
    insert, or the stale one with its lease renewed and everything else as it was.
   */
  lemma CreatedRow(t: Table, rule: int, hash: Hash, now: int, insertedAt: int)
    requires UniqueIndex(t) && CreateOnce(t, rule, hash, now, insertedAt).Ok?
    requires CreateOnce(t, rule, hash, now, insertedAt).value.1.created
    ensures var (t', reply) := CreateOnce(t, rule, hash, now, insertedAt).value;
            var e := t'[reply.id];
            if |t'| > |t| then
              && reply.id == |t| && e.HasKey(rule, hash) && e.status == Sending
              && e.createdAt == insertedAt && e.claimedAt == Some(insertedAt)
              && e.sentAt.None? && !e.suppressed && e.reason.None? && e.message.None?
            else
              && reply.id < |t| && e.status == Sending && e.claimedAt == Some(now)
              && e.rule == t[reply.id].rule && e.hash == t[reply.id].hash && e.createdAt == t[reply.id].createdAt
              && e.sentAt == t[reply.id].sentAt && e.suppressed == t[reply.id].suppressed
              && e.reason == t[reply.id].reason && e.message == t[reply.id].message
  {
    hide UniqueIndex;
  }

  /** What marking does to the one row it names; no other row changes, and a row that is not there is an error. */
  lemma MarkedRow(t: Table, id: nat, now: int, message: Option<string>, reason: string)
    ensures id >= |t| ==>
              SentTable(t, id, now, message) == Err(EventNotFound) && SuppressedTable(t, id, reason) == Err(EventNotFound)
    ensures SentTable(t, id, now, message).Ok? ==>
              var t' := SentTable(t, id, now, message).value;
              && id < |t| && t' == t[id := t'[id]] && t'[id].(status := t[id].status, sentAt := t[id].sentAt, message := t[id].message) == t[id]
              && t'[id].status == Sent && t'[id].sentAt == Some(now)
              && t'[id].message == (if message == None then t[id].message else message)
    ensures SuppressedTable(t, id, reason).Ok? ==>
              var t' := SuppressedTable(t, id, reason).value;
              && id < |t| && t' == t[id := t'[id]] && t'[id].(status := t[id].status, suppressed := t[id].suppressed, reason := t[id].reason) == t[id]
              && t'[id].status == Suppressed && t'[id].suppressed && t'[id].reason == Some(reason)
  {
    hide UniqueIndex;
  }

  /** The service object: its session's view of the table is the field `table`. */
  class NotificationEventService {
    var table: Table

    ghost predicate Valid()
      reads this
    {
      UniqueIndex(table)
    }

    constructor ()
      ensures Valid() && table == []
    {
      table := [];
    }

    /** The insert of `create_event_once`, with its answer to an index violation. */
    method InsertOrSelectAgain(rule: int, hash: Hash, now: int) returns (r: Result<Reply, Error>)
      requires Valid()
      modifies this
      ensures Valid()
      ensures match InsertOrYield(old(table), rule, hash, now)
              case Ok((t, reply)) => r == Ok(reply) && table == t
              case Err(e) => r == Err(e) && table == old(table)
    {
      var inserted := CreateEvent(table, rule, Some(hash), now);
      if inserted.Ok? {
        r := Ok(Reply(|table|, true));
        table := inserted.value;
      } else {
        var existing := FindActive(table, rule, hash);
        r := if existing.Some? then Ok(Reply(existing.value, false)) else Err(inserted.error);
      }
    }

    method CreateEventOnce(rule: int, hash: Hash, now: int, insertedAt: int)
      returns (r: Result<Reply, Error>)
      requires Valid()
      modifies this
      ensures Valid() && r.Ok?
      ensures Ok((table, r.value)) == CreateOnce(old(table), rule, hash, now, insertedAt)
    {
      CreateEventOnceMeaning(table, rule, hash, now, insertedAt);
      var existing := FindActive(table, rule, hash);
      if existing.Some? {
        var i := existing.value;
        if table[i].status == Sent {
          return Ok(Reply(i, false));
        }
        if now - table[i].LeaseStart() < LEASE_TIMEOUT {
          return Ok(Reply(i, false));
        }
        table := table[i := table[i].(status := Sending, claimedAt := Some(now))];
        return Ok(Reply(i, true));
      }
      r := InsertOrSelectAgain(rule, hash, insertedAt);
    }

    method MarkSent(id: nat, now: int, message: Option<string>) returns (r: Result<(), Error>)
      requires Valid()
      modifies this
      ensures Valid()
      ensures match SentTable(old(table), id, now, message)
              case Ok(t) => r.Ok? && table == t
              case Err(e) => r == Err(e) && table == old(table)
    {
      if id >= |table| {
        return Err(EventNotFound);
      }
      var saved := table;
      table := table[id := table[id].(sentAt := Some(now))];
      if message.Some? {
        table := table[id := table[id].(message := message)];
      }
      table := table[id := table[id].(status := Sent)];
      assert table == saved[id := table[id]];
      assert Flush(table) == SentTable(saved, id, now, message);
      if UniqueIndex(table) {
        return Ok(());
      }
      table := saved;
      r := Err(IntegrityError);
    }

    method MarkSuppressed(id: nat, reason: string) returns (r: Result<(), Error>)
      requires Valid()
      modifies this
      ensures Valid()
      ensures match SuppressedTable(old(table), id, reason)
              case Ok(t) => r.Ok? && table == t
              case Err(e) => r == Err(e) && table == old(table)
    {
      if id >= |table| {
        return Err(EventNotFound);
      }
      var saved := table;
      table := table[id := table[id].(suppressed := true)];
      table := table[id := table[id].(reason := Some(reason))];
      table := table[id := table[id].(status := Suppressed)];
      assert table == saved[id := table[id]];
      assert Flush(table) == SuppressedTable(saved, id, reason);
      if UniqueIndex(table) {
        return Ok(());
      }
      table := saved;
      r := Err(IntegrityError);
    }
  }
}
