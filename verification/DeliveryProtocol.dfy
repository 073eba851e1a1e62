/**
  Many workers sharing one `notification_events` table.

  The evaluation lock is held only while due rules are collected, so deliveries of
  different workers interleave freely; what keeps them apart is the row lease and the
  unique index.  A worker's delivery is split where other workers can get in between:
  the select of `create_event_once` (with the reclaim of a stale row, taken as one
  step), its insert, and the final `mark_sent` or `mark_suppressed`.  A worker may stop
  for good at any point.
 */
module DeliveryProtocol {
  import opened Wrappers
  import opened NotificationEvents

  datatype Key = Key(rule: int, hash: Hash)

  datatype Phase =
    | Idle
    | Inserting(key: Key)           // the select found nothing, the insert is still to come
    | Claimed(id: nat, at: int)     // told "created": owns the delivery of row `id` since `at`
    | Crashed

  /** History: a recorded send, and a claim of a row (by insert or by reclaim). */
  datatype Send = Send(id: nat, key: Key, at: int)
  datatype Claim = Claim(id: nat, at: int)

  datatype State = State(
    clock: int,
    table: Table,
    workers: seq<Phase>,
    sends: seq<Send>,
    claims: seq<Claim>
  )

  datatype Step =
    | Wait(d: nat)
    | Select(w: nat, key: Key)
    | Insert(w: nat)
    | FinishSent(w: nat)
    | FinishSuppressed(w: nat)
    | Crash(w: nat)

  predicate Enabled(s: State, step: Step) {
    match step
    case Wait(_) => true
    case Select(w, _) => w < |s.workers| && s.workers[w].Idle?
    case Insert(w) => w < |s.workers| && s.workers[w].Inserting?
    case FinishSent(w) => w < |s.workers| && s.workers[w].Claimed?
    case FinishSuppressed(w) => w < |s.workers| && s.workers[w].Claimed?
    case Crash(w) => w < |s.workers| && !s.workers[w].Crashed?
  }

  function Goto(s: State, w: nat, p: Phase): State
    requires w < |s.workers|
  {
    s.(workers := s.workers[w := p])
  }

  function Take(s: State, w: nat, t: Table, id: nat): State
    requires w < |s.workers|
  {
    Goto(s, w, Claimed(id, s.clock)).(table := t, claims := s.claims + [Claim(id, s.clock)])
  }

  function KeyOf(e: Event): Key
    requires e.hash.Some?
  {
    Key(e.rule, e.hash.value)
  }

  function Apply(s: State, step: Step): State
    requires Enabled(s, step)
  {
    match step
    case Wait(d) => s.(clock := s.clock + d)
    case Select(w, key) =>
      (match LookUp(s.table, key.rule, key.hash, s.clock)
       case Absent => Goto(s, w, Inserting(key))
       case Held(_) => s
       case Stale(i) =>
         (match Flush(Reclaim(s.table, i, s.clock))
          case Ok(t) => Take(s, w, t, i)
          case Err(_) => s))
    case Insert(w) =>
      var key := s.workers[w].key;
      (match InsertOrYield(s.table, key.rule, key.hash, s.clock)
       case Ok((t, reply)) => if reply.created then Take(s, w, t, reply.id) else Goto(s, w, Idle)
       case Err(_) => Goto(s, w, Idle))
    case FinishSent(w) =>
      var id := s.workers[w].id;
      (match SentTable(s.table, id, s.clock, None)
       case Ok(t) =>
         Goto(s, w, Idle).(table := t,
                           sends := if t[id].hash.Some? then s.sends + [Send(id, KeyOf(t[id]), s.clock)]
                                    else s.sends)
       case Err(_) => Goto(s, w, Idle))
    case FinishSuppressed(w) =>
      (match SuppressedTable(s.table, s.workers[w].id, "")
       case Ok(t) => Goto(s, w, Idle).(table := t)
       case Err(_) => Goto(s, w, Idle))
    case Crash(w) => Goto(s, w, Crashed)
  }

  /** The answer a worker receives from `create_event_once` in this step, if it ends that call. */
  function Answer(s: State, step: Step): Option<Reply>
    requires Enabled(s, step)
  {
    match step
    case Select(_, key) =>
      (match LookUp(s.table, key.rule, key.hash, s.clock)
       case Absent => None
       case Held(i) => Some(Reply(i, false))
       case Stale(i) => if Flush(Reclaim(s.table, i, s.clock)).Ok? then Some(Reply(i, true)) else None)
    case Insert(w) =>
      var key := s.workers[w].key;
      (match InsertOrYield(s.table, key.rule, key.hash, s.clock)
       case Ok((_, reply)) => Some(reply)
       case Err(_) => None)
    case _ => None
  }

  // ---- Runs -------------------------------------------------------------------------

  /** Any indexed table left by earlier runs, every worker idle, nothing recorded yet. */
  ghost predicate Init(s: State) {
    && UniqueIndex(s.table)
    && (forall w :: 0 <= w < |s.workers| ==> s.workers[w].Idle?)
    && s.sends == [] && s.claims == []
  }

  ghost predicate Run(states: seq<State>, steps: seq<Step>) {
    && |states| == |steps| + 1
    && Init(states[0])
    && forall i :: 0 <= i < |steps| ==>
         Enabled(states[i], steps[i]) && states[i + 1] == Apply(states[i], steps[i])
  }

  /** A delivery finished by this step is finished before its claimant's lease runs out. */
  predicate InTime(s: State, step: Step)
    requires Enabled(s, step)
  {
    match step
    case FinishSent(w) => s.clock < s.workers[w].at + LEASE_TIMEOUT
    case FinishSuppressed(w) => s.clock < s.workers[w].at + LEASE_TIMEOUT
    case _ => true
  }

  ghost predicate TimelyRun(states: seq<State>, steps: seq<Step>) {
    && Run(states, steps)
    && forall i :: 0 <= i < |steps| ==> InTime(states[i], steps[i])
  }

  /** The worker is the last claimant of its row, and the row is open. */
  predicate OwnsRow(s: State, p: Phase) {
    && p.Claimed? && p.id < |s.table|
    && s.table[p.id].status == Sending
    && s.table[p.id].claimedAt == Some(p.at)
  }

  /** A delivery finished by this step is finished by the row's last claimant, however late. */
  predicate FinishesOwnRow(s: State, step: Step)
    requires Enabled(s, step)
  {
    match step
    case FinishSent(w) => OwnsRow(s, s.workers[w])
    case FinishSuppressed(w) => OwnsRow(s, s.workers[w])
    case _ => true
  }

  ghost predicate OwnedRun(states: seq<State>, steps: seq<Step>) {
    && Run(states, steps)
    && forall i :: 0 <= i < |steps| ==> FinishesOwnRow(states[i], steps[i])
  }

  predicate NotYetSent(t: Table, id: nat) {
    id < |t| ==> t[id].status != Sent
  }

  /** A delivery finished by this step is finished on a row that is not yet `sent`, whoever claimed it. */
  predicate Spares(s: State, step: Step)
    requires Enabled(s, step)
  {
    match step
    case FinishSent(w) => NotYetSent(s.table, s.workers[w].id)
    case FinishSuppressed(w) => NotYetSent(s.table, s.workers[w].id)
    case _ => true
  }

  ghost predicate SparingRun(states: seq<State>, steps: seq<Step>) {
    && Run(states, steps)
    && forall i :: 0 <= i < |steps| ==> Spares(states[i], steps[i])
  }

  // ---- Invariants -------------------------------------------------------------------

  /** Holds in every run, timely or not. */
  ghost predicate Inv(s: State) {
    && UniqueIndex(s.table)
    && (forall w :: 0 <= w < |s.workers| && s.workers[w].Claimed? ==>
          && s.workers[w].id < |s.table|
          && s.table[s.workers[w].id].hash.Some?
          && s.workers[w].at <= s.clock)
    && (forall c :: 0 <= c < |s.claims| ==> ClaimCovered(s, s.claims[c]))
    && ClaimsLeaseApart(s.claims)
  }

  /** A claim never outlives the row's own claim stamp. */
  ghost predicate ClaimCovered(s: State, c: Claim) {
    && c.id < |s.table|
    && s.table[c.id].claimedAt.Some?
    && c.at <= s.table[c.id].claimedAt.value
  }

  ghost predicate ClaimsLeaseApart(claims: seq<Claim>) {
    forall a, b :: 0 <= a < b < |claims| && claims[a].id == claims[b].id ==>
      claims[b].at - claims[a].at >= LEASE_TIMEOUT
  }

  /** A worker whose lease has not run out is the row's present claimant, and the row is open. */
  ghost predicate LiveClaimHolds(s: State, p: Phase) {
    p.Claimed? && s.clock < p.at + LEASE_TIMEOUT ==> OwnsRow(s, p)
  }

  ghost predicate NoSharedLiveClaim(s: State) {
    forall v, w :: 0 <= v < w < |s.workers| && s.workers[v].Claimed? && s.workers[w].Claimed?
                   && s.workers[v].id == s.workers[w].id ==>
      s.workers[v].at != s.workers[w].at
  }

  ghost predicate SendRecorded(s: State, r: Send) {
    r.id < |s.table| && s.table[r.id].status == Sent && s.table[r.id].HasKey(r.key.rule, r.key.hash)
  }

  ghost predicate SendsOnDistinctRows(sends: seq<Send>) {
    forall a, b :: 0 <= a < b < |sends| ==> sends[a].id != sends[b].id
  }

  /** Every recorded send is a sent row of its own. */
  ghost predicate SentOnceInv(s: State) {
    && Inv(s)
    && (forall r :: 0 <= r < |s.sends| ==> SendRecorded(s, s.sends[r]))
    && SendsOnDistinctRows(s.sends)
  }

  ghost predicate TimelyInv(s: State) {
    && SentOnceInv(s)
    && (forall w :: 0 <= w < |s.workers| ==> LiveClaimHolds(s, s.workers[w]))
    && NoSharedLiveClaim(s)
  }

  /** No key has been sent twice. */
  ghost predicate NoKeySentTwice(s: State) {
    forall a, b :: 0 <= a < b < |s.sends| ==> s.sends[a].key != s.sends[b].key
  }
}
