/** Runs of one worker, and what each phase of a cycle does to the tables. */
module WorkerFacts {
  import opened Wrappers
  import opened NotificationEvents
  import Schedules
  import opened Rules
  import Deduplication
  import opened Worker

  // ---- Runs -------------------------------------------------------------------------

  /** Between the worker's cycles the rule table may be edited by anyone, and time passes. */
  datatype Move = Turn(cycle: Cycle) | Edit(rules: seq<Rule>, d: nat)

  function Act(cfg: Config, w: World, m: Move): World {
    match m
    case Turn(cycle) => RunCycle(cfg, w, cycle)
    case Edit(rules, d) => w.(rules := rules, clock := w.clock + d)
  }

  /** A run starts from whatever sound tables earlier work left behind; the delivery log is of this run. */
  ghost predicate WorkerRun(cfg: Config, ws: seq<World>, moves: seq<Move>) {
    && |ws| == |moves| + 1
    && TableSound(ws[0]) && ws[0].deliveries == []
    && (forall i :: 0 <= i < |ws| ==> InKeyOrder(ws[i].rules))
    && (forall i :: 0 <= i < |moves| ==> ws[i + 1] == Act(cfg, ws[i], moves[i]))
  }

  // ---- Claiming ---------------------------------------------------------------------

  /** The claimed rules are distinct enabled rows of the table, all due at the claim. */
  ghost predicate DueRules(cfg: Config, w: World, now: int, due: seq<Rule>) {
    && InKeyOrder(due)
    && forall i :: 0 <= i < |due| ==>
         due[i] in w.rules && due[i].enabled && IsDue(cfg, w, due[i], now) == Ok(true)
  }

  lemma {:induction false} ClaimedAreDue(cfg: Config, w: World, now: int, n: nat)
    requires n <= |w.rules| && InKeyOrder(w.rules)
    requires Claimed(cfg, w, now, n).Ok?
    ensures DueRules(cfg, w, now, Claimed(cfg, w, now, n).value)
    ensures forall i :: 0 <= i < |Claimed(cfg, w, now, n).value| ==>
              Claimed(cfg, w, now, n).value[i] in w.rules[..n]
  {
    if n > 0 {
      ClaimedAreDue(cfg, w, now, n - 1);
      var before, due := Claimed(cfg, w, now, n - 1).value, Claimed(cfg, w, now, n).value;
      assert w.rules[..n] == w.rules[..n - 1] + [w.rules[n - 1]];
      forall i, j | 0 <= i < j < |due| ensures due[i].id < due[j].id {
        assert due[i] in w.rules[..n - 1];
        if j < |before| {
          assert due[j] == before[j];
        }
      }
    }
  }

  /** Every enabled rule that is due at the claim is claimed. */
  lemma {:induction false} DueAreClaimed(cfg: Config, w: World, now: int, n: nat, k: nat)
    requires k < n <= |w.rules|
    requires Claimed(cfg, w, now, n).Ok?
    requires w.rules[k].enabled
    ensures IsDue(cfg, w, w.rules[k], now).Ok?
    ensures IsDue(cfg, w, w.rules[k], now).value ==> w.rules[k] in Claimed(cfg, w, now, n).value
  {
    if k < n - 1 {
      DueAreClaimed(cfg, w, now, n - 1, k);
    }
  }

  lemma {:induction false} ClaimNeverFails(cfg: Config, w: World, now: int, n: nat)
    requires n <= |w.rules|
    requires forall k :: 0 <= k < n && w.rules[k].enabled ==> IsDue(cfg, w, w.rules[k], now).Ok?
    ensures Claimed(cfg, w, now, n).Ok?
  {
    if n > 0 {
      ClaimNeverFails(cfg, w, now, n - 1);
    }
  }

  // ---- Evaluating -------------------------------------------------------------------

  /** Evaluation only adds run rows, stamped while it lasts. */
  lemma {:induction false} EvaluatedAddsRuns(w: World, due: seq<Rule>, cycle: Cycle, n: nat)
    requires n <= |due|
    ensures var v := Evaluated(w, due, cycle, n);
            && v == w.(clock := v.clock, runs := v.runs)
            && v.clock >= w.clock
            && w.runs <= v.runs
            && forall k :: |w.runs| <= k < |v.runs| ==> w.clock <= v.runs[k].at <= v.clock
  {
    if n > 0 {
      EvaluatedAddsRuns(w, due, cycle, n - 1);
    }
  }

  ghost predicate HasRun(runs: seq<EvaluationRun>, from: nat, rule: int) {
    exists k :: from <= k < |runs| && runs[k].rule == rule
  }

  /** An evaluation that does not raise leaves a run row of its rule. */
  lemma {:induction false} EvaluatedHasRun(w: World, due: seq<Rule>, cycle: Cycle, n: nat, i: nat)
    requires i < n <= |due| && !cycle.evaluate(i).outcome.Raised?
    ensures HasRun(Evaluated(w, due, cycle, n).runs, |w.runs|, due[i].id)
  {
    EvaluatedAddsRuns(w, due, cycle, n - 1);
    var u, v := Evaluated(w, due, cycle, n - 1), Evaluated(w, due, cycle, n);
    if i == n - 1 {
      assert v.runs[|u.runs|].rule == due[i].id;
    } else {
      EvaluatedHasRun(w, due, cycle, n - 1, i);
      var k :| |w.runs| <= k < |u.runs| && u.runs[k].rule == due[i].id;
      assert v.runs[k].rule == due[i].id;
    }
  }

  /** A rule that is not among the first `n` due ones gains no run row. */
  lemma {:induction false} EvaluatedOnlyDue(w: World, due: seq<Rule>, cycle: Cycle, n: nat, rule: int)
    requires n <= |due|
    requires forall i :: 0 <= i < n ==> due[i].id != rule
    ensures !HasRun(Evaluated(w, due, cycle, n).runs, |w.runs|, rule)
  {
    if n > 0 {
      EvaluatedAddsRuns(w, due, cycle, n - 1);
      EvaluatedOnlyDue(w, due, cycle, n - 1, rule);
      var u := Evaluated(w, due, cycle, n - 1);
      assert forall k :: |w.runs| <= k < |u.runs| ==> u.runs[k].rule != rule;
    }
  }

  // ---- Delivering -------------------------------------------------------------------

  predicate RowSound(e: Event, clock: int) {
    && e.hash.Some?
    && e.createdAt <= clock
    && (e.sentAt.Some? <==> e.status == Sent)
    && (e.sentAt.Some? ==> e.sentAt.value <= clock)
    && (e.status != Suppressed ==> !e.suppressed)
  }

  ghost predicate TableSound(w: World) {
    UniqueIndex(w.events) && forall k :: 0 <= k < |w.events| ==> RowSound(w.events[k], w.clock)
  }

  /** What a delivery call may do: log itself, add at most one row of its rule, touch at most that row. */
  ghost predicate DeliveryStep(w: World, w': World, rule: Rule) {
    && w'.rules == w.rules && w'.runs == w.runs && w'.clock >= w.clock
    && |w'.deliveries| == |w.deliveries| + 1 && w.deliveries <= w'.deliveries
    && var d := w'.deliveries[|w.deliveries|];
    && d.rule == rule.id && d.at == w.clock && d.cooldownMinutes == rule.EffectiveCooldown()
    && |w.events| <= |w'.events| <= |w.events| + 1
    && d.event < |w'.events|
    && w'.events[d.event].rule == rule.id
    && (forall k :: 0 <= k < |w.events| && k != d.event ==> w'.events[k] == w.events[k])
    && (forall k :: 0 <= k < |w.events| ==>
          && w'.events[k].rule == w.events[k].rule && w'.events[k].hash == w.events[k].hash
          && w'.events[k].createdAt == w.events[k].createdAt
          && (w.events[k].Finished() ==> w'.events[k] == w.events[k]))
    && (|w'.events| > |w.events| ==>
          d.event == |w.events| && w'.events[d.event].createdAt >= w.clock)
    && (d.sentAt.Some? ==> w'.events[d.event].sentAt == d.sentAt)
    && (w'.events[d.event].status == Sent ==>
          d.sentAt.Some? || (d.event < |w.events| && w'.events[d.event] == w.events[d.event]))
  }

  /** The rows after a delivery: only row `id` may differ, and it keeps rule, hash and creation time. */
  ghost predicate OnlyRowMoves(t: Table, t': Table, id: nat) {
    && |t| == |t'| && id < |t|
    && (forall k :: 0 <= k < |t| && k != id ==> t'[k] == t[k])
    && t'[id].rule == t[id].rule && t'[id].hash == t[id].hash && t'[id].createdAt == t[id].createdAt
  }

  lemma ConcludeIsSound(w: World, id: nat, suppressed: Option<string>, tried: Delivery, a: Attempt)
    requires TableSound(w) && id < |w.events| && w.events[id].status == Sending && tried.sentAt.None?
    ensures var r := Conclude(w, id, suppressed, tried, a);
            && r.Ok? && TableSound(r.value) && OnlyRowMoves(w.events, r.value.events, id)
            && r.value.rules == w.rules && r.value.runs == w.runs && r.value.clock >= w.clock
            && |r.value.deliveries| == |w.deliveries| + 1 && w.deliveries <= r.value.deliveries
            && var d := r.value.deliveries[|w.deliveries|];
            && d == tried.(sentAt := d.sentAt)
            && d.sentAt == r.value.events[id].sentAt
            && (d.sentAt.Some? ==> suppressed.None? && d.sentAt.value >= w.clock)
            && r.value.events[id].Finished()
  {
    var e := w.events[id];
    var reason := if suppressed.Some? then suppressed.value else SEND_FAILED;
    UpdateKeepsIndex(w.events, id, e.(suppressed := true, reason := Some(reason), status := Suppressed));
    UpdateKeepsIndex(w.events, id, e.(sentAt := Some(w.clock + a.sendDelay), status := Sent,
                                      message := Some(a.message)));
  }

  lemma CreateOnceIsSound(w: World, rule: int, hash: Hash, selectedAt: int, insertedAt: int)
    requires TableSound(w) && w.clock <= selectedAt <= insertedAt
    ensures var r := CreateOnce(w.events, rule, hash, selectedAt, insertedAt);
            && r.Ok?
            && var (t, reply) := r.value;
            && TableSound(w.(events := t, clock := insertedAt))
            && reply.id < |t| && t[reply.id].rule == rule && t[reply.id].hash == Some(hash)
            && |w.events| <= |t| <= |w.events| + 1
            && (|t| > |w.events| ==> reply == Reply(|w.events|, true) && t[reply.id].createdAt >= w.clock)
            && (|t| == |w.events| ==> OnlyRowMoves(w.events, t, reply.id))
            && (forall k :: 0 <= k < |w.events| && k != reply.id ==> t[k] == w.events[k])
            && (reply.created ==> t[reply.id].status == Sending)
            && (reply.created && reply.id < |w.events| ==> !w.events[reply.id].Finished())
            && (!reply.created ==> t == w.events)
  {
    CreateEventOnceMeaning(w.events, rule, hash, selectedAt, insertedAt);
    InsertRefusedIffActive(w.events, rule, hash, insertedAt);
  }

  /** On a sound table a delivery never raises, and does no more than a delivery step. */
  lemma DeliverIsAStep(cfg: Config, w: World, rule: Rule, c: Deduplication.Candidate, a: Attempt)
    requires TableSound(w)
    ensures Deliver(cfg, w, rule, c, a).Ok?
    ensures TableSound(Deliver(cfg, w, rule, c, a).value)
    ensures DeliveryStep(w, Deliver(cfg, w, rule, c, a).value, rule)
    ensures var w' := Deliver(cfg, w, rule, c, a).value;
            w'.events[w'.deliveries[|w.deliveries|].event].hash == Some(Deduplication.CandidateHash(cfg.sha, rule, c))
    ensures var d := Deliver(cfg, w, rule, c, a).value.deliveries[|w.deliveries|];
            d.sentAt.Some? ==>
              && Suppression(cfg, w, rule, c, w.clock + a.checkDelay).None?
              && d.sentAt.value >= w.clock + a.checkDelay
  {
    hide Deduplication.ShouldSuppress, Deduplication.CandidateHash, CreateOnce, Conclude, UniqueIndex;
    var checkedAt := w.clock + a.checkDelay;
    var suppressed := Suppression(cfg, w, rule, c, checkedAt);
    var insertedAt := checkedAt + a.selectDelay + a.insertDelay;
    var hash := Deduplication.CandidateHash(cfg.sha, rule, c);
    CreateOnceIsSound(w, rule.id, hash, checkedAt + a.selectDelay, insertedAt);
    var (t, reply) := CreateOnce(w.events, rule.id, hash, checkedAt + a.selectDelay, insertedAt).value;
    if reply.created {
      var tried := Delivery(rule.id, w.clock, reply.id, None, rule.EffectiveCooldown());
      ConcludeIsSound(w.(events := t, clock := insertedAt), reply.id, suppressed, tried, a);
    }
  }

  predicate TurnDelivers(cfg: Config, keys: set<string>, rule: Rule, outcome: Outcome) {
    && outcome.Found? && cfg.hasSender && cfg.hasEvents
    && !(ScheduledKey(rule).Some? && ScheduledKey(rule).value in keys)
  }

  /** A turn of the delivery loop delivers or not, then disables a `once:` candidate, and records the key. */
  ghost predicate TurnStep(cfg: Config, w: World, keys: set<string>, w': World, keys': set<string>,
                           rule: Rule, outcome: Outcome)
  {
    && w'.rules == (if outcome.Found? then AfterCandidate(w, rule) else w).rules
    && w'.runs == w.runs && w'.clock >= w.clock
    && keys' == (if outcome.Found? && ScheduledKey(rule).Some? then keys + {ScheduledKey(rule).value} else keys)
    && (if TurnDelivers(cfg, keys, rule, outcome) then DeliveryStep(w, w'.(rules := w.rules), rule)
        else w' == w.(rules := w'.rules))
  }

  lemma TurnIsAStep(cfg: Config, w: World, keys: set<string>, rule: Rule, outcome: Outcome, a: Attempt)
    requires TableSound(w)
    ensures DeliverTurn(cfg, w, keys, rule, outcome, a).Ok?
    ensures var (w', keys') := DeliverTurn(cfg, w, keys, rule, outcome, a).value;
            TableSound(w') && TurnStep(cfg, w, keys, w', keys', rule, outcome)
  {
    hide Deliver, UniqueIndex, ScheduledKey, Schedules.HasPrefix, RowSound;
    if outcome.Found? {
      DeliverIsAStep(cfg, w, rule, outcome.candidate, a);
      var key := ScheduledKey(rule);
      if key.Some? && key.value in keys {
        assert keys + {key.value} == keys;
      }
    }
  }

  /** The delivery log gains one entry of the rule, at the time of the turn, exactly when the turn delivers. */
  ghost predicate LogStep(log: seq<Delivery>, log': seq<Delivery>, rule: int, clock: int, delivers: bool) {
    if delivers then
      |log'| == |log| + 1 && log' == log + [log'[|log|]] && log'[|log|].rule == rule && log'[|log|].at == clock
    else log' == log
  }

  lemma TurnLogs(cfg: Config, w: World, keys: set<string>, w': World, keys': set<string>, rule: Rule, outcome: Outcome)
    requires TurnStep(cfg, w, keys, w', keys', rule, outcome)
    ensures LogStep(w.deliveries, w'.deliveries, rule.id, w.clock, TurnDelivers(cfg, keys, rule, outcome))
    ensures w'.clock >= w.clock && w'.runs == w.runs
    ensures TurnDelivers(cfg, keys, rule, outcome) ==> outcome.Found?
  {
    hide ScheduledKey, AfterCandidate;
  }

  // ---- History ----------------------------------------------------------------------

  ghost predicate FinishedRowsKept(t: Table, t': Table) {
    |t| <= |t'| && forall k :: 0 <= k < |t| && t[k].Finished() ==> t'[k] == t[k]
  }

  lemma TurnKeepsRows(cfg: Config, w: World, keys: set<string>, w': World, keys': set<string>, rule: Rule, outcome: Outcome)
    requires TurnStep(cfg, w, keys, w', keys', rule, outcome)
    ensures FinishedRowsKept(w.events, w'.events) && w'.runs == w.runs && w'.clock >= w.clock
  {
    hide ScheduledKey, AfterCandidate, TurnDelivers;
  }

  /** The delivery loop keeps run rows and finished event rows. */
  lemma {:induction false} DeliveredKeepsHistory(cfg: Config, w: World, due: seq<Rule>, cycle: Cycle, n: nat)
    requires TableSound(w) && n <= |due|
    ensures Delivered(cfg, w, due, cycle, n).Ok?
    ensures var v := Delivered(cfg, w, due, cycle, n).value.0;
            TableSound(v) && v.runs == w.runs && v.clock >= w.clock && FinishedRowsKept(w.events, v.events)
  {
    hide TableSound, DeliverTurn, TurnStep;
    if n > 0 {
      DeliveredKeepsHistory(cfg, w, due, cycle, n - 1);
      var (v, keys) := Delivered(cfg, w, due, cycle, n - 1).value;
      var r, outcome := due[n - 1], cycle.evaluate(n - 1).outcome;
      TurnIsAStep(cfg, v, keys, r, outcome, cycle.attempt(n - 1));
      var (v', keys') := Delivered(cfg, w, due, cycle, n).value;
      TurnKeepsRows(cfg, v, keys, v', keys', r, outcome);
    }
  }

  lemma LaterIsSound(w: World, w': World)
    requires TableSound(w) && w'.events == w.events && w'.clock >= w.clock
    ensures TableSound(w')
  {
    hide UniqueIndex;
  }

  /** A cycle keeps run rows, finished event rows and the soundness of the table. */
  lemma CycleKeepsHistory(cfg: Config, w: World, cycle: Cycle)
    requires TableSound(w)
    ensures var w' := RunCycle(cfg, w, cycle);
            TableSound(w') && w.runs <= w'.runs && w'.clock >= w.clock && FinishedRowsKept(w.events, w'.events)
  {
    hide TableSound, Delivered, Evaluated, Claimed;
    var w0 := w.(clock := w.clock + cycle.claimDelay);
    LaterIsSound(w, w0);
    var claimed := Claimed(cfg, w0, w0.clock, |w0.rules|);
    if claimed.Ok? {
      var due := claimed.value;
      EvaluatedAddsRuns(w0, due, cycle, |due|);
      var w1 := Evaluated(w0, due, cycle, |due|);
      LaterIsSound(w0, w1);
      LaterIsSound(w1, w1.(clock := w1.clock + cycle.aborted.GetOr(0)));
      DeliveredKeepsHistory(cfg, w1, due, cycle, |due|);
    }
  }

  lemma {:induction false} RunIsSound(cfg: Config, ws: seq<World>, moves: seq<Move>, n: nat)
    requires WorkerRun(cfg, ws, moves) && n < |ws|
    ensures TableSound(ws[n])
  {
    hide RunCycle;
    if n > 0 {
      RunIsSound(cfg, ws, moves, n - 1);
      match moves[n - 1]
      case Turn(cycle) => CycleKeepsHistory(cfg, ws[n - 1], cycle);
      case Edit(_, _) => LaterIsSound(ws[n - 1], ws[n]);
    }
  }
}
