/** What a delivery and a cycle end with, in every case. */
module WorkerOutcomes {
  import Durations
  import opened Wrappers
  import opened NotificationEvents
  import Schedules
  import opened Rules
  import Deduplication
  import opened Worker
  import opened WorkerFacts
  import opened WorkerOnce
  import WorkerClaims

  // ---- A delivery -------------------------------------------------------------------

  /** No active row of the key stands in the way: each is unsent, and its lease is over. */
  ghost predicate Granted(t: Table, rule: int, hash: Hash, at: int) {
    forall k :: 0 <= k < |t| && t[k].HasKey(rule, hash) && t[k].Active() ==>
      t[k].status != Sent && at - t[k].LeaseStart() >= 10 * Durations.MINUTE
  }

  /** The row of a granted delivery: sent with the message, or suppressed with the reason. */
  ghost predicate Concluded(e: Event, reason: Option<string>, a: Attempt, sentAt: int) {
    if reason.None? && a.sendOk then
      e.status == Sent && e.sentAt == Some(sentAt) && e.message == Some(a.message) && !e.suppressed
    else
      && e.status == Suppressed && e.suppressed && e.sentAt.None?
      && e.reason == Some(if reason.Some? then reason.value else "telegram_send_failed")
  }

  lemma ConcludeOutcome(w: World, id: nat, suppressed: Option<string>, tried: Delivery, a: Attempt)
    requires TableSound(w) && id < |w.events| && w.events[id].status == Sending && tried.sentAt.None?
    ensures var r := Conclude(w, id, suppressed, tried, a);
            var sentAt := w.clock + a.sendDelay;
            && r.Ok? && id < |r.value.events| && Concluded(r.value.events[id], suppressed, a, sentAt)
            && r.value.clock == (if suppressed.Some? then w.clock else sentAt)
            && r.value.deliveries == w.deliveries + [tried.(sentAt := if suppressed.None? && a.sendOk then Some(sentAt) else None)]
  {
    ConcludeIsSound(w, id, suppressed, tried, a);
    assert RowSound(Conclude(w, id, suppressed, tried, a).value.events[id], Conclude(w, id, suppressed, tried, a).value.clock);
  }

  /**
    How a delivery ends: it sends exactly when the row is granted, the check lets it pass and the
    send succeeds, and then the row is sent, with that time and message; a granted row is otherwise
    suppressed, for the check's reason or because the send failed; and a delivery that is not
    granted its row changes no row.  Without a deduplicator the check lets everything pass.
   */
  ghost predicate DeliveryEnds(cfg: Config, w: World, w': World, rule: Rule, c: Deduplication.Candidate, a: Attempt) {
    var hash := Deduplication.CandidateHash(cfg.sha, rule, c);
    var checkedAt := w.clock + a.checkDelay;
    var selectedAt := checkedAt + a.selectDelay;
    var insertedAt := selectedAt + a.insertDelay;
    var reason := if cfg.hasDeduplicator then Deduplication.ShouldSuppress(cfg.sha, w.events, rule, c, checkedAt) else None;
    && |w'.deliveries| == |w.deliveries| + 1
    && var d := w'.deliveries[|w.deliveries|];
    && d.event < |w'.events| && w'.events[d.event].HasKey(rule.id, hash)
    && (if Granted(w.events, rule.id, hash, selectedAt) then
          && Concluded(w'.events[d.event], reason, a, insertedAt + a.sendDelay)
          && d.sentAt == (if reason.None? && a.sendOk then Some(insertedAt + a.sendDelay) else None)
          && w'.clock == (if reason.None? then insertedAt + a.sendDelay else insertedAt)
        else d.sentAt.None? && w'.events == w.events && w'.clock == insertedAt)
  }

  lemma DeliveryOutcome(cfg: Config, w: World, rule: Rule, c: Deduplication.Candidate, a: Attempt)
    requires TableSound(w)
    ensures Deliver(cfg, w, rule, c, a).Ok? && DeliveryEnds(cfg, w, Deliver(cfg, w, rule, c, a).value, rule, c, a)
  {
    hide Deduplication.ShouldSuppress, Deduplication.CandidateHash, CreateOnce, Conclude, UniqueIndex, Concluded;
    var checkedAt := w.clock + a.checkDelay;
    var insertedAt := checkedAt + a.selectDelay + a.insertDelay;
    var hash := Deduplication.CandidateHash(cfg.sha, rule, c);
    CreateOnceIsSound(w, rule.id, hash, checkedAt + a.selectDelay, insertedAt);
    CreateEventOnceMeaning(w.events, rule.id, hash, checkedAt + a.selectDelay, insertedAt);
    var (t, reply) := CreateOnce(w.events, rule.id, hash, checkedAt + a.selectDelay, insertedAt).value;
    if reply.created {
      var reason := Suppression(cfg, w, rule, c, checkedAt);
      var tried := Delivery(rule.id, w.clock, reply.id, None, rule.EffectiveCooldown());
      var w1 := w.(events := t, clock := insertedAt);
      ConcludeOutcome(w1, reply.id, reason, tried, a);
      ConcludeIsSound(w1, reply.id, reason, tried, a);
    }
  }

  /**
    In the delivery loop every selected rule is delivered so, with its own candidate and attempt,
    in the world its predecessors left behind; any other turn leaves events and log alone.
   */
  lemma LoopOutcome(cfg: Config, w: World, due: seq<Rule>, cycle: Cycle, i: nat)
    requires TableSound(w) && i < |due| && cfg.hasSender && cfg.hasEvents
    ensures Delivered(cfg, w, due, cycle, i).Ok? && Delivered(cfg, w, due, cycle, i + 1).Ok?
    ensures var u, v := Delivered(cfg, w, due, cycle, i).value.0, Delivered(cfg, w, due, cycle, i + 1).value.0;
            if Selected(due, cycle, i) then
              DeliveryEnds(cfg, u, v, due[i], cycle.evaluate(i).outcome.candidate, cycle.attempt(i))
            else v.events == u.events && v.deliveries == u.deliveries && v.clock == u.clock
  {
    hide TableSound, Deliver, DeliveryEnds, ScheduledKey, KeysOfCandidates, LogOfSelected, Selected;
    LoopDeliversFirstPerKey(cfg, w, due, cycle, i);
    var (u, keys) := Delivered(cfg, w, due, cycle, i).value;
    SelectedIffKeyIsNew(due, cycle, i, keys);
    if cycle.evaluate(i).outcome.Found? {
      DeliveryOutcome(cfg, u, due[i], cycle.evaluate(i).outcome.candidate, cycle.attempt(i));
      var u' := Deliver(cfg, u, due[i], cycle.evaluate(i).outcome.candidate, cycle.attempt(i)).value;
      EndsWithAnyRules(cfg, u, u', due[i], cycle.evaluate(i).outcome.candidate, cycle.attempt(i), AfterCandidate(u', due[i]));
    }
  }

  lemma EndsWithAnyRules(cfg: Config, w: World, w': World, rule: Rule, c: Deduplication.Candidate, a: Attempt, v: World)
    requires DeliveryEnds(cfg, w, w', rule, c, a) && v == w'.(rules := v.rules)
    ensures DeliveryEnds(cfg, w, v, rule, c, a)
  {
    hide Deduplication.ShouldSuppress, Deduplication.CandidateHash, Granted, Concluded;
  }

  // ---- Evaluations ------------------------------------------------------------------

  /** The time the first `n` evaluations take. */
  function TotalDelay(cycle: Cycle, n: nat): nat {
    if n == 0 then 0 else TotalDelay(cycle, n - 1) + cycle.evaluate(n - 1).delay
  }

  /**
    The run rows of the first `n` due rules, evaluated from instant `start` on: one for every rule
    whose evaluation does not raise, in order, with its instant and whether it found a candidate.
   */
  function RunRows(start: int, due: seq<Rule>, cycle: Cycle, n: nat): seq<EvaluationRun>
    requires n <= |due|
  {
    if n == 0 then []
    else
      var outcome := cycle.evaluate(n - 1).outcome;
      RunRows(start, due, cycle, n - 1)
      + (if outcome.Raised? then []
         else [EvaluationRun(due[n - 1].id, start + TotalDelay(cycle, n), outcome.Found?)])
  }

  lemma {:induction false} EvaluationOutcome(w: World, due: seq<Rule>, cycle: Cycle, n: nat)
    requires n <= |due|
    ensures Evaluated(w, due, cycle, n)
            == w.(runs := w.runs + RunRows(w.clock, due, cycle, n), clock := w.clock + TotalDelay(cycle, n))
  {
    if n > 0 {
      EvaluationOutcome(w, due, cycle, n - 1);
    }
  }

  // ---- A cycle ----------------------------------------------------------------------

  /** Exactly the `once:` candidates are switched off. */
  ghost predicate OnceCandidatesOff(rules: seq<Rule>, rules': seq<Rule>, due: seq<Rule>, cycle: Cycle) {
    && |rules'| == |rules|
    && forall k :: 0 <= k < |rules| ==>
         rules'[k] == if OnceCandidate(due, cycle, |due|, rules[k].id) then rules[k].(enabled := false) else rules[k]
  }

  /** The log goes on with the first candidate of every scheduled key and every unscheduled candidate, in order. */
  ghost predicate LogsSelected(log: seq<Delivery>, log': seq<Delivery>, due: seq<Rule>, cycle: Cycle) {
    log <= log' && DeliveredIds(log') == DeliveredIds(log) + SelectedIds(due, cycle, |due|)
  }

  lemma {:induction false} NothingIsSent(cfg: Config, w: World, due: seq<Rule>, cycle: Cycle, n: nat)
    requires TableSound(w) && n <= |due| && !(cfg.hasSender && cfg.hasEvents)
    ensures Delivered(cfg, w, due, cycle, n).Ok?
    ensures var v := Delivered(cfg, w, due, cycle, n).value.0; v == w.(rules := v.rules)
  {
    hide UniqueIndex, RowSound, DeliverTurn, ScheduledKey, DeliveryStep, AfterCandidate;
    if n > 0 {
      NothingIsSent(cfg, w, due, cycle, n - 1);
      var (v, keys) := Delivered(cfg, w, due, cycle, n - 1).value;
      TurnIsAStep(cfg, v, keys, due[n - 1], cycle.evaluate(n - 1).outcome, cycle.attempt(n - 1));
    }
  }

  /** The delivery phase of a cycle that is neither dry nor aborted. */
  lemma DeliveryPhaseOutcome(cfg: Config, w: World, due: seq<Rule>, cycle: Cycle)
    requires TableSound(w)
    ensures Delivered(cfg, w, due, cycle, |due|).Ok?
    ensures var v := Delivered(cfg, w, due, cycle, |due|).value.0;
            && v.runs == w.runs
            && OnceCandidatesOff(w.rules, v.rules, due, cycle)
            && (if cfg.hasSender && cfg.hasEvents then LogsSelected(w.deliveries, v.deliveries, due, cycle)
                else v.events == w.events && v.deliveries == w.deliveries)
  {
    hide Delivered, TableSound, SelectedIds, OnceCandidate, KeysOfCandidates;
    LoopDisablesOnceCandidates(cfg, w, due, cycle, |due|);
    if cfg.hasSender && cfg.hasEvents {
      LoopDeliversFirstPerKey(cfg, w, due, cycle, |due|);
    } else {
      NothingIsSent(cfg, w, due, cycle, |due|);
    }
  }

  /**
    What a cycle ends with on a sound table.  Without the lock, with a failed claim or with nothing
    due only time passes.  Otherwise every due rule that is evaluated without raising has its run row, and
    unless the cycle is dry or aborted the first candidate of every scheduled key and every
    unscheduled candidate is delivered, in order, if there are a sender and an event service, and
    exactly the `once:` candidates are switched off.
   */
  lemma CycleOutcome(cfg: Config, w: World, cycle: Cycle)
    requires TableSound(w)
    ensures var w', claimedAt := RunCycle(cfg, w, cycle), w.clock + cycle.claimDelay;
            if !WorkerClaims.Claims(cfg, w, cycle) || WorkerClaims.DueIn(cfg, w, cycle) == [] then
              w' == w.(clock := claimedAt)
            else
              var due := WorkerClaims.DueIn(cfg, w, cycle);
              var evaluatedAt := claimedAt + TotalDelay(cycle, |due|);
              && w'.runs == w.runs + RunRows(claimedAt, due, cycle, |due|)
              && (if cycle.dryRun || cycle.aborted.Some? then
                    && w'.rules == w.rules && w'.events == w.events && w'.deliveries == w.deliveries
                    && w'.clock == evaluatedAt + (if cycle.dryRun then 0 else cycle.aborted.value)
                  else
                    && OnceCandidatesOff(w.rules, w'.rules, due, cycle)
                    && (if cfg.hasSender && cfg.hasEvents then LogsSelected(w.deliveries, w'.deliveries, due, cycle)
                        else w'.events == w.events && w'.deliveries == w.deliveries))
  {
    hide Delivered, Evaluated, Claimed, TableSound, RunRows, LogsSelected, OnceCandidatesOff;
    var w0 := w.(clock := w.clock + cycle.claimDelay);
    if WorkerClaims.Claims(cfg, w, cycle) {
      var due := WorkerClaims.DueIn(cfg, w, cycle);
      EvaluationOutcome(w0, due, cycle, |due|);
      var w1 := Evaluated(w0, due, cycle, |due|);
      LaterIsSound(w, w1);
      DeliveryPhaseOutcome(cfg, w1, due, cycle);
    }
  }
}
