/**
  Cron rules in runs of one worker whose rules keep their schedules: evaluations are
  separated by slots, the claim's queries never see two rows, and no slot is skipped.
 */
module WorkerCron {
  import Durations
  import opened Wrappers
  import opened NotificationEvents
  import opened Schedules
  import opened Rules
  import opened Worker
  import opened WorkerFacts

  // ---- Invariant --------------------------------------------------------------------

  /** Between two runs of the rule lies a slot: the last slot at the later run is after the earlier run. */
  ghost predicate RunsSeparated(cal: Calendar, expr: string, runs: seq<EvaluationRun>, rule: int) {
    forall i, j :: 0 <= i < j < |runs| && runs[i].rule == rule && runs[j].rule == rule ==>
      runs[i].at < cal.lastSlot(expr, runs[j].at)
  }

  /** Every event of the rule but the newest is no later than some run of the rule. */
  ghost predicate EventsCovered(w: World, rule: int) {
    forall i, j :: 0 <= i < j < |w.events| && w.events[i].rule == rule && w.events[j].rule == rule ==>
      RunNotBefore(w.runs, rule, w.events[i].createdAt)
  }

  ghost predicate RunNotBefore(runs: seq<EvaluationRun>, rule: int, at: int) {
    exists k :: 0 <= k < |runs| && runs[k].rule == rule && runs[k].at >= at
  }

  ghost predicate RunsInThePast(w: World) {
    forall k :: 0 <= k < |w.runs| ==> w.runs[k].at <= w.clock
  }

  ghost predicate CronInv(cal: Calendar, expr: string, w: World, rule: int) {
    && TableSound(w)
    && RunsInThePast(w)
    && RunsSeparated(cal, expr, w.runs, rule)
    && EventsCovered(w, rule)
  }

  /** The rule's schedule in this world, whenever the rule is there. */
  ghost predicate Keeps(w: World, rule: int, schedule: Option<string>) {
    forall i :: 0 <= i < |w.rules| && w.rules[i].id == rule ==> w.rules[i].schedule == schedule
  }

  // ---- Counting rows ----------------------------------------------------------------

  lemma {:induction false} NoRunCounted(runs: seq<EvaluationRun>, rule: int, since: int)
    ensures CountRuns(runs, rule, since) == 0 <==>
              forall k :: 0 <= k < |runs| ==> !RunSince(runs[k], rule, since)
  {
    if runs != [] {
      var n := |runs| - 1;
      NoRunCounted(runs[..n], rule, since);
      assert forall k :: 0 <= k < n ==> runs[..n][k] == runs[k];
    }
  }

  lemma {:induction false} FewRunsCounted(runs: seq<EvaluationRun>, rule: int, since: int)
    requires forall i, j :: 0 <= i < j < |runs| ==> !(RunSince(runs[i], rule, since) && RunSince(runs[j], rule, since))
    ensures CountRuns(runs, rule, since) <= 1
  {
    if runs != [] {
      var n := |runs| - 1;
      FewRunsCounted(runs[..n], rule, since);
      NoRunCounted(runs[..n], rule, since);
    }
  }

  lemma {:induction false} NoEventCounted(t: Table, rule: int, since: int)
    ensures CountFinished(t, rule, since) == 0 <==>
              forall k :: 0 <= k < |t| ==> !FinishedSince(t[k], rule, since)
  {
    if t != [] {
      var n := |t| - 1;
      NoEventCounted(t[..n], rule, since);
      assert forall k :: 0 <= k < n ==> t[..n][k] == t[k];
    }
  }

  lemma {:induction false} FewEventsCounted(t: Table, rule: int, since: int)
    requires forall i, j :: 0 <= i < j < |t| ==> !(FinishedSince(t[i], rule, since) && FinishedSince(t[j], rule, since))
    ensures CountFinished(t, rule, since) <= 1
  {
    if t != [] {
      var n := |t| - 1;
      FewEventsCounted(t[..n], rule, since);
      NoEventCounted(t[..n], rule, since);
    }
  }

  // ---- The claim --------------------------------------------------------------------

  /** Under the invariant both `scalar_one_or_none` queries of the claim see at most one row. */
  lemma QueriesSeeAtMostOneRow(cal: Calendar, expr: string, w: World, rule: int, now: int)
    requires Lawful(cal) && cal.cronValid(expr) && CronInv(cal, expr, w, rule) && w.clock <= now
    ensures CountRuns(w.runs, rule, cal.lastSlot(expr, now)) <= 1
    ensures CountRuns(w.runs, rule, cal.lastSlot(expr, now)) == 0 ==>
              CountFinished(w.events, rule, cal.lastSlot(expr, now)) <= 1
  {
    var slot := cal.lastSlot(expr, now);
    forall i, j | 0 <= i < j < |w.runs| && w.runs[i].rule == rule && w.runs[j].rule == rule
      ensures w.runs[i].at < slot
    {
      LastSlotMonotone(cal, expr, w.runs[j].at, now);
    }
    FewRunsCounted(w.runs, rule, slot);
    NoRunCounted(w.runs, rule, slot);
    if CountRuns(w.runs, rule, slot) == 0 {
      forall i, j | 0 <= i < j < |w.events| && w.events[i].rule == rule && w.events[j].rule == rule
        ensures w.events[i].createdAt < slot
      {
        assert RunNotBefore(w.runs, rule, w.events[i].createdAt);
        var k :| 0 <= k < |w.runs| && w.runs[k].rule == rule && w.runs[k].at >= w.events[i].createdAt;
        assert !RunSince(w.runs[k], rule, slot);
      }
      FewEventsCounted(w.events, rule, slot);
    }
  }

  /** A claimed cron rule has no run since its last slot. */
  lemma ClaimedCronHasNoRunSinceSlot(cfg: Config, w: World, rule: Rule, now: int, k: nat)
    requires HasPrefix(rule.schedule, CRON) && IsDue(cfg, w, rule, now) == Ok(true)
    requires k < |w.runs| && w.runs[k].rule == rule.id
    ensures cfg.cal.cronValid(Body(rule.schedule))
    ensures w.runs[k].at < cfg.cal.lastSlot(Body(rule.schedule), now)
  {
    CronDueHasSlot(cfg.cal, rule.schedule, now);
    var slot := cfg.cal.lastSlot(Body(rule.schedule), now);
    NoRunCounted(w.runs, rule.id, slot);
    assert !RunSince(w.runs[k], rule.id, slot);
  }

  // ---- Evaluation keeps the invariant -----------------------------------------------

  lemma AddedRunKeepsSeparated(cal: Calendar, expr: string, runs: seq<EvaluationRun>, run: EvaluationRun, rule: int)
    requires RunsSeparated(cal, expr, runs, rule)
    requires run.rule == rule ==> forall i :: 0 <= i < |runs| && runs[i].rule == rule ==> runs[i].at < cal.lastSlot(expr, run.at)
    ensures RunsSeparated(cal, expr, runs + [run], rule)
  {
  }

  /** Up to the first due rule with this id, the evaluation has added no run of it. */
  lemma RunsOfRuleAreOld(cfg: Config, w: World, due: seq<Rule>, cycle: Cycle, n: nat, rule: int, i: nat)
    requires InKeyOrder(due) && n < |due| && due[n].id == rule
    requires var u := Evaluated(w, due, cycle, n); i < |u.runs| && u.runs[i].rule == rule
    ensures i < |w.runs| && w.runs[i] == Evaluated(w, due, cycle, n).runs[i]
    ensures Evaluated(w, due, cycle, n).clock >= w.clock
  {
    hide Evaluated;
    EvaluatedAddsRuns(w, due, cycle, n);
    EvaluatedOnlyDue(w, due, cycle, n, rule);
  }

  lemma {:induction false} EvaluationKeepsRunsSeparated(cfg: Config, w: World, due: seq<Rule>, cycle: Cycle,
                                                        n: nat, rule: int, schedule: Option<string>)
    requires Lawful(cfg.cal) && HasPrefix(schedule, CRON) && cfg.cal.cronValid(Body(schedule))
    requires InKeyOrder(due) && n <= |due|
    requires RunsSeparated(cfg.cal, Body(schedule), w.runs, rule)
    requires forall i :: 0 <= i < |due| && due[i].id == rule ==>
               due[i].schedule == schedule && IsDue(cfg, w, due[i], w.clock) == Ok(true)
    ensures RunsSeparated(cfg.cal, Body(schedule), Evaluated(w, due, cycle, n).runs, rule)
  {
    hide RunsSeparated, IsDue, Body, Lawful;
    if n > 0 {
      EvaluationKeepsRunsSeparated(cfg, w, due, cycle, n - 1, rule, schedule);
      var u, v := Evaluated(w, due, cycle, n - 1), Evaluated(w, due, cycle, n);
      if !cycle.evaluate(n - 1).outcome.Raised? {
        forall i | 0 <= i < |u.runs| && u.runs[i].rule == rule && due[n - 1].id == rule
          ensures u.runs[i].at < cfg.cal.lastSlot(Body(schedule), v.clock)
        {
          RunsOfRuleAreOld(cfg, w, due, cycle, n - 1, rule, i);
          ClaimedCronHasNoRunSinceSlot(cfg, w, due[n - 1], w.clock, i);
          LastSlotMonotone(cfg.cal, Body(schedule), w.clock, v.clock);
        }
        AddedRunKeepsSeparated(cfg.cal, Body(schedule), u.runs, v.runs[|u.runs|], rule);
      }
    }
  }

  // ---- Delivery keeps the invariant -------------------------------------------------

  ghost predicate EventsUpTo(t: Table, rule: int, at: int) {
    forall k :: 0 <= k < |t| && t[k].rule == rule ==> t[k].createdAt <= at
  }

  lemma StepKeepsEventsCovered(w: World, w': World, r: Rule, rule: int)
    requires DeliveryStep(w, w', r) && EventsCovered(w, rule)
    requires r.id == rule ==>
               forall k :: 0 <= k < |w.events| && w.events[k].rule == rule ==>
                 RunNotBefore(w.runs, rule, w.events[k].createdAt)
    ensures EventsCovered(w', rule)
  {
    hide RunNotBefore;
  }

  lemma StepKeepsEventsUpTo(w: World, w': World, r: Rule, rule: int, since: int)
    requires DeliveryStep(w, w', r) && EventsUpTo(w.events, rule, since) && r.id != rule
    ensures EventsUpTo(w'.events, rule, since)
  {
  }

  lemma RunCoversEvents(runs: seq<EvaluationRun>, t: Table, rule: int, since: int, k: nat)
    requires RunNotBefore(runs, rule, since) && EventsUpTo(t, rule, since)
    requires k < |t| && t[k].rule == rule
    ensures RunNotBefore(runs, rule, t[k].createdAt)
  {
  }

  lemma {:induction false} DeliveryKeepsEventsCovered(cfg: Config, w: World, due: seq<Rule>, cycle: Cycle,
                                                      n: nat, rule: int, since: int)
    requires TableSound(w) && EventsCovered(w, rule) && EventsUpTo(w.events, rule, since)
    requires InKeyOrder(due) && n <= |due|
    requires forall i :: 0 <= i < |due| && due[i].id == rule && cycle.evaluate(i).outcome.Found? ==>
               RunNotBefore(w.runs, rule, since)
    ensures Delivered(cfg, w, due, cycle, n).Ok?
    ensures var v := Delivered(cfg, w, due, cycle, n).value.0;
            && TableSound(v) && v.runs == w.runs && v.clock >= w.clock
            && EventsCovered(v, rule)
            && ((forall i :: 0 <= i < n ==> due[i].id != rule) ==> EventsUpTo(v.events, rule, since))
  {
    if n > 0 {
      DeliveryKeepsEventsCovered(cfg, w, due, cycle, n - 1, rule, since);
      hide TableSound, RunNotBefore, DeliverTurn, DeliveryStep, EventsUpTo, ScheduledKey, AfterCandidate;
      var (v, keys) := Delivered(cfg, w, due, cycle, n - 1).value;
      var r, outcome, a := due[n - 1], cycle.evaluate(n - 1).outcome, cycle.attempt(n - 1);
      TurnIsAStep(cfg, v, keys, r, outcome, a);
      var v' := Delivered(cfg, w, due, cycle, n).value.0;
      if TurnDelivers(cfg, keys, r, outcome) {
        if r.id == rule {
          assert forall i :: 0 <= i < n - 1 ==> due[i].id != rule;
          forall k | 0 <= k < |v.events| && v.events[k].rule == rule
            ensures RunNotBefore(v.runs, rule, v.events[k].createdAt)
          {
            RunCoversEvents(v.runs, v.events, rule, since, k);
          }
        } else if forall i :: 0 <= i < n ==> due[i].id != rule {
          StepKeepsEventsUpTo(v, v'.(rules := v.rules), r, rule, since);
        }
        StepKeepsEventsCovered(v, v'.(rules := v.rules), r, rule);
      }
    }
  }

  // ---- A move keeps the invariant ---------------------------------------------------

  lemma QuietKeepsCronInv(cal: Calendar, expr: string, w: World, w': World, rule: int)
    requires CronInv(cal, expr, w, rule)
    requires w'.runs == w.runs && w'.events == w.events && w'.clock >= w.clock
    ensures CronInv(cal, expr, w', rule)
  {
  }

  lemma EvaluationKeepsCronInv(cfg: Config, w: World, due: seq<Rule>, cycle: Cycle, rule: int, schedule: Option<string>)
    requires Lawful(cfg.cal) && HasPrefix(schedule, CRON) && cfg.cal.cronValid(Body(schedule))
    requires InKeyOrder(due) && CronInv(cfg.cal, Body(schedule), w, rule)
    requires forall i :: 0 <= i < |due| && due[i].id == rule ==>
               due[i].schedule == schedule && IsDue(cfg, w, due[i], w.clock) == Ok(true)
    ensures CronInv(cfg.cal, Body(schedule), Evaluated(w, due, cycle, |due|), rule)
  {
    hide UniqueIndex, IsDue;
    EvaluatedAddsRuns(w, due, cycle, |due|);
    EvaluationKeepsRunsSeparated(cfg, w, due, cycle, |due|, rule, schedule);
    var v := Evaluated(w, due, cycle, |due|);
    forall i, j | 0 <= i < j < |v.events| && v.events[i].rule == rule && v.events[j].rule == rule
      ensures RunNotBefore(v.runs, rule, v.events[i].createdAt)
    {
      assert RunNotBefore(w.runs, rule, w.events[i].createdAt);
      var k :| 0 <= k < |w.runs| && w.runs[k].rule == rule && w.runs[k].at >= w.events[i].createdAt;
      assert v.runs[k] == w.runs[k];
    }
  }

  lemma DeliveryKeepsCronInv(cfg: Config, w0: World, due: seq<Rule>, cycle: Cycle, rule: int, expr: string)
    requires InKeyOrder(due) && TableSound(w0)
    requires CronInv(cfg.cal, expr, Evaluated(w0, due, cycle, |due|), rule)
    ensures var w1 := Evaluated(w0, due, cycle, |due|);
            && Delivered(cfg, w1, due, cycle, |due|).Ok?
            && CronInv(cfg.cal, expr, Delivered(cfg, w1, due, cycle, |due|).value.0, rule)
  {
    hide UniqueIndex, Deliver;
    var w1 := Evaluated(w0, due, cycle, |due|);
    EvaluatedAddsRuns(w0, due, cycle, |due|);
    forall i | 0 <= i < |due| && due[i].id == rule && cycle.evaluate(i).outcome.Found?
      ensures RunNotBefore(w1.runs, rule, w0.clock)
    {
      EvaluatedHasRun(w0, due, cycle, |due|, i);
      var k :| |w0.runs| <= k < |w1.runs| && w1.runs[k].rule == due[i].id;
      assert w1.runs[k].at >= w0.clock;
    }
    DeliveryKeepsEventsCovered(cfg, w1, due, cycle, |due|, rule, w0.clock);
  }

  lemma ActKeepsCronInv(cfg: Config, w: World, m: Move, rule: int, schedule: Option<string>)
    requires Lawful(cfg.cal) && HasPrefix(schedule, CRON) && cfg.cal.cronValid(Body(schedule))
    requires InKeyOrder(w.rules) && Keeps(w, rule, schedule)
    requires CronInv(cfg.cal, Body(schedule), w, rule)
    ensures CronInv(cfg.cal, Body(schedule), Act(cfg, w, m), rule)
  {
    hide Delivered, IsDue, UniqueIndex;
    var expr := Body(schedule);
    match m
    case Edit(_, _) => QuietKeepsCronInv(cfg.cal, expr, w, Act(cfg, w, m), rule);
    case Turn(cycle) =>
      var w0 := w.(clock := w.clock + cycle.claimDelay);
      QuietKeepsCronInv(cfg.cal, expr, w, w0, rule);
      var claimed := Claimed(cfg, w0, w0.clock, |w0.rules|);
      if claimed.Ok? {
        var due := claimed.value;
        ClaimedAreDue(cfg, w0, w0.clock, |w0.rules|);
        EvaluationKeepsCronInv(cfg, w0, due, cycle, rule, schedule);
        var w1 := Evaluated(w0, due, cycle, |due|);
        QuietKeepsCronInv(cfg.cal, expr, w1, w1.(clock := w1.clock + cycle.aborted.GetOr(0)), rule);
        DeliveryKeepsCronInv(cfg, w0, due, cycle, rule, expr);
      }
  }

  // ---- Runs -------------------------------------------------------------------------

  /** Nobody changes the rule's schedule during the run. */
  ghost predicate FixedSchedule(ws: seq<World>, rule: int, schedule: Option<string>) {
    forall i :: 0 <= i < |ws| ==> Keeps(ws[i], rule, schedule)
  }

  lemma {:induction false} RunKeepsCronInv(cfg: Config, ws: seq<World>, moves: seq<Move>, n: nat,
                                           rule: int, schedule: Option<string>)
    requires Lawful(cfg.cal) && HasPrefix(schedule, CRON) && cfg.cal.cronValid(Body(schedule))
    requires WorkerRun(cfg, ws, moves) && FixedSchedule(ws, rule, schedule) && n < |ws|
    requires CronInv(cfg.cal, Body(schedule), ws[0], rule)
    ensures CronInv(cfg.cal, Body(schedule), ws[n], rule)
  {
    hide Act;
    if n > 0 {
      RunKeepsCronInv(cfg, ws, moves, n - 1, rule, schedule);
      ActKeepsCronInv(cfg, ws[n - 1], moves[n - 1], rule, schedule);
    }
  }

  /** Each slot is consumed at most once: a slot lies between any two evaluations of a cron rule. */
  lemma EvaluationsAreSeparatedBySlots(cfg: Config, ws: seq<World>, moves: seq<Move>, n: nat,
                                       rule: int, schedule: Option<string>, i: nat, j: nat)
    requires Lawful(cfg.cal) && HasPrefix(schedule, CRON) && cfg.cal.cronValid(Body(schedule))
    requires WorkerRun(cfg, ws, moves) && FixedSchedule(ws, rule, schedule) && n < |ws|
    requires CronInv(cfg.cal, Body(schedule), ws[0], rule)
    requires i < j < |ws[n].runs| && ws[n].runs[i].rule == rule && ws[n].runs[j].rule == rule
    ensures exists slot :: cfg.cal.isSlot(Body(schedule), slot) && ws[n].runs[i].at < slot <= ws[n].runs[j].at
    ensures cfg.cal.lastSlot(Body(schedule), ws[n].runs[i].at) != cfg.cal.lastSlot(Body(schedule), ws[n].runs[j].at)
  {
    RunKeepsCronInv(cfg, ws, moves, n, rule, schedule);
    var at := ws[n].runs[j].at;
    assert IsLastSlot(cfg.cal, Body(schedule), at, cfg.cal.lastSlot(Body(schedule), at));
    var at' := ws[n].runs[i].at;
    assert IsLastSlot(cfg.cal, Body(schedule), at', cfg.cal.lastSlot(Body(schedule), at'));
  }

  /** Schedules assigned once and for all, to every rule that ever appears. */
  ghost predicate AllSchedulesFixed(ws: seq<World>, schedules: map<int, Option<string>>) {
    forall i, k :: 0 <= i < |ws| && 0 <= k < |ws[i].rules| ==>
      ws[i].rules[k].id in schedules && ws[i].rules[k].schedule == schedules[ws[i].rules[k].id]
  }

  /** The cron rules among them start with separated runs and covered events, as in empty tables. */
  ghost predicate CronStart(cal: Calendar, w: World, schedules: map<int, Option<string>>) {
    forall id :: id in schedules && HasPrefix(schedules[id], CRON) && cal.cronValid(Body(schedules[id])) ==>
      CronInv(cal, Body(schedules[id]), w, id)
  }

  /** With fixed schedules no claim of a single worker ever fails on a multiple-row result. */
  lemma ClaimsNeverSeeTwoRows(cfg: Config, ws: seq<World>, moves: seq<Move>, n: nat, now: int,
                              schedules: map<int, Option<string>>)
    requires Lawful(cfg.cal) && WorkerRun(cfg, ws, moves) && AllSchedulesFixed(ws, schedules)
    requires CronStart(cfg.cal, ws[0], schedules)
    requires n < |ws| && now >= ws[n].clock
    ensures Claimed(cfg, ws[n], now, |ws[n].rules|).Ok?
  {
    var w := ws[n];
    forall k | 0 <= k < |w.rules| && w.rules[k].enabled ensures IsDue(cfg, w, w.rules[k], now).Ok? {
      var r := w.rules[k];
      if HasPrefix(r.schedule, CRON) && IsRuleDue(cfg.cal, r.schedule, now) {
        CronDueHasSlot(cfg.cal, r.schedule, now);
        assert FixedSchedule(ws, r.id, r.schedule);
        RunKeepsCronInv(cfg, ws, moves, n, r.id, r.schedule);
        QueriesSeeAtMostOneRow(cfg.cal, Body(r.schedule), w, r.id, now);
      }
    }
    ClaimNeverFails(cfg, w, now, |w.rules|);
  }

  /** The instant at which the cycle of move `i` claims. */
  function ClaimInstant(w: World, m: Move): int
    requires m.Turn?
  {
    w.clock + m.cycle.claimDelay
  }

  /** The slot has been used: an evaluation, or a notification created and finished, at or after it. */
  ghost predicate SlotServed(w: World, rule: int, slot: int) {
    || (exists k :: 0 <= k < |w.runs| && w.runs[k].rule == rule && w.runs[k].at >= slot)
    || (exists k :: 0 <= k < |w.events| && w.events[k].rule == rule && w.events[k].createdAt >= slot
                    && w.events[k].status in {Sent, Suppressed})
  }

  lemma ServedIsCounted(w: World, rule: int, slot: int)
    ensures SlotServed(w, rule, slot) <==> CountRuns(w.runs, rule, slot) > 0 || CountFinished(w.events, rule, slot) > 0
  {
    NoRunCounted(w.runs, rule, slot);
    NoEventCounted(w.events, rule, slot);
    if CountRuns(w.runs, rule, slot) > 0 {
      var k :| 0 <= k < |w.runs| && RunSince(w.runs[k], rule, slot);
      assert w.runs[k].rule == rule;
    }
    if CountFinished(w.events, rule, slot) > 0 {
      var k :| 0 <= k < |w.events| && FinishedSince(w.events[k], rule, slot);
      assert w.events[k].rule == rule;
    }
    if k :| 0 <= k < |w.runs| && w.runs[k].rule == rule && w.runs[k].at >= slot {
      assert RunSince(w.runs[k], rule, slot);
    }
    if k :| 0 <= k < |w.events| && w.events[k].rule == rule && w.events[k].createdAt >= slot
            && w.events[k].status in {Sent, Suppressed}
    {
      assert FinishedSince(w.events[k], rule, slot);
    }
  }

  lemma {:induction false} SameTablesSameClaim(cfg: Config, w: World, w': World, now: int, n: nat)
    requires n <= |w.rules| && w'.rules == w.rules && w'.runs == w.runs && w'.events == w.events
    ensures Claimed(cfg, w', now, n) == Claimed(cfg, w, now, n)
  {
    if n > 0 {
      SameTablesSameClaim(cfg, w, w', now, n - 1);
    }
  }

  /**
    Exactly when a claim collects an enabled cron rule: its last slot is no older than the
    evaluation window and not served yet.
   */
  lemma CronRuleIsCollectedIff(cfg: Config, ws: seq<World>, moves: seq<Move>, n: nat, k: nat, now: int,
                               schedules: map<int, Option<string>>)
    requires Lawful(cfg.cal) && WorkerRun(cfg, ws, moves) && AllSchedulesFixed(ws, schedules)
    requires CronStart(cfg.cal, ws[0], schedules)
    requires n < |ws| && k < |ws[n].rules| && ws[n].rules[k].enabled && now >= ws[n].clock
    requires var s := ws[n].rules[k].schedule; HasPrefix(s, CRON) && cfg.cal.cronValid(Body(s))
    ensures var w, r := ws[n], ws[n].rules[k];
            var slot := cfg.cal.lastSlot(Body(r.schedule), now);
            && Claimed(cfg, w.(clock := now), now, |w.rules|).Ok?
            && (r in Claimed(cfg, w.(clock := now), now, |w.rules|).value <==>
                  now - slot <= cfg.windowMinutes * Durations.MINUTE && !SlotServed(w, r.id, slot))
  {
    var r, w0 := ws[n].rules[k], ws[n].(clock := now);
    ClaimsNeverSeeTwoRows(cfg, ws, moves, n, now, schedules);
    SameTablesSameClaim(cfg, ws[n], w0, now, |w0.rules|);
    CronDueHasSlot(cfg.cal, r.schedule, now);
    DueAreClaimed(cfg, w0, now, |w0.rules|, k);
    assert FixedSchedule(ws, r.id, r.schedule);
    RunKeepsCronInv(cfg, ws, moves, n, r.id, r.schedule);
    QueriesSeeAtMostOneRow(cfg.cal, Body(r.schedule), ws[n], r.id, now);
    ClaimedAreDue(cfg, w0, now, |w0.rules|);
    ServedIsCounted(ws[n], r.id, cfg.cal.lastSlot(Body(r.schedule), now));
  }

  /**
    No slot is skipped.  Take an enabled cron rule, two claims at most the evaluation window
    apart, and a slot after the earlier claim that is the last one at the later claim: then the
    later claim collects the rule, or the slot has already been served.
   */
  lemma NoSlotIsSkipped(cfg: Config, ws: seq<World>, moves: seq<Move>, i: nat, j: nat, k: nat,
                        schedules: map<int, Option<string>>)
    requires Lawful(cfg.cal) && WorkerRun(cfg, ws, moves) && AllSchedulesFixed(ws, schedules)
    requires CronStart(cfg.cal, ws[0], schedules)
    requires i < j < |moves| && moves[i].Turn? && moves[j].Turn?
    requires k < |ws[j].rules| && ws[j].rules[k].enabled
    requires var s := ws[j].rules[k].schedule; HasPrefix(s, CRON) && cfg.cal.cronValid(Body(s))
    requires ClaimInstant(ws[j], moves[j]) - ClaimInstant(ws[i], moves[i]) <= cfg.windowMinutes * Durations.MINUTE
    requires ClaimInstant(ws[i], moves[i])
             < cfg.cal.lastSlot(Body(ws[j].rules[k].schedule), ClaimInstant(ws[j], moves[j]))
    ensures var w, r, now := ws[j], ws[j].rules[k], ClaimInstant(ws[j], moves[j]);
            var slot := cfg.cal.lastSlot(Body(r.schedule), now);
            && Claimed(cfg, w.(clock := now), now, |w.rules|).Ok?
            && (r in Claimed(cfg, w.(clock := now), now, |w.rules|).value <==> !SlotServed(w, r.id, slot))
  {
    hide Claimed, AllSchedulesFixed, CronStart, SlotServed;
    CronRuleIsCollectedIff(cfg, ws, moves, j, k, ClaimInstant(ws[j], moves[j]), schedules);
  }

  /** A collected rule whose evaluation does not raise uses up its slot. */
  lemma CollectedRuleServesItsSlot(cfg: Config, w: World, due: seq<Rule>, cycle: Cycle, p: nat, slot: int)
    requires p < |due| && !cycle.evaluate(p).outcome.Raised? && slot <= w.clock
    ensures SlotServed(Evaluated(w, due, cycle, |due|), due[p].id, slot)
  {
    EvaluatedAddsRuns(w, due, cycle, |due|);
    EvaluatedHasRun(w, due, cycle, |due|, p);
    var v := Evaluated(w, due, cycle, |due|);
    var k :| |w.runs| <= k < |v.runs| && v.runs[k].rule == due[p].id;
    assert v.runs[k].at >= slot;
  }

  // ---- Slots are served -------------------------------------------------------------

  lemma ServedStaysServed(w: World, w': World, rule: int, slot: int)
    requires w.runs <= w'.runs && FinishedRowsKept(w.events, w'.events) && SlotServed(w, rule, slot)
    ensures SlotServed(w', rule, slot)
  {
    if k :| 0 <= k < |w.runs| && w.runs[k].rule == rule && w.runs[k].at >= slot {
      assert w'.runs[k] == w.runs[k];
    } else {
      var k :| 0 <= k < |w.events| && w.events[k].rule == rule && w.events[k].createdAt >= slot
               && w.events[k].status in {Sent, Suppressed};
      assert w'.events[k] == w.events[k];
    }
  }

  /** No evaluation of the rule raises in this cycle. */
  ghost predicate EvaluatesWithoutRaising(due: seq<Rule>, cycle: Cycle, rule: int) {
    forall p :: 0 <= p < |due| && due[p].id == rule ==> !cycle.evaluate(p).outcome.Raised?
  }

  /** A cycle that collects the rule and evaluates it without raising serves every slot up to its claim. */
  lemma CollectingCycleServes(cfg: Config, w: World, cycle: Cycle, r: Rule, slot: int)
    requires TableSound(w) && InKeyOrder(w.rules) && cycle.lockFree && slot <= w.clock + cycle.claimDelay
    requires var w0 := w.(clock := w.clock + cycle.claimDelay);
             var claimed := Claimed(cfg, w0, w0.clock, |w0.rules|);
             claimed.Ok? && r in claimed.value && EvaluatesWithoutRaising(claimed.value, cycle, r.id)
    ensures SlotServed(RunCycle(cfg, w, cycle), r.id, slot)
  {
    hide SlotServed, Delivered, Evaluated, Claimed, UniqueIndex, RowSound;
    var w0 := w.(clock := w.clock + cycle.claimDelay);
    var due := Claimed(cfg, w0, w0.clock, |w0.rules|).value;
    var p :| 0 <= p < |due| && due[p] == r;
    CollectedRuleServesItsSlot(cfg, w0, due, cycle, p, slot);
    var w1 := Evaluated(w0, due, cycle, |due|);
    EvaluatedAddsRuns(w0, due, cycle, |due|);
    LaterIsSound(w, w1);
    DeliveredKeepsHistory(cfg, w1, due, cycle, |due|);
    ServedStaysServed(w1, RunCycle(cfg, w, cycle), r.id, slot);
  }

  /**
    Every slot is served.  Under the hypotheses of NoSlotIsSkipped a lock-free cycle in which no
    evaluation of the rule raises ends with the slot used.
   */
  lemma EverySlotIsServed(cfg: Config, ws: seq<World>, moves: seq<Move>, i: nat, j: nat, k: nat,
                          schedules: map<int, Option<string>>)
    requires Lawful(cfg.cal) && WorkerRun(cfg, ws, moves) && AllSchedulesFixed(ws, schedules)
    requires CronStart(cfg.cal, ws[0], schedules)
    requires i < j < |moves| && moves[i].Turn? && moves[j].Turn?
    requires k < |ws[j].rules| && ws[j].rules[k].enabled
    requires var s := ws[j].rules[k].schedule; HasPrefix(s, CRON) && cfg.cal.cronValid(Body(s))
    requires ClaimInstant(ws[j], moves[j]) - ClaimInstant(ws[i], moves[i]) <= cfg.windowMinutes * Durations.MINUTE
    requires ClaimInstant(ws[i], moves[i])
             < cfg.cal.lastSlot(Body(ws[j].rules[k].schedule), ClaimInstant(ws[j], moves[j]))
    requires moves[j].cycle.lockFree
    requires var w0 := ws[j].(clock := ClaimInstant(ws[j], moves[j]));
             var claimed := Claimed(cfg, w0, w0.clock, |w0.rules|);
             claimed.Ok? ==> EvaluatesWithoutRaising(claimed.value, moves[j].cycle, ws[j].rules[k].id)
    ensures SlotServed(ws[j + 1], ws[j].rules[k].id,
                       cfg.cal.lastSlot(Body(ws[j].rules[k].schedule), ClaimInstant(ws[j], moves[j])))
  {
    hide Claimed, RunCycle, SlotServed, AllSchedulesFixed, EvaluatesWithoutRaising;
    var w, r, now := ws[j], ws[j].rules[k], ClaimInstant(ws[j], moves[j]);
    var slot := cfg.cal.lastSlot(Body(r.schedule), now);
    NoSlotIsSkipped(cfg, ws, moves, i, j, k, schedules);
    RunIsSound(cfg, ws, moves, j);
    if SlotServed(w, r.id, slot) {
      CycleKeepsHistory(cfg, w, moves[j].cycle);
      ServedStaysServed(w, ws[j + 1], r.id, slot);
    } else {
      assert IsLastSlot(cfg.cal, Body(r.schedule), now, slot);
      CollectingCycleServes(cfg, w, moves[j].cycle, r, slot);
    }
  }
}
