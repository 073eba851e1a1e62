/** When a claim fails for all rules, and how giving a rule a cron schedule can make it fail. */
module WorkerClaims {
  import Durations
  import opened Wrappers
  import NotificationEvents
  import opened Schedules
  import opened Rules
  import Deduplication
  import opened Worker
  import opened WorkerFacts
  import WorkerCron

  // ---- Exactly when a claim fails ---------------------------------------------------

  /** One of the two single-row queries for this rule finds several rows. */
  predicate SeesTwoRows(cfg: Config, w: World, rule: Rule, now: int) {
    && HasPrefix(rule.schedule, CRON) && cfg.cal.cronValid(Body(rule.schedule))
    && var slot := cfg.cal.lastSlot(Body(rule.schedule), now);
    && now - slot <= cfg.windowMinutes * Durations.MINUTE
    && (|| CountRuns(w.runs, rule.id, slot) > 1
        || (CountRuns(w.runs, rule.id, slot) == 0 && CountFinished(w.events, rule.id, slot) > 1))
  }

  lemma IsDueFailsIff(cfg: Config, w: World, rule: Rule, now: int)
    ensures IsDue(cfg, w, rule, now).Err? <==> SeesTwoRows(cfg, w, rule, now)
    ensures IsDue(cfg, w, rule, now).Err? ==> IsDue(cfg, w, rule, now).error == MultipleRows
  {
    hide CountRuns, CountFinished;
    if HasPrefix(rule.schedule, CRON) {
      CronDueHasSlot(cfg.cal, rule.schedule, now);
    }
  }

  ghost predicate SomeRuleSeesTwoRows(cfg: Config, w: World, now: int, n: nat)
    requires n <= |w.rules|
  {
    exists k :: 0 <= k < n && w.rules[k].enabled && SeesTwoRows(cfg, w, w.rules[k], now)
  }

  lemma {:induction false} ClaimFailsAmongIff(cfg: Config, w: World, now: int, n: nat)
    requires n <= |w.rules|
    ensures Claimed(cfg, w, now, n).Err? <==> SomeRuleSeesTwoRows(cfg, w, now, n)
    ensures Claimed(cfg, w, now, n).Err? ==> Claimed(cfg, w, now, n).error == MultipleRows
  {
    hide IsDue, SeesTwoRows;
    if n > 0 {
      ClaimFailsAmongIff(cfg, w, now, n - 1);
      IsDueFailsIff(cfg, w, w.rules[n - 1], now);
      assert SomeRuleSeesTwoRows(cfg, w, now, n) <==>
          SomeRuleSeesTwoRows(cfg, w, now, n - 1)
          || (w.rules[n - 1].enabled && SeesTwoRows(cfg, w, w.rules[n - 1], now));
    }
  }

  /**
    The claim of all rules fails exactly when some enabled rule has a valid cron schedule with its
    last slot in the window and either several runs since the slot, or none but several finished
    events.
   */
  lemma ClaimFailsIff(cfg: Config, w: World, now: int)
    ensures Claimed(cfg, w, now, |w.rules|).Err? <==>
              exists k :: 0 <= k < |w.rules| && w.rules[k].enabled && SeesTwoRows(cfg, w, w.rules[k], now)
    ensures Claimed(cfg, w, now, |w.rules|).Err? ==> Claimed(cfg, w, now, |w.rules|).error == MultipleRows
  {
    hide Claimed, SeesTwoRows;
    ClaimFailsAmongIff(cfg, w, now, |w.rules|);
  }

  // ---- Rescheduling -----------------------------------------------------------------

  lemma DeliverKeepsRuns(cfg: Config, w: World, rule: Rule, c: Deduplication.Candidate, a: Attempt)
    requires Deliver(cfg, w, rule, c, a).Ok?
    ensures var w' := Deliver(cfg, w, rule, c, a).value; w'.runs == w.runs && w'.clock >= w.clock
  {
    hide Suppression, Deduplication.CandidateHash, NotificationEvents.CreateOnce,
         NotificationEvents.SentTable, NotificationEvents.SuppressedTable;
  }

  lemma {:induction false} DeliveredKeepsRuns(cfg: Config, w: World, due: seq<Rule>, cycle: Cycle, n: nat)
    requires n <= |due| && Delivered(cfg, w, due, cycle, n).Ok?
    ensures var v := Delivered(cfg, w, due, cycle, n).value.0; v.runs == w.runs && v.clock >= w.clock
  {
    hide Deliver, ScheduledKey;
    if n > 0 {
      DeliveredKeepsRuns(cfg, w, due, cycle, n - 1);
      var (v, keys) := Delivered(cfg, w, due, cycle, n - 1).value;
      var outcome := cycle.evaluate(n - 1).outcome;
      if outcome.Found? && Deliver(cfg, v, due[n - 1], outcome.candidate, cycle.attempt(n - 1)).Ok? {
        DeliverKeepsRuns(cfg, v, due[n - 1], outcome.candidate, cycle.attempt(n - 1));
      }
    }
  }

  /** The claim of this cycle gets its lock and does not fail. */
  predicate Claims(cfg: Config, w: World, cycle: Cycle) {
    cycle.lockFree && Claimed(cfg, w.(clock := w.clock + cycle.claimDelay), w.clock + cycle.claimDelay, |w.rules|).Ok?
  }

  function DueIn(cfg: Config, w: World, cycle: Cycle): seq<Rule>
    requires Claims(cfg, w, cycle)
  {
    Claimed(cfg, w.(clock := w.clock + cycle.claimDelay), w.clock + cycle.claimDelay, |w.rules|).value
  }

  ghost predicate RunAdded(w: World, w': World, rule: int) {
    && w.runs <= w'.runs && w'.clock >= w.clock
    && exists k :: |w.runs| <= k < |w'.runs| && w'.runs[k].rule == rule && w'.runs[k].at >= w.clock
  }

  /** A cycle adds a run of every enabled unscheduled rule whose evaluation does not raise. */
  lemma UnscheduledRuleGetsARun(cfg: Config, w: World, cycle: Cycle, k: nat)
    requires Claims(cfg, w, cycle) && k < |w.rules| && w.rules[k].enabled && w.rules[k].schedule.None?
    requires WorkerCron.EvaluatesWithoutRaising(DueIn(cfg, w, cycle), cycle, w.rules[k].id)
    ensures RunAdded(w, RunCycle(cfg, w, cycle), w.rules[k].id)
  {
    hide Claimed, Evaluated, Delivered;
    var r, w0, due := w.rules[k], w.(clock := w.clock + cycle.claimDelay), DueIn(cfg, w, cycle);
    DueAreClaimed(cfg, w0, w0.clock, |w0.rules|, k);
    var p :| 0 <= p < |due| && due[p] == r;
    EvaluatedAddsRuns(w0, due, cycle, |due|);
    EvaluatedHasRun(w0, due, cycle, |due|, p);
    var w1, w' := Evaluated(w0, due, cycle, |due|), RunCycle(cfg, w, cycle);
    if Delivered(cfg, w1, due, cycle, |due|).Ok? {
      DeliveredKeepsRuns(cfg, w1, due, cycle, |due|);
    }
    var q :| |w0.runs| <= q < |w1.runs| && w1.runs[q].rule == r.id;
    assert w'.runs == w1.runs && w'.runs[q].at >= w.clock;
  }

  lemma {:induction false} TwoRunsCounted(runs: seq<EvaluationRun>, rule: int, since: int, i: nat, j: nat)
    requires i < j < |runs| && RunSince(runs[i], rule, since) && RunSince(runs[j], rule, since)
    ensures CountRuns(runs, rule, since) > 1
  {
    var n := |runs| - 1;
    if j < n {
      TwoRunsCounted(runs[..n], rule, since, i, j);
    } else {
      WorkerCron.NoRunCounted(runs[..n], rule, since);
      assert RunSince(runs[..n][i], rule, since);
    }
  }

  lemma TwoRunsAdded(w: World, w1: World, w1': World, w2: World, rule: int, slot: int)
    requires RunAdded(w, w1, rule) && w1'.runs == w1.runs && w1'.clock >= w1.clock && RunAdded(w1', w2, rule)
    requires slot <= w.clock
    ensures CountRuns(w2.runs, rule, slot) > 1
  {
    var i :| |w.runs| <= i < |w1.runs| && w1.runs[i].rule == rule && w1.runs[i].at >= w.clock;
    var j :| |w1'.runs| <= j < |w2.runs| && w2.runs[j].rule == rule && w2.runs[j].at >= w1'.clock;
    assert w2.runs[i] == w1.runs[i];
    TwoRunsCounted(w2.runs, rule, slot, i, j);
  }

  /**
    Two claims evaluate a rule while it has no schedule, whatever other rules there are and
    whatever happens to the table meanwhile.  If the rule is then given a valid cron schedule
    whose last slot is in the window and not after the first of the two cycles, every claim
    fails, for all rules.
   */
  lemma ReschedulingCanBlockEveryClaim(cfg: Config, w: World, k: nat, c1: Cycle, rules1: seq<Rule>, d1: nat, k1: nat,
                                       c2: Cycle, rules2: seq<Rule>, d2: nat, k2: nat, now: int)
    requires k < |w.rules| && w.rules[k].enabled && w.rules[k].schedule.None?
    requires Claims(cfg, w, c1) && WorkerCron.EvaluatesWithoutRaising(DueIn(cfg, w, c1), c1, w.rules[k].id)
    requires k1 < |rules1| && rules1[k1].enabled && rules1[k1].schedule.None? && rules1[k1].id == w.rules[k].id
    requires var w1 := Act(cfg, RunCycle(cfg, w, c1), Edit(rules1, d1));
             Claims(cfg, w1, c2) && WorkerCron.EvaluatesWithoutRaising(DueIn(cfg, w1, c2), c2, w.rules[k].id)
    requires k2 < |rules2| && rules2[k2].enabled && rules2[k2].id == w.rules[k].id
    requires HasPrefix(rules2[k2].schedule, CRON) && cfg.cal.cronValid(Body(rules2[k2].schedule))
    requires cfg.cal.lastSlot(Body(rules2[k2].schedule), now) <= w.clock
    requires now - cfg.cal.lastSlot(Body(rules2[k2].schedule), now) <= cfg.windowMinutes * Durations.MINUTE
    ensures var w1 := Act(cfg, RunCycle(cfg, w, c1), Edit(rules1, d1));
            var w3 := Act(cfg, RunCycle(cfg, w1, c2), Edit(rules2, d2));
            Claimed(cfg, w3, now, |w3.rules|) == Err(MultipleRows)
  {
    hide Claims, DueIn, RunCycle, RunAdded, Claimed;
    var u := RunCycle(cfg, w, c1);
    var w1 := Act(cfg, u, Edit(rules1, d1));
    var w2 := RunCycle(cfg, w1, c2);
    var w3 := Act(cfg, w2, Edit(rules2, d2));
    UnscheduledRuleGetsARun(cfg, w, c1, k);
    UnscheduledRuleGetsARun(cfg, w1, c2, k1);
    TwoRunsAdded(w, u, w1, w2, w.rules[k].id, cfg.cal.lastSlot(Body(rules2[k2].schedule), now));
    ClaimFailsIff(cfg, w3, now);
    assert SeesTwoRows(cfg, w3, w3.rules[k2], now);
  }

  /** A dry-run cycle that gets its lock, evaluates every due rule and leaves the rule table alone. */
  predicate Quiet(cycle: Cycle) {
    cycle.lockFree && cycle.dryRun
  }

  lemma QuietCycleKeepsRules(cfg: Config, w: World, cycle: Cycle)
    requires Quiet(cycle)
    ensures RunCycle(cfg, w, cycle).rules == w.rules
  {
    hide Claimed;
    var w0 := w.(clock := w.clock + cycle.claimDelay);
    var claimed := Claimed(cfg, w0, w0.clock, |w0.rules|);
    if claimed.Ok? {
      EvaluatedAddsRuns(w0, claimed.value, cycle, |claimed.value|);
    }
  }

  lemma NoCronNoFailure(cfg: Config, w: World, cycle: Cycle)
    requires cycle.lockFree
    requires forall i :: 0 <= i < |w.rules| ==> !HasPrefix(w.rules[i].schedule, CRON)
    ensures Claims(cfg, w, cycle)
  {
    hide Claimed;
    ClaimFailsIff(cfg, w.(clock := w.clock + cycle.claimDelay), w.clock + cycle.claimDelay);
  }

  /**
    Such runs exist around every rule: from any table without cron schedules, with any other
    rules in it, two cycles that raise nothing and the rescheduling of one enabled unscheduled
    rule lead to a world whose claim fails.
   */
  lemma ReschedulingRun(cfg: Config, w: World, k: nat, c1: Cycle, c2: Cycle, schedule: Option<string>, now: int)
    returns (ws: seq<World>, moves: seq<Move>)
    requires TableSound(w) && w.deliveries == [] && InKeyOrder(w.rules)
    requires forall i :: 0 <= i < |w.rules| ==> !HasPrefix(w.rules[i].schedule, CRON)
    requires k < |w.rules| && w.rules[k].enabled && w.rules[k].schedule.None?
    requires Quiet(c1) && Quiet(c2)
    requires forall i: nat :: !c1.evaluate(i).outcome.Raised? && !c2.evaluate(i).outcome.Raised?
    requires HasPrefix(schedule, CRON) && cfg.cal.cronValid(Body(schedule))
    requires cfg.cal.lastSlot(Body(schedule), now) <= w.clock
    requires now - cfg.cal.lastSlot(Body(schedule), now) <= cfg.windowMinutes * Durations.MINUTE
    ensures WorkerRun(cfg, ws, moves) && |ws| == 5 && ws[0] == w
    ensures ws[4].rules == w.rules[k := w.rules[k].(schedule := schedule)]
    ensures Claimed(cfg, ws[4], now, |ws[4].rules|) == Err(MultipleRows)
  {
    hide Claims, DueIn, RunCycle, Claimed, TableSound;
    var rules2 := w.rules[k := w.rules[k].(schedule := schedule)];
    moves := [Turn(c1), Edit(w.rules, 0), Turn(c2), Edit(rules2, 0)];
    var u := RunCycle(cfg, w, c1);
    var w1 := Act(cfg, u, moves[1]);
    var w2 := RunCycle(cfg, w1, c2);
    ws := [w, u, w1, w2, Act(cfg, w2, moves[3])];
    QuietCycleKeepsRules(cfg, w, c1);
    QuietCycleKeepsRules(cfg, w1, c2);
    NoCronNoFailure(cfg, w, c1);
    NoCronNoFailure(cfg, w1, c2);
    ReschedulingCanBlockEveryClaim(cfg, w, k, c1, w.rules, 0, k, c2, rules2, 0, k, now);
  }
}
