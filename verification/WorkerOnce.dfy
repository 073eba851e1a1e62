/** The delivery loop: one delivery per scheduled key, and `once:` rules fire at most once. */
module WorkerOnce {
  import opened Wrappers
  import NotificationEvents
  import opened Schedules
  import opened Rules
  import opened Worker
  import opened WorkerFacts

  // ---- The loop refines "first candidate per key" -----------------------------------

  predicate IsCandidate(cycle: Cycle, i: nat) {
    cycle.evaluate(i).outcome.Found?
  }

  /** The `i`-th due rule is a candidate, and no earlier candidate has its scheduled key. */
  predicate Selected(due: seq<Rule>, cycle: Cycle, i: nat)
    requires i < |due|
  {
    && IsCandidate(cycle, i)
    && (ScheduledKey(due[i]).Some? ==>
          forall j :: 0 <= j < i && IsCandidate(cycle, j) ==> ScheduledKey(due[j]) != ScheduledKey(due[i]))
  }

  /** The ids of the selected rules, in order. */
  function SelectedIds(due: seq<Rule>, cycle: Cycle, n: nat): seq<int>
    requires n <= |due|
  {
    if n == 0 then []
    else SelectedIds(due, cycle, n - 1) + (if Selected(due, cycle, n - 1) then [due[n - 1].id] else [])
  }

  function DeliveredIds(log: seq<Delivery>): (r: seq<int>)
    ensures |r| == |log|
    ensures forall i :: 0 <= i < |log| ==> r[i] == log[i].rule
  {
    seq(|log|, i requires 0 <= i < |log| => log[i].rule)
  }

  ghost predicate KeysOfCandidates(due: seq<Rule>, cycle: Cycle, n: nat, keys: set<string>)
    requires n <= |due|
  {
    forall key :: key in keys <==> exists j :: 0 <= j < n && IsCandidate(cycle, j) && ScheduledKey(due[j]) == Some(key)
  }

  lemma KeyJoins(due: seq<Rule>, cycle: Cycle, n: nat, keys: set<string>, keys': set<string>)
    requires n < |due| && KeysOfCandidates(due, cycle, n, keys)
    requires keys' == if IsCandidate(cycle, n) && ScheduledKey(due[n]).Some? then keys + {ScheduledKey(due[n]).value} else keys
    ensures KeysOfCandidates(due, cycle, n + 1, keys')
  {
    hide ScheduledKey;
    forall key ensures key in keys' <==>
                exists j :: 0 <= j < n + 1 && IsCandidate(cycle, j) && ScheduledKey(due[j]) == Some(key)
    {
      if key in keys {
        var j :| 0 <= j < n && IsCandidate(cycle, j) && ScheduledKey(due[j]) == Some(key);
        assert IsCandidate(cycle, j);
      }
      if j :| 0 <= j < n && IsCandidate(cycle, j) && ScheduledKey(due[j]) == Some(key) {
        assert key in keys;
      }
    }
  }

  lemma SelectedIffKeyIsNew(due: seq<Rule>, cycle: Cycle, n: nat, keys: set<string>)
    requires n < |due| && KeysOfCandidates(due, cycle, n, keys)
    ensures Selected(due, cycle, n) <==>
              IsCandidate(cycle, n) && !(ScheduledKey(due[n]).Some? && ScheduledKey(due[n]).value in keys)
  {
    hide ScheduledKey;
  }

  lemma TurnKeepsKeys(cfg: Config, w: World, keys: set<string>, w': World, keys': set<string>,
                      due: seq<Rule>, cycle: Cycle, n: nat)
    requires n < |due| && KeysOfCandidates(due, cycle, n, keys) && cfg.hasSender && cfg.hasEvents
    requires TurnStep(cfg, w, keys, w', keys', due[n], cycle.evaluate(n).outcome)
    ensures KeysOfCandidates(due, cycle, n + 1, keys')
    ensures TurnDelivers(cfg, keys, due[n], cycle.evaluate(n).outcome) == Selected(due, cycle, n)
  {
    hide ScheduledKey, KeysOfCandidates, Selected, DeliveryStep, AfterCandidate;
    KeyJoins(due, cycle, n, keys, keys');
    SelectedIffKeyIsNew(due, cycle, n, keys);
  }

  /** The log after `n` turns: the earlier log, then the selected rules in order, none before `clock`. */
  ghost predicate LogOfSelected(log: seq<Delivery>, log': seq<Delivery>, due: seq<Rule>, cycle: Cycle, n: nat, clock: int)
    requires n <= |due|
  {
    && log <= log'
    && DeliveredIds(log') == DeliveredIds(log) + SelectedIds(due, cycle, n)
    && forall i :: |log| <= i < |log'| ==> log'[i].at >= clock
  }

  lemma LogStepKeepsSelected(log: seq<Delivery>, u: seq<Delivery>, v: seq<Delivery>, due: seq<Rule>, cycle: Cycle,
                             n: nat, clock: int, at: int)
    requires n < |due| && LogOfSelected(log, u, due, cycle, n, clock) && at >= clock
    requires LogStep(u, v, due[n].id, at, Selected(due, cycle, n))
    ensures LogOfSelected(log, v, due, cycle, n + 1, clock)
  {
    hide Selected;
    if Selected(due, cycle, n) {
      assert DeliveredIds(v) == DeliveredIds(u) + [due[n].id];
    }
  }

  lemma NothingSelectedYet(log: seq<Delivery>, due: seq<Rule>, cycle: Cycle, clock: int)
    ensures LogOfSelected(log, log, due, cycle, 0, clock) && KeysOfCandidates(due, cycle, 0, {})
  {
  }

  /**
    With a sender and an event service the loop delivers, in order, exactly the first candidate
    of every scheduled key and every candidate without a schedule.
   */
  lemma {:induction false} LoopDeliversFirstPerKey(cfg: Config, w: World, due: seq<Rule>, cycle: Cycle, n: nat)
    requires TableSound(w) && cfg.hasSender && cfg.hasEvents && n <= |due|
    ensures Delivered(cfg, w, due, cycle, n).Ok?
    ensures var (v, keys) := Delivered(cfg, w, due, cycle, n).value;
            && TableSound(v) && v.runs == w.runs && v.clock >= w.clock
            && KeysOfCandidates(due, cycle, n, keys)
            && LogOfSelected(w.deliveries, v.deliveries, due, cycle, n, w.clock)
  {
    hide TableSound, DeliverTurn, KeysOfCandidates, Selected, LogOfSelected, LogStep, TurnStep, TurnDelivers;
    if n == 0 {
      NothingSelectedYet(w.deliveries, due, cycle, w.clock);
    } else {
      LoopDeliversFirstPerKey(cfg, w, due, cycle, n - 1);
      var (v, keys) := Delivered(cfg, w, due, cycle, n - 1).value;
      var r, outcome := due[n - 1], cycle.evaluate(n - 1).outcome;
      TurnIsAStep(cfg, v, keys, r, outcome, cycle.attempt(n - 1));
      var (v', keys') := Delivered(cfg, w, due, cycle, n).value;
      TurnLogs(cfg, v, keys, v', keys', r, outcome);
      TurnKeepsKeys(cfg, v, keys, v', keys', due, cycle, n - 1);
      LogStepKeepsSelected(w.deliveries, v.deliveries, v'.deliveries, due, cycle, n - 1, w.clock, v.clock);
    }
  }

  // ---- Rules the loop disables ------------------------------------------------------

  /** The `once:` rules among the first `n` candidates. */
  ghost predicate OnceCandidate(due: seq<Rule>, cycle: Cycle, n: nat, id: int)
    requires n <= |due|
  {
    exists i :: 0 <= i < n && due[i].id == id && IsOnce(due[i]) && IsCandidate(cycle, i)
  }

  /** A completed loop leaves the rule table as it was, except that every `once:` candidate is off. */
  lemma {:induction false} LoopDisablesOnceCandidates(cfg: Config, w: World, due: seq<Rule>, cycle: Cycle, n: nat)
    requires TableSound(w) && n <= |due|
    ensures Delivered(cfg, w, due, cycle, n).Ok?
    ensures var v := Delivered(cfg, w, due, cycle, n).value.0;
            && TableSound(v)
            && |v.rules| == |w.rules|
            && forall k :: 0 <= k < |w.rules| ==>
                 v.rules[k] == if OnceCandidate(due, cycle, n, w.rules[k].id) then w.rules[k].(enabled := false)
                               else w.rules[k]
  {
    if n > 0 {
      LoopDisablesOnceCandidates(cfg, w, due, cycle, n - 1);
      hide TableSound, DeliverTurn, ScheduledKey, DeliveryStep, TurnDelivers;
      var (v, keys) := Delivered(cfg, w, due, cycle, n - 1).value;
      var r, outcome := due[n - 1], cycle.evaluate(n - 1).outcome;
      forall id ensures OnceCandidate(due, cycle, n, id) <==>
                  OnceCandidate(due, cycle, n - 1, id) || (r.id == id && IsOnce(r) && IsCandidate(cycle, n - 1))
      {
      }
      TurnIsAStep(cfg, v, keys, r, outcome, cycle.attempt(n - 1));
    }
  }

  /** One of the first `n` due rules is a candidate with this id. */
  ghost predicate CandidateId(due: seq<Rule>, cycle: Cycle, n: nat, id: int)
    requires n <= |due|
  {
    exists i :: 0 <= i < n && due[i].id == id && IsCandidate(cycle, i)
  }

  lemma CandidateStays(due: seq<Rule>, cycle: Cycle, n: nat, id: int)
    requires n < |due| && CandidateId(due, cycle, n, id)
    ensures CandidateId(due, cycle, n + 1, id)
  {
    var i :| 0 <= i < n && due[i].id == id && IsCandidate(cycle, i);
    assert due[i].id == id;
  }

  lemma NextCandidate(due: seq<Rule>, cycle: Cycle, n: nat)
    requires n < |due| && IsCandidate(cycle, n)
    ensures CandidateId(due, cycle, n + 1, due[n].id)
  {
    assert due[n].id == due[n].id;
  }

  lemma NextCandidateIsNew(due: seq<Rule>, cycle: Cycle, n: nat, id: int)
    requires n < |due| && InKeyOrder(due) && CandidateId(due, cycle, n, id)
    ensures id != due[n].id
  {
  }

  /** New log entries: not before `clock`, each of a different rule among the first `n` candidates. */
  ghost predicate LogOfCandidates(log: seq<Delivery>, log': seq<Delivery>, due: seq<Rule>, cycle: Cycle, n: nat, clock: int)
    requires n <= |due|
  {
    && log <= log'
    && (forall d :: |log| <= d < |log'| ==> log'[d].at >= clock && CandidateId(due, cycle, n, log'[d].rule))
    && (forall d, e :: |log| <= d < e < |log'| ==> log'[d].rule != log'[e].rule)
  }

  lemma LogStepKeepsCandidates(log: seq<Delivery>, u: seq<Delivery>, v: seq<Delivery>, due: seq<Rule>, cycle: Cycle,
                               n: nat, clock: int, at: int, delivers: bool)
    requires n < |due| && InKeyOrder(due) && LogOfCandidates(log, u, due, cycle, n, clock) && at >= clock
    requires LogStep(u, v, due[n].id, at, delivers) && (delivers ==> IsCandidate(cycle, n))
    ensures LogOfCandidates(log, v, due, cycle, n + 1, clock)
  {
    hide IsCandidate, CandidateId;
    forall d | |log| <= d < |v| ensures v[d].at >= clock && CandidateId(due, cycle, n + 1, v[d].rule) {
      if d < |u| {
        assert v[d] == u[d];
        CandidateStays(due, cycle, n, u[d].rule);
      } else {
        NextCandidate(due, cycle, n);
      }
    }
    forall d, e | |log| <= d < e < |v| ensures v[d].rule != v[e].rule {
      assert v[d] == u[d];
      NextCandidateIsNew(due, cycle, n, u[d].rule);
      assert e < |u| ==> v[e] == u[e];
    }
  }

  lemma NoCandidatesYet(log: seq<Delivery>, due: seq<Rule>, cycle: Cycle, clock: int)
    ensures LogOfCandidates(log, log, due, cycle, 0, clock)
  {
  }

  /** Deliveries logged by the loop are of due candidates. */
  lemma {:induction false} LoopDeliversCandidates(cfg: Config, w: World, due: seq<Rule>, cycle: Cycle, n: nat)
    requires TableSound(w) && n <= |due| && InKeyOrder(due)
    ensures Delivered(cfg, w, due, cycle, n).Ok?
    ensures var v := Delivered(cfg, w, due, cycle, n).value.0;
            && TableSound(v) && v.clock >= w.clock
            && LogOfCandidates(w.deliveries, v.deliveries, due, cycle, n, w.clock)
  {
    hide TableSound, DeliverTurn, TurnDelivers, TurnStep, LogOfCandidates, LogStep, InKeyOrder;
    if n == 0 {
      NoCandidatesYet(w.deliveries, due, cycle, w.clock);
    } else {
      LoopDeliversCandidates(cfg, w, due, cycle, n - 1);
      var (v, keys) := Delivered(cfg, w, due, cycle, n - 1).value;
      var r, outcome := due[n - 1], cycle.evaluate(n - 1).outcome;
      TurnIsAStep(cfg, v, keys, r, outcome, cycle.attempt(n - 1));
      var (v', keys') := Delivered(cfg, w, due, cycle, n).value;
      TurnLogs(cfg, v, keys, v', keys', r, outcome);
      var delivers := TurnDelivers(cfg, keys, r, outcome);
      assert delivers ==> IsCandidate(cycle, n - 1);
      LogStepKeepsCandidates(w.deliveries, v.deliveries, v'.deliveries, due, cycle, n - 1, w.clock, v.clock, delivers);
    }
  }

  // ---- Once rules over whole runs ---------------------------------------------------

  /** The rule is, or has been, in the table. */
  ghost predicate Appeared(ws: seq<World>, n: nat, rule: int)
    requires n < |ws|
  {
    exists h :: 0 <= h <= n && InTable(ws[h].rules, rule)
  }

  predicate InTable(rules: seq<Rule>, rule: int) {
    exists k :: 0 <= k < |rules| && rules[k].id == rule
  }

  /**
    In this run the rule keeps a `once:` schedule, and once it has appeared in the table nobody
    enables it again, or adds it again, after it was off.
   */
  ghost predicate OnceWithoutReenabling(ws: seq<World>, rule: int, schedule: Option<string>) {
    && HasPrefix(schedule, ONCE)
    && (forall i, k :: 0 <= i < |ws| && 0 <= k < |ws[i].rules| && ws[i].rules[k].id == rule ==>
          ws[i].rules[k].schedule == schedule)
    && (forall i :: 0 <= i < |ws| - 1 && Appeared(ws, i, rule) && Off(ws[i].rules, rule) ==> Off(ws[i + 1].rules, rule))
  }

  /** No delivery of the rule yet; or exactly one, at or after its instant, and the rule is off. */
  ghost predicate OnceInv(cal: Calendar, w: World, rule: int, schedule: Option<string>)
    requires HasPrefix(schedule, ONCE)
  {
    && TableSound(w)
    && (forall d :: 0 <= d < |w.deliveries| && w.deliveries[d].rule == rule ==>
          && Off(w.rules, rule)
          && cal.parseInstant(Body(schedule)).Some?
          && w.deliveries[d].at >= cal.parseInstant(Body(schedule)).value)
    && (forall d, e :: 0 <= d < |w.deliveries| && 0 <= e < |w.deliveries| ==>
          w.deliveries[d].rule == rule && w.deliveries[e].rule == rule ==> d == e)
  }

  lemma ClockKeepsSound(w: World, w': World)
    requires TableSound(w) && w'.events == w.events && w'.clock >= w.clock
    ensures TableSound(w')
  {
    hide NotificationEvents.UniqueIndex;
  }

  lemma DueOnceHasInstant(cfg: Config, w: World, rule: Rule, now: int)
    requires HasPrefix(rule.schedule, ONCE) && IsDue(cfg, w, rule, now) == Ok(true)
    ensures cfg.cal.parseInstant(Body(rule.schedule)).Some?
    ensures now >= cfg.cal.parseInstant(Body(rule.schedule)).value
  {
    OnceDueOnlyFromItsInstant(cfg.cal, rule.schedule, now);
  }

  lemma DeliveryKeepsOnceInv(cfg: Config, w0: World, due: seq<Rule>, cycle: Cycle, rule: int, schedule: Option<string>)
    requires HasPrefix(schedule, ONCE) && OnceInv(cfg.cal, w0, rule, schedule)
    requires InKeyOrder(due) && DueRules(cfg, w0, w0.clock, due)
    requires forall i :: 0 <= i < |due| && due[i].id == rule ==> due[i].schedule == schedule
    ensures var w1 := Evaluated(w0, due, cycle, |due|);
            && Delivered(cfg, w1, due, cycle, |due|).Ok?
            && OnceInv(cfg.cal, Delivered(cfg, w1, due, cycle, |due|).value.0, rule, schedule)
  {
    hide Delivered, Evaluated, NotificationEvents.UniqueIndex, RowSound, Schedules.IsRuleDue, IsDue, Body;
    EvaluatedAddsRuns(w0, due, cycle, |due|);
    var w1 := Evaluated(w0, due, cycle, |due|);
    ClockKeepsSound(w0, w1);
    LoopDisablesOnceCandidates(cfg, w1, due, cycle, |due|);
    LoopDeliversCandidates(cfg, w1, due, cycle, |due|);
    var v := Delivered(cfg, w1, due, cycle, |due|).value.0;
    var n := |w1.deliveries|;
    forall d | n <= d < |v.deliveries| && v.deliveries[d].rule == rule
      ensures && Off(v.rules, rule) && !Off(w0.rules, rule)
              && cfg.cal.parseInstant(Body(schedule)).Some?
              && v.deliveries[d].at >= cfg.cal.parseInstant(Body(schedule)).value
    {
      var i :| 0 <= i < |due| && due[i].id == rule && IsCandidate(cycle, i);
      assert OnceCandidate(due, cycle, |due|, rule);
      DueOnceHasInstant(cfg, w0, due[i], w0.clock);
      assert due[i] in w0.rules && due[i].enabled;
    }
    assert Off(w0.rules, rule) ==> Off(v.rules, rule);
  }

  lemma QuietKeepsOnceInv(cal: Calendar, w: World, w': World, rule: int, schedule: Option<string>)
    requires HasPrefix(schedule, ONCE) && OnceInv(cal, w, rule, schedule)
    requires w'.events == w.events && w'.deliveries == w.deliveries && w'.clock >= w.clock
    requires Off(w.rules, rule) ==> Off(w'.rules, rule)
    ensures OnceInv(cal, w', rule, schedule)
  {
  }

  lemma ActKeepsOnceInv(cfg: Config, w: World, m: Move, rule: int, schedule: Option<string>)
    requires HasPrefix(schedule, ONCE) && OnceInv(cfg.cal, w, rule, schedule)
    requires InKeyOrder(w.rules)
    requires forall k :: 0 <= k < |w.rules| && w.rules[k].id == rule ==> w.rules[k].schedule == schedule
    requires Off(w.rules, rule) ==> Off(Act(cfg, w, m).rules, rule)
    ensures OnceInv(cfg.cal, Act(cfg, w, m), rule, schedule)
  {
    match m
    case Edit(_, _) => QuietKeepsOnceInv(cfg.cal, w, Act(cfg, w, m), rule, schedule);
    case Turn(cycle) =>
      hide FinishCycle, IsDue, TableSound, Schedules.IsRuleDue;
      var w0 := w.(clock := w.clock + cycle.claimDelay);
      QuietKeepsOnceInv(cfg.cal, w, w0, rule, schedule);
      var claimed := Claimed(cfg, w0, w0.clock, |w0.rules|);
      if claimed.Ok? && claimed.value != [] {
        ClaimedAreDue(cfg, w0, w0.clock, |w0.rules|);
        FinishKeepsOnceInv(cfg, w0, claimed.value, cycle, rule, schedule);
      }
  }

  lemma FinishKeepsOnceInv(cfg: Config, w0: World, due: seq<Rule>, cycle: Cycle, rule: int, schedule: Option<string>)
    requires HasPrefix(schedule, ONCE) && OnceInv(cfg.cal, w0, rule, schedule)
    requires InKeyOrder(due) && DueRules(cfg, w0, w0.clock, due)
    requires forall i :: 0 <= i < |due| && due[i].id == rule ==> due[i].schedule == schedule
    ensures OnceInv(cfg.cal, FinishCycle(cfg, w0, due, cycle), rule, schedule)
  {
    hide Delivered, Evaluated, IsDue, NotificationEvents.UniqueIndex;
    EvaluatedAddsRuns(w0, due, cycle, |due|);
    var w1 := Evaluated(w0, due, cycle, |due|);
    QuietKeepsOnceInv(cfg.cal, w0, w1, rule, schedule);
    QuietKeepsOnceInv(cfg.cal, w1, w1.(clock := w1.clock + cycle.aborted.GetOr(0)), rule, schedule);
    DeliveryKeepsOnceInv(cfg, w0, due, cycle, rule, schedule);
  }

  /** No delivery of the rule is logged. */
  ghost predicate Undelivered(log: seq<Delivery>, rule: int) {
    forall d :: 0 <= d < |log| ==> log[d].rule != rule
  }

  lemma CandidatesAreInTable(due: seq<Rule>, cycle: Cycle, rules: seq<Rule>, log: seq<Delivery>, log': seq<Delivery>,
                             clock: int, rule: int)
    requires LogOfCandidates(log, log', due, cycle, |due|, clock) && Undelivered(log, rule)
    requires forall i :: 0 <= i < |due| ==> due[i] in rules
    requires !InTable(rules, rule)
    ensures Undelivered(log', rule)
  {
    forall d | 0 <= d < |log'| ensures log'[d].rule != rule {
      if d < |log| {
        assert log'[d] == log[d];
      } else {
        var i :| 0 <= i < |due| && due[i].id == log'[d].rule && IsCandidate(cycle, i);
        assert due[i] in rules;
      }
    }
  }

  /** A move from a world without the rule logs no delivery of it. */
  lemma AbsentRuleStaysUndelivered(cfg: Config, w: World, m: Move, rule: int)
    requires TableSound(w) && InKeyOrder(w.rules)
    requires !InTable(w.rules, rule) && Undelivered(w.deliveries, rule)
    ensures Undelivered(Act(cfg, w, m).deliveries, rule)
  {
    hide Claimed, Evaluated, Delivered, IsDue, TableSound, InTable, Undelivered, LogOfCandidates;
    if m.Turn? {
      var w0 := w.(clock := w.clock + m.cycle.claimDelay);
      LaterIsSound(w, w0);
      var claimed := Claimed(cfg, w0, w0.clock, |w0.rules|);
      if claimed.Ok? {
        var due := claimed.value;
        ClaimedAreDue(cfg, w0, w0.clock, |w0.rules|);
        EvaluatedAddsRuns(w0, due, m.cycle, |due|);
        var w1 := Evaluated(w0, due, m.cycle, |due|);
        LaterIsSound(w0, w1);
        LoopDeliversCandidates(cfg, w1, due, m.cycle, |due|);
        var v := Delivered(cfg, w1, due, m.cycle, |due|).value.0;
        CandidatesAreInTable(due, m.cycle, w.rules, w1.deliveries, v.deliveries, w1.clock, rule);
      }
    }
  }

  lemma {:induction false} RunKeepsOnceInv(cfg: Config, ws: seq<World>, moves: seq<Move>, n: nat,
                                           rule: int, schedule: Option<string>)
    requires WorkerRun(cfg, ws, moves) && OnceWithoutReenabling(ws, rule, schedule) && n < |ws|
    ensures OnceInv(cfg.cal, ws[n], rule, schedule)
    ensures !Appeared(ws, n, rule) ==> Undelivered(ws[n].deliveries, rule)
  {
    hide Act, TableSound;
    if n > 0 {
      RunKeepsOnceInv(cfg, ws, moves, n - 1, rule, schedule);
      RunIsSound(cfg, ws, moves, n);
      if Appeared(ws, n - 1, rule) {
        assert Off(ws[n - 1].rules, rule) ==> Off(ws[n - 1 + 1].rules, rule);
        ActKeepsOnceInv(cfg, ws[n - 1], moves[n - 1], rule, schedule);
        var h :| 0 <= h <= n - 1 && InTable(ws[h].rules, rule);
        assert Appeared(ws, n, rule);
      } else {
        assert !InTable(ws[n - 1].rules, rule);
        AbsentRuleStaysUndelivered(cfg, ws[n - 1], moves[n - 1], rule);
      }
    }
  }

  /**
    In every run a `once:` rule that nobody re-enables, whenever it was created, is delivered at
    most once, never before its instant, and is off after its delivery.
   */
  lemma OnceRulesFireAtMostOnce(cfg: Config, ws: seq<World>, moves: seq<Move>, n: nat,
                                rule: int, schedule: Option<string>, d: nat, e: nat)
    requires WorkerRun(cfg, ws, moves) && OnceWithoutReenabling(ws, rule, schedule) && n < |ws|
    requires d < |ws[n].deliveries| && ws[n].deliveries[d].rule == rule
    requires e < |ws[n].deliveries| && ws[n].deliveries[e].rule == rule
    ensures d == e
    ensures var instant := cfg.cal.parseInstant(Body(schedule));
            instant.Some? && ws[n].deliveries[d].at >= instant.value
    ensures Off(ws[n].rules, rule)
  {
    RunKeepsOnceInv(cfg, ws, moves, n, rule, schedule);
  }
}
