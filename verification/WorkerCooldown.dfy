/** In every run of one worker, sends of a rule are further apart than its cooldown. */
module WorkerCooldown {
  import opened Durations
  import opened Wrappers
  import opened NotificationEvents
  import Schedules
  import opened Rules
  import Deduplication
  import opened Worker
  import opened WorkerFacts

  /** A logged send is a sent row with that very time; a sent row has its logged send. */
  ghost predicate SendOnRecord(t: Table, d: Delivery) {
    d.event < |t| && t[d.event].rule == d.rule && t[d.event].status == Sent && t[d.event].sentAt == d.sentAt
  }

  ghost predicate RowOnRecord(log: seq<Delivery>, k: nat, e: Event) {
    exists i :: 0 <= i < |log| && log[i].event == k && log[i].sentAt.Some? && log[i].sentAt == e.sentAt
  }

  predicate SentIn(t: Table, k: nat) {
    k < |t| && t[k].status == Sent
  }

  /** Rows sent in the table `t0` the run started from stay; every other sent row is on record. */
  ghost predicate LogMatchesTable(t0: Table, w: World) {
    && (forall i :: 0 <= i < |w.deliveries| && w.deliveries[i].sentAt.Some? ==>
          SendOnRecord(w.events, w.deliveries[i]))
    && (forall k :: 0 <= k < |w.events| && w.events[k].status == Sent ==>
          RowOnRecord(w.deliveries, k, w.events[k]) || SentIn(t0, k))
    && (forall k :: 0 <= k < |t0| && SentIn(t0, k) ==> k < |w.events| && w.events[k] == t0[k])
  }

  /** Each logged send comes strictly later than every earlier one of its rule plus its own cooldown. */
  ghost predicate SendsSpaced(log: seq<Delivery>) {
    forall i, j :: 0 <= i < j < |log| && log[i].rule == log[j].rule && log[i].sentAt.Some? && log[j].sentAt.Some? ==>
      log[j].sentAt.value - log[i].sentAt.value > log[j].cooldownMinutes * MINUTE
  }

  /** So it does after every row of its rule sent in `t`. */
  ghost predicate SpacedAfterRows(t: Table, d: Delivery) {
    forall k :: 0 <= k < |t| && t[k].status == Sent && t[k].sentAt.Some? && t[k].rule == d.rule && d.sentAt.Some? ==>
      d.sentAt.value - t[k].sentAt.value > d.cooldownMinutes * MINUTE
  }

  ghost predicate SendInv(t0: Table, w: World) {
    && TableSound(w) && LogMatchesTable(t0, w)
    && SendsSpaced(w.deliveries)
    && (forall j :: 0 <= j < |w.deliveries| ==> SpacedAfterRows(t0, w.deliveries[j]))
  }

  lemma DeliverKeepsLog(cfg: Config, t0: Table, w: World, rule: Rule, c: Deduplication.Candidate, a: Attempt)
    requires TableSound(w) && LogMatchesTable(t0, w)
    ensures Deliver(cfg, w, rule, c, a).Ok?
    ensures LogMatchesTable(t0, Deliver(cfg, w, rule, c, a).value)
  {
    hide Deliver, UniqueIndex, Deduplication.CandidateHash;
    DeliverIsAStep(cfg, w, rule, c, a);
    var w' := Deliver(cfg, w, rule, c, a).value;
    var n := |w.deliveries|;
    forall i | 0 <= i < |w'.deliveries| && w'.deliveries[i].sentAt.Some?
      ensures SendOnRecord(w'.events, w'.deliveries[i])
    {
      if i < n {
        assert SendOnRecord(w.events, w.deliveries[i]);
      } else {
        assert RowSound(w'.events[w'.deliveries[n].event], w'.clock);
      }
    }
    forall k | 0 <= k < |w'.events| && w'.events[k].status == Sent
      ensures RowOnRecord(w'.deliveries, k, w'.events[k]) || SentIn(t0, k)
    {
      if k == w'.deliveries[n].event && w'.deliveries[n].sentAt.Some? {
        assert w'.deliveries[n].event == k;
      } else if !SentIn(t0, k) {
        assert RowOnRecord(w.deliveries, k, w.events[k]);
        var i :| 0 <= i < n && w.deliveries[i].event == k && w.deliveries[i].sentAt.Some?
                 && w.deliveries[i].sentAt == w.events[k].sentAt;
        assert w'.deliveries[i] == w.deliveries[i];
      }
    }
  }

  lemma LoggedSendIsOnRecord(t0: Table, w: World, i: nat)
    requires LogMatchesTable(t0, w) && i < |w.deliveries| && w.deliveries[i].sentAt.Some?
    ensures SendOnRecord(w.events, w.deliveries[i])
  {
  }

  /** A new send comes more than the rule's cooldown after every row of the rule that is sent already. */
  lemma NewSendIsCooledDown(cfg: Config, w: World, rule: Rule, c: Deduplication.Candidate, a: Attempt)
    requires TableSound(w) && cfg.hasDeduplicator
    ensures Deliver(cfg, w, rule, c, a).Ok?
    ensures |Deliver(cfg, w, rule, c, a).value.deliveries| == |w.deliveries| + 1
    ensures SpacedAfterRows(w.events, Deliver(cfg, w, rule, c, a).value.deliveries[|w.deliveries|])
  {
    hide Deliver, UniqueIndex, Deduplication.ShouldSuppress, Deduplication.CandidateHash;
    DeliverIsAStep(cfg, w, rule, c, a);
    var d := Deliver(cfg, w, rule, c, a).value.deliveries[|w.deliveries|];
    forall k | 0 <= k < |w.events| && w.events[k].status == Sent && w.events[k].sentAt.Some?
               && w.events[k].rule == d.rule && d.sentAt.Some?
      ensures d.sentAt.value - w.events[k].sentAt.value > d.cooldownMinutes * MINUTE
    {
      assert RowSound(w.events[k], w.clock);
      Deduplication.PassingMeansCooledDown(cfg.sha, w.events, rule, c, w.clock + a.checkDelay, k);
    }
  }

  lemma SpacedAfterRowsIsSpaced(t0: Table, w: World, d: Delivery)
    requires SendInv(t0, w) && SpacedAfterRows(w.events, d)
    ensures SendsSpaced(w.deliveries + [d]) && SpacedAfterRows(t0, d)
  {
    hide TableSound, RowOnRecord;
    forall i | 0 <= i < |w.deliveries| && w.deliveries[i].rule == d.rule && w.deliveries[i].sentAt.Some? && d.sentAt.Some?
      ensures d.sentAt.value - w.deliveries[i].sentAt.value > d.cooldownMinutes * MINUTE
    {
      assert SendOnRecord(w.events, w.deliveries[i]);
    }
  }

  lemma DeliverKeepsSendInv(cfg: Config, t0: Table, w: World, rule: Rule, c: Deduplication.Candidate, a: Attempt)
    requires SendInv(t0, w) && cfg.hasDeduplicator
    ensures Deliver(cfg, w, rule, c, a).Ok?
    ensures SendInv(t0, Deliver(cfg, w, rule, c, a).value)
  {
    hide Deliver, TableSound, LogMatchesTable, SendsSpaced, SpacedAfterRows;
    DeliverIsAStep(cfg, w, rule, c, a);
    DeliverKeepsLog(cfg, t0, w, rule, c, a);
    NewSendIsCooledDown(cfg, w, rule, c, a);
    var w' := Deliver(cfg, w, rule, c, a).value;
    var d := w'.deliveries[|w.deliveries|];
    assert w'.deliveries == w.deliveries + [d];
    SpacedAfterRowsIsSpaced(t0, w, d);
  }

  /** Later clock readings and other rule or run rows do not disturb the send log. */
  lemma ClockKeepsSendInv(t0: Table, w: World, w': World)
    requires SendInv(t0, w)
    requires w'.events == w.events && w'.deliveries == w.deliveries && w'.clock >= w.clock
    ensures SendInv(t0, w')
  {
  }

  lemma TurnKeepsSendInv(cfg: Config, t0: Table, w: World, keys: set<string>, rule: Rule, outcome: Outcome, a: Attempt)
    requires SendInv(t0, w) && cfg.hasDeduplicator
    ensures DeliverTurn(cfg, w, keys, rule, outcome, a).Ok?
    ensures SendInv(t0, DeliverTurn(cfg, w, keys, rule, outcome, a).value.0)
  {
    hide Deliver, SendInv, ScheduledKey, Schedules.HasPrefix;
    if outcome.Found? {
      DeliverKeepsSendInv(cfg, t0, w, rule, outcome.candidate, a);
      var w' := Deliver(cfg, w, rule, outcome.candidate, a).value;
      ClockKeepsSendInv(t0, w, AfterCandidate(w, rule));
      ClockKeepsSendInv(t0, w', AfterCandidate(w', rule));
    }
  }

  lemma {:induction false} DeliveredKeepsSendInv(cfg: Config, t0: Table, w: World, due: seq<Rule>, cycle: Cycle, n: nat)
    requires SendInv(t0, w) && cfg.hasDeduplicator && n <= |due|
    ensures Delivered(cfg, w, due, cycle, n).Ok?
    ensures SendInv(t0, Delivered(cfg, w, due, cycle, n).value.0)
  {
    hide DeliverTurn, SendInv;
    if n > 0 {
      DeliveredKeepsSendInv(cfg, t0, w, due, cycle, n - 1);
      var (v, keys) := Delivered(cfg, w, due, cycle, n - 1).value;
      TurnKeepsSendInv(cfg, t0, v, keys, due[n - 1], cycle.evaluate(n - 1).outcome, cycle.attempt(n - 1));
    }
  }

  lemma ActKeepsSendInv(cfg: Config, t0: Table, w: World, m: Move)
    requires SendInv(t0, w) && cfg.hasDeduplicator
    ensures SendInv(t0, Act(cfg, w, m))
  {
    hide Delivered;
    match m
    case Edit(_, _) => ClockKeepsSendInv(t0, w, Act(cfg, w, m));
    case Turn(cycle) =>
      var w0 := w.(clock := w.clock + cycle.claimDelay);
      ClockKeepsSendInv(t0, w, w0);
      var claimed := Claimed(cfg, w0, w0.clock, |w0.rules|);
      if claimed.Ok? {
        var due := claimed.value;
        EvaluatedAddsRuns(w0, due, cycle, |due|);
        var w1 := Evaluated(w0, due, cycle, |due|);
        ClockKeepsSendInv(t0, w0, w1);
        ClockKeepsSendInv(t0, w1, w1.(clock := w1.clock + cycle.aborted.GetOr(0)));
        DeliveredKeepsSendInv(cfg, t0, w1, due, cycle, |due|);
      }
  }

  lemma {:induction false} RunKeepsSendInv(cfg: Config, ws: seq<World>, moves: seq<Move>, n: nat)
    requires WorkerRun(cfg, ws, moves) && cfg.hasDeduplicator && n < |ws|
    ensures SendInv(ws[0].events, ws[n])
  {
    hide Act;
    if n > 0 {
      RunKeepsSendInv(cfg, ws, moves, n - 1);
      ActKeepsSendInv(cfg, ws[0].events, ws[n - 1], moves[n - 1]);
    }
  }

  // ---- The cooldown of an entry is its rule's ---------------------------------------

  /** The table has a row of the entry's rule, with the entry's cooldown. */
  ghost predicate CarriesCooldown(d: Delivery, rules: seq<Rule>) {
    exists q :: 0 <= q < |rules| && rules[q].id == d.rule && rules[q].EffectiveCooldown() == d.cooldownMinutes
  }

  ghost predicate NewEntriesCarry(log: seq<Delivery>, log': seq<Delivery>, rules: seq<Rule>) {
    log <= log' && forall d :: |log| <= d < |log'| ==> CarriesCooldown(log'[d], rules)
  }

  lemma TurnCarries(cfg: Config, w: World, keys: set<string>, w': World, keys': set<string>, rule: Rule, outcome: Outcome,
                    rules: seq<Rule>)
    requires TurnStep(cfg, w, keys, w', keys', rule, outcome) && rule in rules
    ensures NewEntriesCarry(w.deliveries, w'.deliveries, rules)
  {
    hide ScheduledKey, AfterCandidate;
    var q :| 0 <= q < |rules| && rules[q] == rule;
    if TurnDelivers(cfg, keys, rule, outcome) {
      assert rules[q].id == w'.deliveries[|w.deliveries|].rule;
    }
  }

  lemma CarryingGrows(a: seq<Delivery>, b: seq<Delivery>, c: seq<Delivery>, rules: seq<Rule>)
    requires NewEntriesCarry(a, b, rules) && NewEntriesCarry(b, c, rules)
    ensures NewEntriesCarry(a, c, rules)
  {
    hide CarriesCooldown;
    forall d | |a| <= d < |c| ensures CarriesCooldown(c[d], rules) {
      if d < |b| {
        assert c[d] == b[d];
      }
    }
  }

  lemma {:induction false} DeliveredCarries(cfg: Config, w: World, due: seq<Rule>, cycle: Cycle, n: nat, rules: seq<Rule>)
    requires TableSound(w) && n <= |due| && forall i :: 0 <= i < |due| ==> due[i] in rules
    ensures Delivered(cfg, w, due, cycle, n).Ok?
    ensures var v := Delivered(cfg, w, due, cycle, n).value.0;
            TableSound(v) && NewEntriesCarry(w.deliveries, v.deliveries, rules)
  {
    hide TableSound, DeliverTurn, TurnStep, CarriesCooldown;
    if n > 0 {
      DeliveredCarries(cfg, w, due, cycle, n - 1, rules);
      var (v, keys) := Delivered(cfg, w, due, cycle, n - 1).value;
      var r, outcome := due[n - 1], cycle.evaluate(n - 1).outcome;
      TurnIsAStep(cfg, v, keys, r, outcome, cycle.attempt(n - 1));
      var (v', keys') := Delivered(cfg, w, due, cycle, n).value;
      TurnCarries(cfg, v, keys, v', keys', r, outcome, rules);
      CarryingGrows(w.deliveries, v.deliveries, v'.deliveries, rules);
    }
  }

  /** What a cycle logs carries cooldowns of the table the cycle started from. */
  lemma CycleCarries(cfg: Config, w: World, cycle: Cycle)
    requires TableSound(w) && InKeyOrder(w.rules)
    ensures NewEntriesCarry(w.deliveries, RunCycle(cfg, w, cycle).deliveries, w.rules)
  {
    hide TableSound, Delivered, Evaluated, Claimed, IsDue, CarriesCooldown;
    var w0 := w.(clock := w.clock + cycle.claimDelay);
    var claimed := Claimed(cfg, w0, w0.clock, |w0.rules|);
    if claimed.Ok? {
      var due := claimed.value;
      ClaimedAreDue(cfg, w0, w0.clock, |w0.rules|);
      EvaluatedAddsRuns(w0, due, cycle, |due|);
      var w1 := Evaluated(w0, due, cycle, |due|);
      LaterIsSound(w, w1);
      DeliveredCarries(cfg, w1, due, cycle, |due|, w.rules);
    }
  }

  /** Entry `d` of the log was added in move `m`, and carries a cooldown of the table at that time. */
  ghost predicate LoggedIn(ws: seq<World>, m: nat, d: nat, log: seq<Delivery>) {
    && m + 1 < |ws| && |ws[m].deliveries| <= d < |ws[m + 1].deliveries| && d < |log|
    && CarriesCooldown(log[d], ws[m].rules)
  }

  lemma {:induction false} EntryHasItsCycle(cfg: Config, ws: seq<World>, moves: seq<Move>, n: nat, d: nat) returns (m: nat)
    requires WorkerRun(cfg, ws, moves) && n < |ws| && d < |ws[n].deliveries|
    ensures m < n && moves[m].Turn? && LoggedIn(ws, m, d, ws[n].deliveries)
  {
    hide RunCycle, CarriesCooldown;
    RunIsSound(cfg, ws, moves, n - 1);
    var w := ws[n - 1];
    if d < |w.deliveries| {
      m := EntryHasItsCycle(cfg, ws, moves, n - 1, d);
      if moves[n - 1].Turn? {
        CycleCarries(cfg, w, moves[n - 1].cycle);
      }
    } else {
      m := n - 1;
      CycleCarries(cfg, w, moves[n - 1].cycle);
    }
  }

  /** The row of the rule table whose cooldown a log entry carries. */
  lemma EntryHasItsRow(cfg: Config, ws: seq<World>, moves: seq<Move>, n: nat, j: nat) returns (m: nat, q: nat)
    requires WorkerRun(cfg, ws, moves) && n < |ws| && j < |ws[n].deliveries|
    ensures m < n && |ws[m].deliveries| <= j < |ws[m + 1].deliveries|
    ensures q < |ws[m].rules| && ws[m].rules[q].id == ws[n].deliveries[j].rule
    ensures ws[m].rules[q].EffectiveCooldown() == ws[n].deliveries[j].cooldownMinutes
  {
    hide WorkerRun;
    m := EntryHasItsCycle(cfg, ws, moves, n, j);
    var row :| 0 <= row < |ws[m].rules| && ws[m].rules[row].id == ws[n].deliveries[j].rule
               && ws[m].rules[row].EffectiveCooldown() == ws[n].deliveries[j].cooldownMinutes;
    q := row;
  }

  /**
    In every run, each logged send of a rule comes more than a cooldown after every earlier one:
    the effective cooldown of the rule's row in the table from which that send's cycle started.
   */
  lemma LoggedSendsRespectTheRule(cfg: Config, ws: seq<World>, moves: seq<Move>, n: nat, i: nat, j: nat)
    returns (m: nat, q: nat)
    requires WorkerRun(cfg, ws, moves) && cfg.hasDeduplicator && n < |ws|
    requires var log := ws[n].deliveries;
             i < j < |log| && log[i].rule == log[j].rule && log[i].sentAt.Some? && log[j].sentAt.Some?
    ensures m < n && |ws[m].deliveries| <= j < |ws[m + 1].deliveries|
    ensures q < |ws[m].rules| && ws[m].rules[q].id == ws[n].deliveries[j].rule
    ensures ws[n].deliveries[j].sentAt.value - ws[n].deliveries[i].sentAt.value
            > ws[m].rules[q].EffectiveCooldown() * MINUTE
  {
    hide TableSound, LogMatchesTable, SpacedAfterRows;
    RunKeepsSendInv(cfg, ws, moves, n);
    m, q := EntryHasItsRow(cfg, ws, moves, n, j);
  }

  lemma {:induction false} LogsGrow(cfg: Config, ws: seq<World>, moves: seq<Move>, i: nat, j: nat)
    requires WorkerRun(cfg, ws, moves) && i <= j < |ws|
    ensures ws[i].deliveries <= ws[j].deliveries
    decreases j
  {
    hide RunCycle;
    if i < j {
      LogsGrow(cfg, ws, moves, i, j - 1);
      RunIsSound(cfg, ws, moves, j - 1);
      if moves[j - 1].Turn? {
        CycleCarries(cfg, ws[j - 1], moves[j - 1].cycle);
      }
    }
  }

  // ---- Sent rows --------------------------------------------------------------------

  /**
    The send of row `l` was made in the cycle of move `m`, and came more than a cooldown after the
    send of row `k`: the effective cooldown of the rule's row in the table at that cycle.
   */
  ghost predicate SentAfterCooldown(ws: seq<World>, t: Table, k: nat, l: nat, m: nat, q: nat)
    requires k < |t| && l < |t| && t[k].sentAt.Some? && t[l].sentAt.Some? && m + 1 < |ws|
  {
    && l < |ws[m + 1].events| && ws[m + 1].events[l].status == Sent && ws[m + 1].events[l].sentAt == t[l].sentAt
    && q < |ws[m].rules| && ws[m].rules[q].id == t[l].rule
    && t[l].sentAt.value - t[k].sentAt.value > ws[m].rules[q].EffectiveCooldown() * MINUTE
  }

  lemma LaterSendIsCooledDown(cfg: Config, ws: seq<World>, moves: seq<Move>, n: nat, k: nat, l: nat, j: nat)
    returns (m: nat, q: nat)
    requires WorkerRun(cfg, ws, moves) && cfg.hasDeduplicator && n < |ws|
    requires var t, log := ws[n].events, ws[n].deliveries;
             && k < |t| && l < |t| && t[k].sentAt.Some?
             && j < |log| && log[j].event == l && log[j].sentAt.Some? && SendOnRecord(t, log[j])
             && log[j].sentAt.value - t[k].sentAt.value > log[j].cooldownMinutes * MINUTE
    ensures m < n && SentAfterCooldown(ws, ws[n].events, k, l, m, q)
  {
    hide LogMatchesTable, TableSound, SendsSpaced, SpacedAfterRows;
    m, q := EntryHasItsRow(cfg, ws, moves, n, j);
    RunKeepsSendInv(cfg, ws, moves, m + 1);
    LogsGrow(cfg, ws, moves, m + 1, n);
    LoggedSendIsOnRecord(ws[0].events, ws[m + 1], j);
  }

  /** A sent row of the run's own has its logged send. */
  lemma RowHasItsSend(t0: Table, w: World, l: nat) returns (j: nat)
    requires LogMatchesTable(t0, w) && SentIn(w.events, l) && !SentIn(t0, l)
    ensures j < |w.deliveries| && w.deliveries[j].event == l && w.deliveries[j].sentAt.Some?
    ensures SendOnRecord(w.events, w.deliveries[j])
  {
    assert RowOnRecord(w.deliveries, l, w.events[l]);
    var i :| 0 <= i < |w.deliveries| && w.deliveries[i].event == l && w.deliveries[i].sentAt.Some?
             && w.deliveries[i].sentAt == w.events[l].sentAt;
    j := i;
  }

  /** The send of row `l`, made in this run, comes after that of `k`, from before the run or earlier in it. */
  lemma SendsOfRowsAreSpaced(t0: Table, w: World, k: nat, l: nat) returns (later: bool, j: nat)
    requires SendInv(t0, w) && SentIn(w.events, k) && SentIn(w.events, l) && k != l
    requires w.events[k].rule == w.events[l].rule && !SentIn(t0, l)
    ensures w.events[k].sentAt.Some? && w.events[l].sentAt.Some?
    ensures j < |w.deliveries| && w.deliveries[j].sentAt.Some? && SendOnRecord(w.events, w.deliveries[j])
    ensures w.deliveries[j].event == if later then l else k
    ensures w.deliveries[j].sentAt.value - w.events[if later then k else l].sentAt.value
            > w.deliveries[j].cooldownMinutes * MINUTE
  {
    hide UniqueIndex, RowOnRecord;
    assert RowSound(w.events[k], w.clock) && RowSound(w.events[l], w.clock);
    j := RowHasItsSend(t0, w, l);
    if SentIn(t0, k) {
      assert SpacedAfterRows(t0, w.deliveries[j]);
      later := true;
    } else {
      var i := RowHasItsSend(t0, w, k);
      later := i < j;
      j := if i < j then j else i;
    }
  }

  /**
    In every run of a worker with a deduplicator, of any two sent rows of one rule, not both sent
    before the run, the later send came more than the rule's effective cooldown after the earlier
    one, as the rule table had it when the later send's cycle began, whatever happened to the
    table before or after.
   */
  lemma SendsOfARuleRespectTheCooldown(cfg: Config, ws: seq<World>, moves: seq<Move>, n: nat, k: nat, l: nat)
    requires WorkerRun(cfg, ws, moves) && cfg.hasDeduplicator && n < |ws|
    requires SentIn(ws[n].events, k) && SentIn(ws[n].events, l) && k != l
    requires ws[n].events[k].rule == ws[n].events[l].rule
    requires !(SentIn(ws[0].events, k) && SentIn(ws[0].events, l))
    ensures ws[n].events[k].sentAt.Some? && ws[n].events[l].sentAt.Some?
    ensures exists m: nat, q: nat :: m < n
              && (|| SentAfterCooldown(ws, ws[n].events, k, l, m, q)
                  || SentAfterCooldown(ws, ws[n].events, l, k, m, q))
  {
    hide SentAfterCooldown, SendInv;
    RunKeepsSendInv(cfg, ws, moves, n);
    if SentIn(ws[0].events, l) {
      var later, j := SendsOfRowsAreSpaced(ws[0].events, ws[n], l, k);
      var m, q := LaterSendIsCooledDown(cfg, ws, moves, n, if later then l else k, if later then k else l, j);
    } else {
      var later, j := SendsOfRowsAreSpaced(ws[0].events, ws[n], k, l);
      var m, q := LaterSendIsCooledDown(cfg, ws, moves, n, if later then k else l, if later then l else k, j);
    }
  }

  /** Hence a rule that keeps one cooldown has all its sends that far apart (none or 0 counts as 60 minutes). */
  lemma FixedCooldownSpacesSends(cfg: Config, ws: seq<World>, moves: seq<Move>, n: nat, k: nat, l: nat, minutes: int)
    requires WorkerRun(cfg, ws, moves) && cfg.hasDeduplicator && n < |ws|
    requires SentIn(ws[n].events, k) && SentIn(ws[n].events, l) && k != l
    requires ws[n].events[k].rule == ws[n].events[l].rule
    requires !(SentIn(ws[0].events, k) && SentIn(ws[0].events, l))
    requires forall m, q :: 0 <= m < n && 0 <= q < |ws[m].rules| && ws[m].rules[q].id == ws[n].events[k].rule ==>
               minutes == if ws[m].rules[q].cooldownMinutes in {None, Some(0)} then 60
                          else ws[m].rules[q].cooldownMinutes.value
    ensures ws[n].events[k].sentAt.Some? && ws[n].events[l].sentAt.Some?
    ensures var a, b := ws[n].events[k].sentAt.value, ws[n].events[l].sentAt.value;
            b - a > minutes * MINUTE || a - b > minutes * MINUTE
  {
    hide WorkerRun;
    SendsOfARuleRespectTheCooldown(cfg, ws, moves, n, k, l);
  }
}
