/**
  One evaluation cycle of the notification worker (infrastructure/worker/rule_evaluator.py):
  collect the due rules, evaluate each and save a run, then deliver the candidates.

  Everything the outside world decides during a cycle (how long each step takes, what an
  expression evaluates to, whether a send succeeds, whether the delivery phase fails and
  is rolled back) is given by a `Cycle` value, and results are about all of them.
 */
module Worker {
  import Durations
  import opened Wrappers
  import opened NotificationEvents
  import opened Schedules
  import opened Rules
  import opened Deduplication

  datatype Config = Config(
    cal: Calendar,
    sha: string -> string,
    windowMinutes: int,         // rule_evaluation_minutes
    hasSender: bool,
    hasEvents: bool,
    hasDeduplicator: bool
  )

  datatype EvaluationRun = EvaluationRun(rule: int, at: int, result: bool)

  /** History: one call of `_deliver_notification` whose transaction was committed. */
  datatype Delivery = Delivery(rule: int, at: int, event: nat, sentAt: Option<int>, cooldownMinutes: int)

  datatype World = World(
    rules: seq<Rule>,
    runs: seq<EvaluationRun>,
    events: Table,
    clock: int,
    deliveries: seq<Delivery>
  )

  /** How evaluating one due rule ends: an exception, no candidate, or a candidate. */
  datatype Outcome =
    | Raised
    | NoCandidate
    | Found(candidate: Candidate)

  datatype Evaluation = Evaluation(delay: nat, outcome: Outcome)

  datatype Attempt = Attempt(
    checkDelay: nat, selectDelay: nat, insertDelay: nat, sendDelay: nat,
    sendOk: bool, message: string
  )

  datatype Cycle = Cycle(
    lockFree: bool,
    dryRun: bool,
    claimDelay: nat,
    evaluate: nat -> Evaluation,
    attempt: nat -> Attempt,
    aborted: Option<nat>        // the delivery phase raises after this long, and is rolled back
  )

  datatype Failure = MultipleRows | Database(error: Error)

  // ---- Claiming ---------------------------------------------------------------------

  predicate RunSince(r: EvaluationRun, rule: int, since: int) {
    r.rule == rule && r.at >= since
  }

  function CountRuns(runs: seq<EvaluationRun>, rule: int, since: int): nat {
    if runs == [] then 0
    else CountRuns(runs[..|runs| - 1], rule, since) + (if RunSince(runs[|runs| - 1], rule, since) then 1 else 0)
  }

  predicate FinishedSince(e: Event, rule: int, since: int) {
    e.rule == rule && e.createdAt >= since && e.Finished()
  }

  function CountFinished(t: Table, rule: int, since: int): nat {
    if t == [] then 0
    else CountFinished(t[..|t| - 1], rule, since) + (if FinishedSince(t[|t| - 1], rule, since) then 1 else 0)
  }

  /** `scalar_one_or_none`: whether there is a row, and an exception when there are several. */
  function AnyRow(count: nat): Result<bool, Failure> {
    if count > 1 then Err(MultipleRows) else Ok(count == 1)
  }

  function IsDue(cfg: Config, w: World, rule: Rule, now: int): Result<bool, Failure> {
    if !IsRuleDue(cfg.cal, rule.schedule, now) then Ok(false)
    else if !HasPrefix(rule.schedule, CRON) then Ok(true)
    else match LastCronSlot(cfg.cal, rule.schedule, now)
      case None => Ok(true)
      case Some(slot) =>
        if now - slot > cfg.windowMinutes * Durations.MINUTE then Ok(false)
        else match AnyRow(CountRuns(w.runs, rule.id, slot))
          case Err(e) => Err(e)
          case Ok(evaluated) =>
            if evaluated then Ok(false)
            else match AnyRow(CountFinished(w.events, rule.id, slot))
              case Err(e) => Err(e)
              case Ok(finished) => Ok(!finished)
  }

  /** The due ones among the first `n` rules of the table; one exception spoils the whole claim. */
  function Claimed(cfg: Config, w: World, now: int, n: nat): Result<seq<Rule>, Failure>
    requires n <= |w.rules|
  {
    if n == 0 then Ok([])
    else match Claimed(cfg, w, now, n - 1)
      case Err(e) => Err(e)
      case Ok(due) =>
        var rule := w.rules[n - 1];
        if !rule.enabled then Ok(due)
        else match IsDue(cfg, w, rule, now)
          case Err(e) => Err(e)
          case Ok(yes) => Ok(if yes then due + [rule] else due)
  }

  // ---- Evaluating -------------------------------------------------------------------

  /** An exception rolls the evaluation back; otherwise a run row is committed. */
  function EvaluateOne(w: World, rule: Rule, e: Evaluation): World {
    var now := w.clock + e.delay;
    if e.outcome.Raised? then w.(clock := now)
    else w.(clock := now, runs := w.runs + [EvaluationRun(rule.id, now, e.outcome.Found?)])
  }

  function Evaluated(w: World, due: seq<Rule>, cycle: Cycle, n: nat): World
    requires n <= |due|
  {
    if n == 0 then w else EvaluateOne(Evaluated(w, due, cycle, n - 1), due[n - 1], cycle.evaluate(n - 1))
  }

  // ---- Delivering -------------------------------------------------------------------

  function Suppression(cfg: Config, w: World, rule: Rule, c: Candidate, now: int): Option<string> {
    if cfg.hasDeduplicator then ShouldSuppress(cfg.sha, w.events, rule, c, now) else None
  }

  const SEND_FAILED := "telegram_send_failed"

  /** The end of a delivery that owns row `id`: suppress it, or try to send. */
  function Conclude(w: World, id: nat, suppressed: Option<string>, tried: Delivery, a: Attempt):
    Result<World, Failure>
  {
    if suppressed.Some? then
      match SuppressedTable(w.events, id, suppressed.value)
      case Err(e) => Err(Database(e))
      case Ok(t) => Ok(w.(events := t, deliveries := w.deliveries + [tried]))
    else
      var sentAt := w.clock + a.sendDelay;
      if a.sendOk then
        match SentTable(w.events, id, sentAt, Some(a.message))
        case Err(e) => Err(Database(e))
        case Ok(t) => Ok(w.(events := t, clock := sentAt,
                            deliveries := w.deliveries + [tried.(sentAt := Some(sentAt))]))
      else
        match SuppressedTable(w.events, id, SEND_FAILED)
        case Err(e) => Err(Database(e))
        case Ok(t) => Ok(w.(events := t, clock := sentAt, deliveries := w.deliveries + [tried]))
  }

  /** `_deliver_notification`. */
  function Deliver(cfg: Config, w: World, rule: Rule, c: Candidate, a: Attempt): Result<World, Failure> {
    var checkedAt := w.clock + a.checkDelay;
    var suppressed := Suppression(cfg, w, rule, c, checkedAt);
    var selectedAt := checkedAt + a.selectDelay;
    var insertedAt := selectedAt + a.insertDelay;
    match CreateOnce(w.events, rule.id, CandidateHash(cfg.sha, rule, c), selectedAt, insertedAt)
    case Err(e) => Err(Database(e))
    case Ok((t, reply)) =>
      var tried := Delivery(rule.id, w.clock, reply.id, None, rule.EffectiveCooldown());
      var w1 := w.(events := t, clock := insertedAt);
      if reply.created then Conclude(w1, reply.id, suppressed, tried, a)
      else Ok(w1.(deliveries := w.deliveries + [tried]))
  }

  predicate IsOnce(rule: Rule) {
    HasPrefix(rule.schedule, ONCE)
  }

  function AfterCandidate(w: World, rule: Rule): World {
    if IsOnce(rule) then w.(rules := Disable(w.rules, rule.id)) else w
  }

  /** One turn of the delivery loop: the world and the keys delivered so far in this cycle. */
  function DeliverTurn(cfg: Config, w: World, keys: set<string>, rule: Rule, outcome: Outcome, a: Attempt):
    Result<(World, set<string>), Failure>
  {
    if !outcome.Found? then Ok((w, keys))
    else
      var key := ScheduledKey(rule);
      if key.Some? && key.value in keys then Ok((AfterCandidate(w, rule), keys))
      else
        var keys' := if key.Some? then keys + {key.value} else keys;
        if cfg.hasSender && cfg.hasEvents then
          match Deliver(cfg, w, rule, outcome.candidate, a)
          case Err(e) => Err(e)
          case Ok(w') => Ok((AfterCandidate(w', rule), keys'))
        else Ok((AfterCandidate(w, rule), keys'))
  }

  function Delivered(cfg: Config, w: World, due: seq<Rule>, cycle: Cycle, n: nat):
    Result<(World, set<string>), Failure>
    requires n <= |due|
  {
    if n == 0 then Ok((w, {}))
    else match Delivered(cfg, w, due, cycle, n - 1)
      case Err(e) => Err(e)
      case Ok((v, keys)) =>
        DeliverTurn(cfg, v, keys, due[n - 1], cycle.evaluate(n - 1).outcome, cycle.attempt(n - 1))
  }

  // ---- A cycle ----------------------------------------------------------------------

  /** `run_once`: a failed claim or delivery phase leaves only what was committed before it. */
  function RunCycle(cfg: Config, w: World, cycle: Cycle): World {
    var w0 := w.(clock := w.clock + cycle.claimDelay);
    if !cycle.lockFree then w0
    else match Claimed(cfg, w0, w0.clock, |w0.rules|)
      case Err(_) => w0
      case Ok(due) => if due == [] then w0 else FinishCycle(cfg, w0, due, cycle)
  }

  /** `_evaluate_due_rules`. */
  function FinishCycle(cfg: Config, w0: World, due: seq<Rule>, cycle: Cycle): World {
    var w1 := Evaluated(w0, due, cycle, |due|);
    if cycle.dryRun then w1
    else if cycle.aborted.Some? then w1.(clock := w1.clock + cycle.aborted.value)
    else match Delivered(cfg, w1, due, cycle, |due|)
      case Err(_) => w1
      case Ok((w2, _)) => w2
  }

  // ---- The worker object ------------------------------------------------------------

  class RuleEvaluationWorker {
    const cfg: Config
    var rules: seq<Rule>
    var runs: seq<EvaluationRun>
    var events: Table
    var clock: int
    var deliveries: seq<Delivery>

    constructor (cfg: Config, clock: int)
      ensures this.cfg == cfg && Snapshot() == World([], [], [], clock, [])
    {
      this.cfg := cfg;
      this.clock := clock;
      rules, runs, events, deliveries := [], [], [], [];
    }

    function Snapshot(): World
      reads this
    {
      World(rules, runs, events, clock, deliveries)
    }

    method IsRuleDue(rule: Rule, now: int) returns (r: Result<bool, Failure>)
      ensures r == IsDue(cfg, Snapshot(), rule, now)
    {
      if !Schedules.IsRuleDue(cfg.cal, rule.schedule, now) {
        return Ok(false);
      }
      if HasPrefix(rule.schedule, CRON) {
        var slot := LastCronSlot(cfg.cal, rule.schedule, now);
        if slot.Some? {
          if now - slot.value > cfg.windowMinutes * Durations.MINUTE {
            return Ok(false);
          }
          var run := AnyRow(CountRuns(runs, rule.id, slot.value));
          if run.Err? || run.value {
            return if run.Err? then run else Ok(false);
          }
          var event := AnyRow(CountFinished(events, rule.id, slot.value));
          if event.Err? || event.value {
            return if event.Err? then event else Ok(false);
          }
        }
      }
      r := Ok(true);
    }

    method ClaimDueRules(now: int) returns (r: Result<seq<Rule>, Failure>)
      ensures r == Claimed(cfg, Snapshot(), now, |rules|)
    {
      var due: seq<Rule> := [];
      var i := 0;
      while i < |rules|
        invariant i <= |rules|
        invariant Claimed(cfg, Snapshot(), now, i) == Ok(due)
      {
        if rules[i].enabled {
          var yes := IsRuleDue(rules[i], now);
          if yes.Err? {
            FailedClaimStaysFailed(cfg, Snapshot(), now, i + 1, |rules|);
            return Err(yes.error);
          }
          if yes.value {
            due := due + [rules[i]];
          }
        }
        i := i + 1;
      }
      r := Ok(due);
    }

    method ConcludeDelivery(id: nat, suppressed: Option<string>, tried: Delivery, a: Attempt)
      returns (r: Result<(), Failure>)
      modifies this`events, this`clock, this`deliveries
      ensures match Conclude(old(Snapshot()), id, suppressed, tried, a)
              case Ok(w) => r.Ok? && Snapshot() == w
              case Err(e) => r == Err(e)
    {
      if suppressed.Some? {
        var marked := SuppressedTable(events, id, suppressed.value);
        if marked.Err? {
          return Err(Database(marked.error));
        }
        events := marked.value;
        deliveries := deliveries + [tried];
        return Ok(());
      }
      clock := clock + a.sendDelay;
      var marked := if a.sendOk then SentTable(events, id, clock, Some(a.message))
                    else SuppressedTable(events, id, SEND_FAILED);
      if marked.Err? {
        return Err(Database(marked.error));
      }
      events := marked.value;
      deliveries := deliveries + [if a.sendOk then tried.(sentAt := Some(clock)) else tried];
      r := Ok(());
    }

    method DeliverNotification(rule: Rule, c: Candidate, a: Attempt) returns (r: Result<(), Failure>)
      modifies this`events, this`clock, this`deliveries
      ensures match Deliver(cfg, old(Snapshot()), rule, c, a)
              case Ok(w) => r.Ok? && Snapshot() == w
              case Err(e) => r == Err(e)
    {
      hide ShouldSuppress, CandidateHash, CreateOnce, Conclude;
      var started := clock;
      clock := clock + a.checkDelay;
      var suppressed: Option<string> := None;
      if cfg.hasDeduplicator {
        suppressed := ShouldSuppress(cfg.sha, events, rule, c, clock);
      }
      var selectedAt := clock + a.selectDelay;
      clock := selectedAt + a.insertDelay;
      var created := CreateOnce(events, rule.id, CandidateHash(cfg.sha, rule, c), selectedAt, clock);
      if created.Err? {
        return Err(Database(created.error));
      }
      var (t, reply) := created.value;
      events := t;
      var tried := Delivery(rule.id, started, reply.id, None, rule.EffectiveCooldown());
      if !reply.created {
        deliveries := deliveries + [tried];
        return Ok(());
      }
      r := ConcludeDelivery(reply.id, suppressed, tried, a);
    }

    /** The delivery loop over all due rules, in one transaction. */
    method DeliverCandidates(due: seq<Rule>, cycle: Cycle) returns (r: Result<(), Failure>)
      modifies this
      ensures match Delivered(cfg, old(Snapshot()), due, cycle, |due|)
              case Ok((w, _)) => r.Ok? && Snapshot() == w
              case Err(e) => r == Err(e)
    {
      hide Deliver, ScheduledKey, Disable, Schedules.HasPrefix;
      ghost var start := Snapshot();
      var keys: set<string> := {};
      var i := 0;
      while i < |due|
        invariant i <= |due|
        invariant Delivered(cfg, start, due, cycle, i) == Ok((Snapshot(), keys))
      {
        var outcome := cycle.evaluate(i).outcome;
        if outcome.Found? {
          var key := ScheduledKey(due[i]);
          var duplicate := key.Some? && key.value in keys;
          if key.Some? && !duplicate {
            keys := keys + {key.value};
          }
          if !duplicate && cfg.hasSender && cfg.hasEvents {
            var delivered := DeliverNotification(due[i], outcome.candidate, cycle.attempt(i));
            if delivered.Err? {
              FailedDeliveryStaysFailed(cfg, start, due, cycle, i + 1, |due|);
              return delivered;
            }
          }
          if HasPrefix(due[i].schedule, ONCE) {
            rules := Disable(rules, due[i].id);
          }
        }
        i := i + 1;
      }
      r := Ok(());
    }

    method EvaluateDueRules(due: seq<Rule>, cycle: Cycle)
      modifies this
      ensures Snapshot() == FinishCycle(cfg, old(Snapshot()), due, cycle)
    {
      ghost var start := Snapshot();
      var i := 0;
      while i < |due|
        invariant i <= |due|
        invariant Snapshot() == Evaluated(start, due, cycle, i)
      {
        var e := cycle.evaluate(i);
        clock := clock + e.delay;
        if !e.outcome.Raised? {
          runs := runs + [EvaluationRun(due[i].id, clock, e.outcome.Found?)];
        }
        i := i + 1;
      }
      if cycle.dryRun {
        return;
      }
      if cycle.aborted.Some? {
        clock := clock + cycle.aborted.value;
        return;
      }
      var savedRules, savedEvents, savedClock, savedDeliveries := rules, events, clock, deliveries;
      var savedRuns := runs;
      var delivered := DeliverCandidates(due, cycle);
      if delivered.Err? {
        rules, runs, events, clock, deliveries := savedRules, savedRuns, savedEvents, savedClock, savedDeliveries;
      }
    }

    method RunOnce(cycle: Cycle)
      modifies this
      ensures Snapshot() == RunCycle(cfg, old(Snapshot()), cycle)
    {
      clock := clock + cycle.claimDelay;
      if !cycle.lockFree {
        return;
      }
      var due := ClaimDueRules(clock);
      if due.Ok? && |due.value| > 0 {
        EvaluateDueRules(due.value, cycle);
      }
    }
  }

  lemma {:induction false} FailedClaimStaysFailed(cfg: Config, w: World, now: int, m: nat, n: nat)
    requires m <= n <= |w.rules|
    requires Claimed(cfg, w, now, m).Err?
    ensures Claimed(cfg, w, now, n) == Claimed(cfg, w, now, m)
  {
    if m < n {
      FailedClaimStaysFailed(cfg, w, now, m, n - 1);
    }
  }

  lemma {:induction false} FailedDeliveryStaysFailed(cfg: Config, w: World, due: seq<Rule>, cycle: Cycle, m: nat, n: nat)
    requires m <= n <= |due|
    requires Delivered(cfg, w, due, cycle, m).Err?
    ensures Delivered(cfg, w, due, cycle, n) == Delivered(cfg, w, due, cycle, m)
  {
    if m < n {
      FailedDeliveryStaysFailed(cfg, w, due, cycle, m, n - 1);
    }
  }
}
