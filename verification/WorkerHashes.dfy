/** In every run of one worker the stored hashes are of dedupe texts, so the last duplicate check is idle. */
module WorkerHashes {
  import opened Wrappers
  import NotificationEvents
  import DedupeKeys
  import Rules
  import opened Deduplication
  import opened Worker
  import opened WorkerFacts

  ghost predicate HashInv(cfg: Config, w: World) {
    TableSound(w) && HashesAreOfKeys(cfg.sha, w.events)
  }

  lemma DeliverKeepsHashes(cfg: Config, w: World, rule: Rules.Rule, c: Candidate, a: Attempt)
    requires HashInv(cfg, w)
    ensures Deliver(cfg, w, rule, c, a).Ok?
    ensures HashInv(cfg, Deliver(cfg, w, rule, c, a).value)
  {
    hide Deliver, NotificationEvents.UniqueIndex, RowSound;
    DeliverIsAStep(cfg, w, rule, c, a);
    var w' := Deliver(cfg, w, rule, c, a).value;
    var key := DedupeKeys.MakeKey(cfg.sha, rule.id, rule.location, rule.expression, c.windowStart, c.windowEnd);
    assert IsKeyHash(cfg.sha, DedupeKeys.PayloadHash(cfg.sha, key));
    forall k | 0 <= k < |w'.events| && w'.events[k].hash.Some? ensures IsKeyHash(cfg.sha, w'.events[k].hash.value) {
      if k < |w.events| {
        assert w'.events[k].hash == w.events[k].hash;
      } else {
        assert w'.events[k].hash == Some(CandidateHash(cfg.sha, rule, c));
      }
    }
  }

  lemma ClockKeepsHashes(cfg: Config, w: World, w': World)
    requires HashInv(cfg, w) && w'.events == w.events && w'.clock >= w.clock
    ensures HashInv(cfg, w')
  {
    hide NotificationEvents.UniqueIndex;
  }

  lemma TurnKeepsHashes(cfg: Config, w: World, keys: set<string>, rule: Rules.Rule, outcome: Outcome, a: Attempt)
    requires HashInv(cfg, w)
    ensures DeliverTurn(cfg, w, keys, rule, outcome, a).Ok?
    ensures HashInv(cfg, DeliverTurn(cfg, w, keys, rule, outcome, a).value.0)
  {
    hide Deliver, HashInv, Rules.ScheduledKey;
    if outcome.Found? {
      DeliverKeepsHashes(cfg, w, rule, outcome.candidate, a);
      var w' := Deliver(cfg, w, rule, outcome.candidate, a).value;
      ClockKeepsHashes(cfg, w, AfterCandidate(w, rule));
      ClockKeepsHashes(cfg, w', AfterCandidate(w', rule));
    }
  }

  lemma {:induction false} DeliveredKeepsHashes(cfg: Config, w: World, due: seq<Rules.Rule>, cycle: Cycle, n: nat)
    requires HashInv(cfg, w) && n <= |due|
    ensures Delivered(cfg, w, due, cycle, n).Ok?
    ensures HashInv(cfg, Delivered(cfg, w, due, cycle, n).value.0)
  {
    hide DeliverTurn, HashInv;
    if n > 0 {
      DeliveredKeepsHashes(cfg, w, due, cycle, n - 1);
      var (v, keys) := Delivered(cfg, w, due, cycle, n - 1).value;
      TurnKeepsHashes(cfg, v, keys, due[n - 1], cycle.evaluate(n - 1).outcome, cycle.attempt(n - 1));
    }
  }

  lemma ActKeepsHashes(cfg: Config, w: World, m: Move)
    requires HashInv(cfg, w)
    ensures HashInv(cfg, Act(cfg, w, m))
  {
    hide Delivered, Evaluated, Claimed, HashInv;
    match m
    case Edit(_, _) => ClockKeepsHashes(cfg, w, Act(cfg, w, m));
    case Turn(cycle) =>
      var w0 := w.(clock := w.clock + cycle.claimDelay);
      ClockKeepsHashes(cfg, w, w0);
      var claimed := Claimed(cfg, w0, w0.clock, |w0.rules|);
      if claimed.Ok? {
        var due := claimed.value;
        EvaluatedAddsRuns(w0, due, cycle, |due|);
        var w1 := Evaluated(w0, due, cycle, |due|);
        ClockKeepsHashes(cfg, w0, w1);
        ClockKeepsHashes(cfg, w1, w1.(clock := w1.clock + cycle.aborted.GetOr(0)));
        DeliveredKeepsHashes(cfg, w1, due, cycle, |due|);
      }
  }

  lemma {:induction false} RunKeepsHashes(cfg: Config, ws: seq<World>, moves: seq<Move>, n: nat)
    requires WorkerRun(cfg, ws, moves) && HashesAreOfKeys(cfg.sha, ws[0].events) && n < |ws|
    ensures HashInv(cfg, ws[n])
  {
    hide Act;
    if n > 0 {
      RunKeepsHashes(cfg, ws, moves, n - 1);
      ActKeepsHashes(cfg, ws[n - 1], moves[n - 1]);
    }
  }

  /**
    In every run from a table whose hashes are of dedupe texts, as they are in an empty table and
    after any earlier run, no candidate with a JSON payload is ever suppressed as unchanged.
   */
  lemma PayloadCheckIsIdle(cfg: Config, ws: seq<World>, moves: seq<Move>, n: nat,
                           rule: Rules.Rule, c: Candidate, now: int, json: string)
    requires DedupeKeys.IsHash(cfg.sha) && WorkerRun(cfg, ws, moves) && n < |ws|
    requires HashesAreOfKeys(cfg.sha, ws[0].events)
    requires c.payloadHash == Some(cfg.sha(json)) && |json| > 0 && json[0] == '{'
    ensures ShouldSuppress(cfg.sha, ws[n].events, rule, c, now) != Some(UNCHANGED)
  {
    hide ShouldSuppress;
    RunKeepsHashes(cfg, ws, moves, n);
    UnchangedNeverFires(cfg.sha, ws[n].events, rule, c, now, json);
  }
}
