/** What every run of the delivery protocol keeps. */
module DeliverySafety {
  import opened Wrappers
  import opened NotificationEvents
  import opened DeliveryProtocol

  // ---- One step ---------------------------------------------------------------------

  /** Time, tables and history only grow, and rows keep their key. */
  ghost predicate Grows(s: State, s': State) {
    && s.clock <= s'.clock
    && |s.table| <= |s'.table|
    && |s.workers| == |s'.workers|
    && s.claims <= s'.claims
    && s.sends <= s'.sends
    && forall k :: 0 <= k < |s.table| ==>
         s'.table[k].rule == s.table[k].rule && s'.table[k].hash == s.table[k].hash
  }

  lemma StepGrows(s: State, step: Step)
    requires Enabled(s, step)
    ensures Grows(s, Apply(s, step))
  {
  }

  lemma TakeKeepsInv(s: State, w: nat, t: Table, id: nat)
    requires Inv(s) && w < |s.workers|
    requires UniqueIndex(t) && id < |t| && |s.table| <= |t|
    requires t[id].hash.Some? && t[id].claimedAt == Some(s.clock)
    requires forall k :: 0 <= k < |s.table| && k != id ==> t[k] == s.table[k]
    requires id < |s.table| ==> s.table[id].hash == t[id].hash
    requires id < |s.table| ==> s.clock - s.table[id].LeaseStart() >= LEASE_TIMEOUT
    ensures Inv(Take(s, w, t, id))
  {
    var s' := Take(s, w, t, id);
    forall c | 0 <= c < |s'.claims| ensures ClaimCovered(s', s'.claims[c]) {
      if c < |s.claims| {
        assert ClaimCovered(s, s.claims[c]);
      }
    }
    forall a, b | 0 <= a < b < |s'.claims| && s'.claims[a].id == s'.claims[b].id
      ensures s'.claims[b].at - s'.claims[a].at >= LEASE_TIMEOUT
    {
      assert ClaimCovered(s, s.claims[a]);
    }
  }

  lemma StepKeepsInv(s: State, step: Step)
    requires Inv(s) && Enabled(s, step)
    ensures Inv(Apply(s, step))
  {
    match step
    case Wait(_) =>
    case Crash(_) =>
    case Select(w, key) =>
      var found := LookUp(s.table, key.rule, key.hash, s.clock);
      if found.Stale? {
        var t := Reclaim(s.table, found.id, s.clock);
        UpdateKeepsIndex(s.table, found.id, t[found.id]);
        TakeKeepsInv(s, w, t, found.id);
      }
    case Insert(w) =>
      var key := s.workers[w].key;
      InsertRefusedIffActive(s.table, key.rule, key.hash, s.clock);
      var created := CreateEvent(s.table, key.rule, Some(key.hash), s.clock);
      if created.Ok? {
        TakeKeepsInv(s, w, created.value, |s.table|);
      }
    case FinishSent(w) =>
      FinishKeepsClaims(s, Apply(s, step));
    case FinishSuppressed(w) =>
      FinishKeepsClaims(s, Apply(s, step));
  }

  lemma FinishKeepsClaims(s: State, s': State)
    requires Inv(s)
    requires s'.claims == s.claims && |s'.table| == |s.table|
    requires forall k :: 0 <= k < |s.table| ==> s'.table[k].claimedAt == s.table[k].claimedAt
    ensures forall c :: 0 <= c < |s'.claims| ==> ClaimCovered(s', s'.claims[c])
  {
    forall c | 0 <= c < |s'.claims| ensures ClaimCovered(s', s'.claims[c]) {
      assert ClaimCovered(s, s.claims[c]);
    }
  }

  /** The step's worker has this phase after it; other workers, clock and sends stay. */
  ghost predicate MovesTo(s: State, w: nat, s': State, p: Phase)
    requires w < |s.workers|
  {
    s'.workers == s.workers[w := p] && s'.clock == s.clock && s'.sends == s.sends
  }

  /**
    How a call of `create_event_once` goes on or ends in this step.  A select that finds no active
    row leads to an insert; any other step of the call answers an active row of the key, and the
    worker holds it, with its claim recorded, exactly when it is told "created".
   */
  lemma CallOutcome(s: State, step: Step, key: Key)
    requires Inv(s) && Enabled(s, step)
    requires (step.Select? && step.key == key) || (step.Insert? && s.workers[step.w] == Inserting(key))
    ensures var s', answer := Apply(s, step), Answer(s, step);
            match answer
            case None =>
              && step.Select? && MovesTo(s, step.w, s', Inserting(key)) && s'.table == s.table && s'.claims == s.claims
              && FindActive(s.table, key.rule, key.hash).None?
            case Some(reply) =>
              && MovesTo(s, step.w, s', if reply.created then Claimed(reply.id, s.clock) else Idle)
              && reply.id < |s'.table| && s'.table[reply.id].Active() && s'.table[reply.id].HasKey(key.rule, key.hash)
              && (if reply.created then
                    && s'.claims == s.claims + [Claim(reply.id, s.clock)]
                    && s'.table[reply.id].status == Sending && s'.table[reply.id].claimedAt == Some(s.clock)
                  else s'.table == s.table && s'.claims == s.claims)
              && (step.Select? && reply.created ==>
                    s.clock - s.table[reply.id].LeaseStart() >= LEASE_TIMEOUT && s.table[reply.id].status != Sent)
  {
    InsertRefusedIffActive(s.table, key.rule, key.hash, s.clock);
    var found := LookUp(s.table, key.rule, key.hash, s.clock);
    if found.Stale? {
      UpdateKeepsIndex(s.table, found.id, Reclaim(s.table, found.id, s.clock)[found.id]);
    }
  }

  /** A stopped worker stays where it stopped, and nothing else happens. */
  lemma CrashOutcome(s: State, w: nat)
    requires Enabled(s, Crash(w))
    ensures var s' := Apply(s, Crash(w));
            MovesTo(s, w, s', Crashed) && s'.table == s.table && s'.claims == s.claims
    ensures forall step :: Enabled(Apply(s, Crash(w)), step) && !step.Wait? ==> step.w != w
  {
  }

  /** How a delivery ends in this step: its row is sent now, or suppressed, or refused by the index; the worker is free. */
  lemma FinishOutcome(s: State, step: Step)
    requires Inv(s) && Enabled(s, step) && (step.FinishSent? || step.FinishSuppressed?)
    ensures var s', id := Apply(s, step), s.workers[step.w].id;
            && s'.workers == s.workers[step.w := Idle] && s'.clock == s.clock && s'.claims == s.claims
            && id < |s.table| == |s'.table|
            && (step.FinishSuppressed? ==>
                  s'.table[id].status == Suppressed && s'.table[id].suppressed && s'.sends == s.sends)
            && (step.FinishSent? ==>
                  if SentTable(s.table, id, s.clock, None).Ok? then
                    && s'.table[id].status == Sent && s'.table[id].sentAt == Some(s.clock)
                    && s'.sends == s.sends + [Send(id, KeyOf(s.table[id]), s.clock)]
                  else s'.table == s.table && s'.sends == s.sends)
            && (s.table[id].Active() ==> SentTable(s.table, id, s.clock, None).Ok?)
  {
    var id := s.workers[step.w].id;
    UpdateKeepsIndex(s.table, id, s.table[id].(suppressed := true, reason := Some(""), status := Suppressed));
    if s.table[id].Active() {
      UpdateKeepsIndex(s.table, id, s.table[id].(sentAt := Some(s.clock), status := Sent));
    }
  }

  // ---- One sparing step -------------------------------------------------------------

  ghost predicate FinishedRowsFrozen(t: Table, t': Table) {
    |t| <= |t'| && forall k :: 0 <= k < |t| && t[k].Finished() ==> t'[k] == t[k]
  }

  /** New claims and quiet steps leave finished rows and the recorded sends alone. */
  lemma UnsentStepKeepsSentOnce(s: State, s': State)
    requires SentOnceInv(s) && Inv(s')
    requires s'.sends == s.sends && FinishedRowsFrozen(s.table, s'.table)
    ensures SentOnceInv(s')
  {
    forall r | 0 <= r < |s'.sends| ensures SendRecorded(s', s'.sends[r]) {
      assert SendRecorded(s, s.sends[r]);
    }
  }

  /** The finish of a row that is not yet sent records at most one send, of that row. */
  lemma FinishKeepsSentOnce(s: State, s': State, id: nat)
    requires SentOnceInv(s) && Inv(s')
    requires id < |s.table| == |s'.table| && s.table[id].status != Sent
    requires forall k :: 0 <= k < |s.table| && k != id ==> s'.table[k] == s.table[k]
    requires s'.sends == s.sends
             || (&& s'.table[id].status == Sent && s'.table[id].hash.Some?
                 && s'.sends == s.sends + [Send(id, KeyOf(s'.table[id]), s.clock)])
    ensures SentOnceInv(s')
  {
    forall r | 0 <= r < |s.sends| ensures SendRecorded(s', s.sends[r]) && s.sends[r].id != id {
      assert SendRecorded(s, s.sends[r]);
    }
  }

  lemma SparingStepKeepsSentOnce(s: State, step: Step)
    requires SentOnceInv(s) && Enabled(s, step) && Spares(s, step)
    ensures SentOnceInv(Apply(s, step))
  {
    StepKeepsInv(s, step);
    var s' := Apply(s, step);
    match step
    case FinishSent(w) => FinishKeepsSentOnce(s, s', s.workers[w].id);
    case FinishSuppressed(w) => FinishKeepsSentOnce(s, s', s.workers[w].id);
    case Select(_, _) => UnsentStepKeepsSentOnce(s, s');
    case Insert(_) => UnsentStepKeepsSentOnce(s, s');
    case Wait(_) => UnsentStepKeepsSentOnce(s, s');
    case Crash(_) => UnsentStepKeepsSentOnce(s, s');
  }

  /** An owner's finish is sparing: its row is still open. */
  lemma OwnersSpare(s: State, step: Step)
    requires Enabled(s, step) && FinishesOwnRow(s, step)
    ensures Spares(s, step)
  {
  }

  lemma StepKeepsOwned(s: State, step: Step)
    requires SentOnceInv(s) && Enabled(s, step) && FinishesOwnRow(s, step)
    ensures SentOnceInv(Apply(s, step))
    ensures FinishedRowsFrozen(s.table, Apply(s, step).table)
  {
    hide SendRecorded, SendsOnDistinctRows, Inv;
    OwnersSpare(s, step);
    SparingStepKeepsSentOnce(s, step);
  }

  lemma SentOnceMeansNoKeySentTwice(s: State)
    requires SentOnceInv(s)
    ensures NoKeySentTwice(s)
  {
    forall a, b | 0 <= a < b < |s.sends| ensures s.sends[a].key != s.sends[b].key {
      var i, j := s.sends[a].id, s.sends[b].id;
      assert SendRecorded(s, s.sends[a]) && SendRecorded(s, s.sends[b]);
      if i < j {
        assert !Conflict(s.table[i], s.table[j]);
      } else {
        assert !Conflict(s.table[j], s.table[i]);
      }
    }
  }

  // ---- One timely step --------------------------------------------------------------

  /** Whoever finishes within the lease still owns its row. */
  lemma TimelyStepIsOwned(s: State, step: Step)
    requires TimelyInv(s) && Enabled(s, step) && InTime(s, step)
    ensures FinishesOwnRow(s, step)
  {
    hide SentOnceInv, OwnsRow;
    match step
    case FinishSent(w) => assert LiveClaimHolds(s, s.workers[w]);
    case FinishSuppressed(w) => assert LiveClaimHolds(s, s.workers[w]);
    case _ =>
  }

  ghost predicate LiveClaims(s: State) {
    && (forall w :: 0 <= w < |s.workers| ==> LiveClaimHolds(s, s.workers[w]))
    && NoSharedLiveClaim(s)
  }

  /** A claim of a row whose lease is over takes it from nobody whose lease still runs. */
  lemma TakeKeepsLive(s: State, w: nat, t: Table, id: nat)
    requires LiveClaims(s) && w < |s.workers|
    requires id < |t| && |s.table| <= |t|
    requires t[id].status == Sending && t[id].claimedAt == Some(s.clock)
    requires forall k :: 0 <= k < |s.table| && k != id ==> t[k] == s.table[k]
    requires id < |s.table| ==> s.clock - s.table[id].LeaseStart() >= LEASE_TIMEOUT
    requires forall v :: 0 <= v < |s.workers| && s.workers[v].Claimed? ==> s.workers[v].id < |s.table|
    ensures LiveClaims(Take(s, w, t, id))
  {
    var s' := Take(s, w, t, id);
    forall v | 0 <= v < |s'.workers| ensures LiveClaimHolds(s', s'.workers[v]) {
      assert LiveClaimHolds(s, s.workers[v]);
    }
    forall u, v | 0 <= u < v < |s'.workers| && s'.workers[u].Claimed? && s'.workers[v].Claimed?
                  && s'.workers[u].id == s'.workers[v].id
      ensures s'.workers[u].at != s'.workers[v].at
    {
      assert LiveClaimHolds(s, s.workers[u]) && LiveClaimHolds(s, s.workers[v]);
    }
  }

  /** A finish by an owner takes its row from nobody whose lease still runs. */
  lemma FinishKeepsLive(s: State, w: nat, t: Table, sends: seq<Send>)
    requires LiveClaims(s) && w < |s.workers| && OwnsRow(s, s.workers[w])
    requires |t| == |s.table|
    requires forall k :: 0 <= k < |s.table| && k != s.workers[w].id ==> t[k] == s.table[k]
    ensures LiveClaims(Goto(s, w, Idle).(table := t, sends := sends))
  {
    var s' := Goto(s, w, Idle).(table := t, sends := sends);
    forall v | 0 <= v < |s'.workers| ensures LiveClaimHolds(s', s'.workers[v]) {
      assert LiveClaimHolds(s, s.workers[v]);
    }
  }

  /** A step that leaves the table alone, and gives no worker a new claim. */
  lemma QuietStepKeepsLive(s: State, s': State)
    requires LiveClaims(s) && s'.table == s.table && s.clock <= s'.clock
    requires |s'.workers| == |s.workers|
    requires forall w :: 0 <= w < |s.workers| && s'.workers[w].Claimed? ==> s'.workers[w] == s.workers[w]
    ensures LiveClaims(s')
  {
    forall w | 0 <= w < |s'.workers| ensures LiveClaimHolds(s', s'.workers[w]) {
      assert LiveClaimHolds(s, s.workers[w]);
    }
  }

  lemma StepKeepsLive(s: State, step: Step)
    requires TimelyInv(s) && Enabled(s, step) && FinishesOwnRow(s, step)
    ensures LiveClaims(Apply(s, step))
  {
    hide LiveClaimHolds, NoSharedLiveClaim, ClaimCovered, ClaimsLeaseApart, SendRecorded, SendsOnDistinctRows;
    var s' := Apply(s, step);
    match step
    case Select(w, key) =>
      var found := LookUp(s.table, key.rule, key.hash, s.clock);
      if found.Stale? {
        var t := Reclaim(s.table, found.id, s.clock);
        UpdateKeepsIndex(s.table, found.id, t[found.id]);
        TakeKeepsLive(s, w, t, found.id);
      } else if found.Absent? {
        QuietStepKeepsLive(s, s');
      }
    case Insert(w) =>
      var key := s.workers[w].key;
      InsertRefusedIffActive(s.table, key.rule, key.hash, s.clock);
      var created := CreateEvent(s.table, key.rule, Some(key.hash), s.clock);
      if created.Ok? {
        TakeKeepsLive(s, w, created.value, |s.table|);
      } else {
        QuietStepKeepsLive(s, s');
      }
    case FinishSent(w) =>
      var id := s.workers[w].id;
      UpdateKeepsIndex(s.table, id, s.table[id].(sentAt := Some(s.clock), status := Sent));
      FinishKeepsLive(s, w, s'.table, s'.sends);
    case FinishSuppressed(w) =>
      var id := s.workers[w].id;
      UpdateKeepsIndex(s.table, id, s.table[id].(suppressed := true, reason := Some(""), status := Suppressed));
      FinishKeepsLive(s, w, s'.table, s'.sends);
    case Wait(_) => QuietStepKeepsLive(s, s');
    case Crash(_) => QuietStepKeepsLive(s, s');
  }

  lemma StepKeepsTimely(s: State, step: Step)
    requires TimelyInv(s) && Enabled(s, step) && InTime(s, step)
    ensures TimelyInv(Apply(s, step))
    ensures FinishesOwnRow(s, step)
    ensures FinishedRowsFrozen(s.table, Apply(s, step).table)
  {
    hide Apply, SentOnceInv, FinishesOwnRow, LiveClaimHolds, NoSharedLiveClaim;
    TimelyStepIsOwned(s, step);
    StepKeepsOwned(s, step);
    StepKeepsLive(s, step);
  }

  // ---- Whole runs -------------------------------------------------------------------

  lemma {:induction false} RunKeepsInv(states: seq<State>, steps: seq<Step>, n: nat)
    requires Run(states, steps) && n < |states|
    ensures Inv(states[n])
  {
    if n > 0 {
      RunKeepsInv(states, steps, n - 1);
      StepKeepsInv(states[n - 1], steps[n - 1]);
    }
  }

  lemma {:induction false} TimelyRunKeepsInv(states: seq<State>, steps: seq<Step>, n: nat)
    requires TimelyRun(states, steps) && n < |states|
    ensures TimelyInv(states[n])
  {
    if n > 0 {
      TimelyRunKeepsInv(states, steps, n - 1);
      StepKeepsTimely(states[n - 1], steps[n - 1]);
    }
  }

  lemma {:induction false} RunGrows(states: seq<State>, steps: seq<Step>, i: nat, j: nat)
    requires Run(states, steps) && i <= j < |states|
    ensures Grows(states[i], states[j])
    decreases j
  {
    if i < j {
      hide Apply, Grows;
      RunGrows(states, steps, i, j - 1);
      StepGrows(states[j - 1], steps[j - 1]);
      GrowsTransitive(states[i], states[j - 1], states[j]);
    }
  }

  lemma GrowsTransitive(s: State, t: State, u: State)
    requires Grows(s, t) && Grows(t, u)
    ensures Grows(s, u)
  {
  }

  /** In every run, timely or not, a key never has two active rows. */
  lemma EveryRunKeepsOneActiveRow(states: seq<State>, steps: seq<Step>, n: nat, key: Key,
                                  i: nat, j: nat)
    requires Run(states, steps) && n < |states|
    requires i < |states[n].table| && j < |states[n].table|
    requires states[n].table[i].Active() && states[n].table[j].Active()
    requires states[n].table[i].HasKey(key.rule, key.hash) && states[n].table[j].HasKey(key.rule, key.hash)
    ensures i == j
  {
    RunKeepsInv(states, steps, n);
    var t := states[n].table;
    assert i < j ==> !Conflict(t[i], t[j]);
    assert j < i ==> !Conflict(t[j], t[i]);
  }

  /** In every run, timely or not, two claims of one row are at least a lease apart. */
  lemma ClaimsOfARowAreALeaseApart(states: seq<State>, steps: seq<Step>, n: nat)
    requires Run(states, steps) && n < |states|
    ensures ClaimsLeaseApart(states[n].claims)
  {
    RunKeepsInv(states, steps, n);
  }

  lemma {:induction false} OwnedRunKeepsInv(states: seq<State>, steps: seq<Step>, n: nat)
    requires OwnedRun(states, steps) && n < |states|
    ensures SentOnceInv(states[n])
  {
    if n > 0 {
      hide Apply, SentOnceInv, FinishesOwnRow;
      OwnedRunKeepsInv(states, steps, n - 1);
      StepKeepsOwned(states[n - 1], steps[n - 1]);
    }
  }

  /** Finishing within the lease is finishing as the row's last claimant. */
  lemma TimelyRunIsOwned(states: seq<State>, steps: seq<Step>)
    requires TimelyRun(states, steps)
    ensures OwnedRun(states, steps)
  {
    hide Apply, TimelyInv, FinishesOwnRow;
    forall i | 0 <= i < |steps| ensures FinishesOwnRow(states[i], steps[i]) {
      TimelyRunKeepsInv(states, steps, i);
      TimelyStepIsOwned(states[i], steps[i]);
    }
  }

  lemma {:induction false} SparingRunKeepsInv(states: seq<State>, steps: seq<Step>, n: nat)
    requires SparingRun(states, steps) && n < |states|
    ensures SentOnceInv(states[n])
  {
    if n > 0 {
      hide Apply, SentOnceInv, Spares;
      SparingRunKeepsInv(states, steps, n - 1);
      SparingStepKeepsSentOnce(states[n - 1], steps[n - 1]);
    }
  }

  /**
    At most once: when no delivery is finished on a row that is already sent, no run records two
    sends for one (rule, payload hash), whoever finishes and however long deliveries take.
   */
  lemma SparingRunsSendAtMostOnce(states: seq<State>, steps: seq<Step>, n: nat)
    requires SparingRun(states, steps) && n < |states|
    ensures NoKeySentTwice(states[n])
  {
    SparingRunKeepsInv(states, steps, n);
    SentOnceMeansNoKeySentTwice(states[n]);
  }

  /** In particular, when every delivery is finished by the last claimant of its row, or never. */
  lemma OwnersSendAtMostOnce(states: seq<State>, steps: seq<Step>, n: nat)
    requires OwnedRun(states, steps) && n < |states|
    ensures NoKeySentTwice(states[n])
  {
    hide Apply, FinishesOwnRow, Spares, NoKeySentTwice;
    forall i | 0 <= i < |steps| ensures Spares(states[i], steps[i]) {
      OwnersSpare(states[i], steps[i]);
    }
    SparingRunsSendAtMostOnce(states, steps, n);
  }

  /**
    In particular, when every claimant finishes within its lease or never, no run records two
    sends for one (rule, payload hash).
   */
  lemma AtMostOneSendPerKey(states: seq<State>, steps: seq<Step>, n: nat)
    requires TimelyRun(states, steps) && n < |states|
    ensures NoKeySentTwice(states[n])
  {
    TimelyRunIsOwned(states, steps);
    OwnersSendAtMostOnce(states, steps, n);
  }

  /** When owners finish, a row that has reached `sent` or `suppressed` never changes again. */
  lemma {:induction false} FinishedRowsNeverChange(states: seq<State>, steps: seq<Step>, i: nat, j: nat)
    requires OwnedRun(states, steps) && i <= j < |states|
    ensures FinishedRowsFrozen(states[i].table, states[j].table)
    decreases j
  {
    if i < j {
      hide Apply, SentOnceInv, FinishesOwnRow;
      FinishedRowsNeverChange(states, steps, i, j - 1);
      OwnedRunKeepsInv(states, steps, j - 1);
      StepKeepsOwned(states[j - 1], steps[j - 1]);
    }
  }

  /** This step records a send of `key`. */
  predicate RecordsSend(s: State, step: Step, key: Key)
    requires Enabled(s, step)
  {
    && |Apply(s, step).sends| > |s.sends|
    && Apply(s, step).sends[|s.sends|].key == key
  }

  /** When owners finish, a key that has a sent row, from this run or from before, is never sent again. */
  lemma SentKeyIsNeverSentAgain(states: seq<State>, steps: seq<Step>, i: nat, m: nat, k: nat, key: Key)
    requires OwnedRun(states, steps) && i <= m < |steps|
    requires k < |states[i].table|
    requires states[i].table[k].status == Sent && states[i].table[k].HasKey(key.rule, key.hash)
    ensures !RecordsSend(states[m], steps[m], key)
  {
    var s, step := states[m], steps[m];
    FinishedRowsNeverChange(states, steps, i, m);
    OwnedRunKeepsInv(states, steps, m);
    if RecordsSend(s, step, key) {
      var id := s.workers[step.w].id;
      EveryRunKeepsOneActiveRow(states, steps, m, key, id, k);
      assert false;
    }
  }

  // ---- Racing for a fresh key -------------------------------------------------------

  /** In this step some worker inserts row `id` for `key` and is told "created". */
  predicate Wins(s: State, step: Step, key: Key, id: nat)
    requires Enabled(s, step)
  {
    step.Insert? && s.workers[step.w].key == key && Answer(s, step) == Some(Reply(id, true))
  }

  lemma WinnerRow(s: State, step: Step, key: Key, id: nat)
    requires Enabled(s, step) && Wins(s, step, key, id)
    ensures var s' := Apply(s, step);
            && id == |s.table| < |s'.table|
            && s'.table[id].HasKey(key.rule, key.hash)
            && s'.claims == s.claims + [Claim(id, s.clock)]
  {
  }

  /** Two workers can both insert a key only if the first row was suppressed in between. */
  lemma SecondInsertOnlyAfterSuppression(states: seq<State>, steps: seq<Step>, i: nat, j: nat, key: Key,
                                         a: nat, b: nat)
    requires Run(states, steps) && i < j < |steps|
    requires Wins(states[i], steps[i], key, a) && Wins(states[j], steps[j], key, b)
    ensures a < b && a < |states[j].table| && states[j].table[a].status == Suppressed
  {
    WinnerRow(states[i], steps[i], key, a);
    WinnerRow(states[j], steps[j], key, b);
    RunGrows(states, steps, i + 1, j);
    RunKeepsInv(states, steps, j);
    InsertRefusedIffActive(states[j].table, key.rule, key.hash, states[j].clock);
  }

  /**
    While the winner's row is active, every later call for the key is answered with that very
    row; it is told "created" only by a reclaim, a full lease after the winner's claim.
   */
  lemma LosersGetTheWinnersRow(states: seq<State>, steps: seq<Step>, i: nat, j: nat, key: Key, a: nat)
    requires Run(states, steps) && i < j < |steps|
    requires Wins(states[i], steps[i], key, a)
    requires a < |states[j].table| && states[j].table[a].Active()
    requires match steps[j]
             case Select(_, k) => k == key
             case Insert(w) => states[j].workers[w].key == key
             case _ => false
    ensures var answer := Answer(states[j], steps[j]);
            && answer.Some? && answer.value.id == a
            && (answer.value.created ==>
                  steps[j].Select? && states[j].clock - states[i].clock >= LEASE_TIMEOUT)
  {
    var s, t := states[j], states[j].table;
    WinnerRow(states[i], steps[i], key, a);
    RunGrows(states, steps, i + 1, j);
    RunKeepsInv(states, steps, j);
    ActiveRowIsUnique(t, key.rule, key.hash, a);
    InsertRefusedIffActive(t, key.rule, key.hash, s.clock);
    assert s.claims[|states[i].claims|] == Claim(a, states[i].clock);
    assert ClaimCovered(s, Claim(a, states[i].clock));
    if steps[j].Select? && LookUp(t, key.rule, key.hash, s.clock).Stale? {
      UpdateKeepsIndex(t, a, Reclaim(t, a, s.clock)[a]);
    }
  }

  // ---- Why the lease hypothesis is needed -------------------------------------------

  /**
    From every state a timely run can reach in which some claimant has outlived its lease with
    the row still open, and another worker is idle, three steps lead to two recorded sends of
    one key: the idle worker reclaims the row and sends, and then so does the late claimant.
   */
  lemma LateClaimantCanSendTwice(s: State, late: nat, idle: nat)
    requires TimelyInv(s)
    requires late < |s.workers| && idle < |s.workers|
    requires s.workers[late].Claimed? && s.workers[idle].Idle?
    requires s.clock >= s.workers[late].at + LEASE_TIMEOUT
    requires s.table[s.workers[late].id].status == Sending
    requires s.table[s.workers[late].id].claimedAt == Some(s.workers[late].at)
    ensures var key := KeyOf(s.table[s.workers[late].id]);
            Enabled(s, Select(idle, key)) &&
            var s1 := Apply(s, Select(idle, key));
            Enabled(s1, FinishSent(idle)) && InTime(s1, FinishSent(idle)) &&
            var s2 := Apply(s1, FinishSent(idle));
            Enabled(s2, FinishSent(late)) && !InTime(s2, FinishSent(late)) &&
            var s3 := Apply(s2, FinishSent(late));
            !NoKeySentTwice(s3)
  {
    var id := s.workers[late].id;
    var key := KeyOf(s.table[id]);
    ActiveRowIsUnique(s.table, key.rule, key.hash, id);
    UpdateKeepsIndex(s.table, id, Reclaim(s.table, id, s.clock)[id]);
    var s1 := Apply(s, Select(idle, key));
    assert s1.workers[idle] == Claimed(id, s.clock);
    UpdateKeepsIndex(s1.table, id, s1.table[id].(sentAt := Some(s1.clock), status := Sent));
    var s2 := Apply(s1, FinishSent(idle));
    assert s2.workers[late] == s.workers[late];
    UpdateKeepsIndex(s2.table, id, s2.table[id].(sentAt := Some(s2.clock), status := Sent));
    var s3 := Apply(s2, FinishSent(late));
    var n := |s.sends|;
    assert s3.sends[n].key == key && s3.sends[n + 1].key == key;
  }

  /** Such states are reached: for every key and start, one of two workers claims the key and stalls. */
  lemma StalledClaim(key: Key, clock: int) returns (states: seq<State>, steps: seq<Step>)
    ensures TimelyRun(states, steps) && steps == [Select(0, key), Insert(0), Wait(LEASE_TIMEOUT)]
    ensures states[0] == State(clock, [], [Idle, Idle], [], [])
    ensures var s := states[3];
            && s.clock == clock + LEASE_TIMEOUT && s.workers == [Claimed(0, clock), Idle]
            && s.table == [NewEvent(key.rule, Some(key.hash), clock)]
  {
    steps := [Select(0, key), Insert(0), Wait(LEASE_TIMEOUT)];
    var s0 := State(clock, [], [Idle, Idle], [], []);
    var s1 := Apply(s0, steps[0]);
    assert s1.workers == [Inserting(key), Idle] && s1.table == [];
    var s2 := Apply(s1, steps[1]);
    assert s2.table == [NewEvent(key.rule, Some(key.hash), clock)] && s2.workers == [Claimed(0, clock), Idle];
    states := [s0, s1, s2, Apply(s2, steps[2])];
  }

  /** Hence for every key and start there is a run, late only in its last step, that sends the key twice. */
  lemma LateRunSendsTwice(key: Key, clock: int) returns (states: seq<State>, steps: seq<Step>)
    ensures Run(states, steps) && |steps| == 6
    ensures states[0] == State(clock, [], [Idle, Idle], [], [])
    ensures forall i :: 0 <= i < 5 ==> InTime(states[i], steps[i])
    ensures !InTime(states[5], steps[5]) && !NoKeySentTwice(states[6])
  {
    hide Apply, NoKeySentTwice, TimelyInv;
    var before, first := StalledClaim(key, clock);
    TimelyRunKeepsInv(before, first, 3);
    var s3 := before[3];
    LateClaimantCanSendTwice(s3, 0, 1);
    var s4 := Apply(s3, Select(1, key));
    var s5 := Apply(s4, FinishSent(1));
    states := before + [s4, s5, Apply(s5, FinishSent(0))];
    steps := first + [Select(1, key), FinishSent(1), FinishSent(0)];
  }

  // ---- A call nobody interrupts -----------------------------------------------------

  /** Select and insert, taken in succession by one worker, are one call of `create_event_once`. */
  lemma UninterruptedCallIsCreateOnce(s: State, w: nat, key: Key)
    requires UniqueIndex(s.table) && w < |s.workers| && s.workers[w].Idle?
    ensures var s1 := Apply(s, Select(w, key));
            var s2 := if s1.workers[w].Inserting? then Apply(s1, Insert(w)) else s1;
            var answer := if s1.workers[w].Inserting? then Answer(s1, Insert(w)) else Answer(s, Select(w, key));
            && answer.Some?
            && CreateOnce(s.table, key.rule, key.hash, s.clock, s.clock) == Ok((s2.table, answer.value))
            && (answer.value.created <==> s2.workers[w] == Claimed(answer.value.id, s.clock))
  {
    CreateEventOnceMeaning(s.table, key.rule, key.hash, s.clock, s.clock);
    InsertRefusedIffActive(s.table, key.rule, key.hash, s.clock);
  }
}
