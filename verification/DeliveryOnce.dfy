/** Exactly which runs of the delivery protocol send a key twice. */
module DeliveryOnce {
  import opened Wrappers
  import opened NotificationEvents
  import opened DeliveryProtocol
  import opened DeliverySafety

  // ---- Recorded keys ----------------------------------------------------------------

  ghost predicate Recorded(sends: seq<Send>, key: Key) {
    exists r :: 0 <= r < |sends| && sends[r].key == key
  }

  /** A claimant's row that is sent was sent in this run. */
  ghost predicate ClaimedSentRecorded(s: State) {
    && Inv(s)
    && forall w :: 0 <= w < |s.workers| && s.workers[w].Claimed? && s.table[s.workers[w].id].status == Sent ==>
         Recorded(s.sends, KeyOf(s.table[s.workers[w].id]))
  }

  lemma RecordedGrows(sends: seq<Send>, sends': seq<Send>, key: Key)
    requires sends <= sends' && Recorded(sends, key)
    ensures Recorded(sends', key)
  {
    var r :| 0 <= r < |sends| && sends[r].key == key;
    assert sends'[r].key == key;
  }

  /** What a step does to one row: it may open it, or end it, and if it ends it `sent` it records that. */
  ghost predicate RowStep(s: State, s': State, k: nat)
    requires k < |s.table| <= |s'.table|
  {
    var e, e' := s.table[k], s'.table[k];
    && e'.rule == e.rule && e'.hash == e.hash
    && (e'.status == Sent ==> e == e' || (e.hash.Some? ==> Recorded(s'.sends, KeyOf(e'))))
  }

  lemma StepMovesRows(s: State, step: Step, k: nat)
    requires Enabled(s, step) && k < |s.table|
    ensures |s.table| <= |Apply(s, step).table| && RowStep(s, Apply(s, step), k)
  {
    var s' := Apply(s, step);
    if step.FinishSent? && s'.sends != s.sends {
      assert s'.sends[|s.sends|].key == KeyOf(s'.table[s.workers[step.w].id]);
    }
  }

  lemma StepKeepsClaimedSentRecorded(s: State, step: Step)
    requires ClaimedSentRecorded(s) && Enabled(s, step)
    ensures ClaimedSentRecorded(Apply(s, step))
  {
    StepKeepsInv(s, step);
    StepGrows(s, step);
    var s' := Apply(s, step);
    forall w | 0 <= w < |s'.workers| && s'.workers[w].Claimed? && s'.table[s'.workers[w].id].status == Sent
      ensures Recorded(s'.sends, KeyOf(s'.table[s'.workers[w].id]))
    {
      var id := s'.workers[w].id;
      assert s'.workers[w] == s.workers[w];
      StepMovesRows(s, step, id);
      if s'.table[id] == s.table[id] {
        RecordedGrows(s.sends, s'.sends, KeyOf(s.table[id]));
      }
    }
  }

  lemma {:induction false} RunKeepsClaimedSentRecorded(states: seq<State>, steps: seq<Step>, n: nat)
    requires Run(states, steps) && n < |states|
    ensures ClaimedSentRecorded(states[n])
  {
    if n > 0 {
      hide Apply, Inv;
      RunKeepsClaimedSentRecorded(states, steps, n - 1);
      StepKeepsClaimedSentRecorded(states[n - 1], steps[n - 1]);
    }
  }

  // ---- Sending again ----------------------------------------------------------------

  lemma RepeatedKey(s: State, s': State, send: Send)
    requires Recorded(s.sends, send.key) && s'.sends == s.sends + [send]
    ensures !NoKeySentTwice(s')
  {
    var r :| 0 <= r < |s.sends| && s.sends[r].key == send.key;
    assert s'.sends[r].key == s'.sends[|s.sends|].key;
  }

  /** Marking a sent row as sent again records its key a second time. */
  lemma ResendingRepeats(s: State, w: nat)
    requires ClaimedSentRecorded(s) && Enabled(s, FinishSent(w)) && !Spares(s, FinishSent(w))
    ensures !NoKeySentTwice(Apply(s, FinishSent(w)))
  {
    hide ClaimsLeaseApart, ClaimCovered, NoKeySentTwice;
    var id := s.workers[w].id;
    UpdateKeepsIndex(s.table, id, s.table[id].(sentAt := Some(s.clock), status := Sent));
    RepeatedKey(s, Apply(s, FinishSent(w)), Send(id, KeyOf(s.table[id]), s.clock));
  }

  lemma SentTwiceStays(states: seq<State>, steps: seq<Step>, i: nat, j: nat)
    requires Run(states, steps) && i <= j < |states| && NoKeySentTwice(states[j])
    ensures NoKeySentTwice(states[i])
  {
    hide Apply;
    RunGrows(states, steps, i, j);
    forall a, b | 0 <= a < b < |states[i].sends| ensures states[i].sends[a].key != states[i].sends[b].key {
      assert states[j].sends[a] == states[i].sends[a] && states[j].sends[b] == states[i].sends[b];
    }
  }

  /** This step suppresses a row that has been sent. */
  predicate SuppressesSent(s: State, step: Step)
    requires Enabled(s, step)
  {
    step.FinishSuppressed? && !Spares(s, step)
  }

  /**
    In every run in which no suppression hits a sent row, no key is sent twice if and only if no
    worker marks a row as sent that is sent already.
   */
  lemma AtMostOnceIffSparing(states: seq<State>, steps: seq<Step>)
    requires Run(states, steps)
    requires forall i :: 0 <= i < |steps| ==> !SuppressesSent(states[i], steps[i])
    ensures NoKeySentTwice(states[|steps|]) <==> forall i :: 0 <= i < |steps| ==> Spares(states[i], steps[i])
  {
    hide Apply, NoKeySentTwice, Spares, Inv;
    if forall i :: 0 <= i < |steps| ==> Spares(states[i], steps[i]) {
      SparingRunsSendAtMostOnce(states, steps, |steps|);
    }
    if i :| 0 <= i < |steps| && !Spares(states[i], steps[i]) {
      OnlyFinishesDoNotSpare(states[i], steps[i]);
      RunKeepsClaimedSentRecorded(states, steps, i);
      ResendingRepeats(states[i], steps[i].w);
      if NoKeySentTwice(states[|steps|]) {
        SentTwiceStays(states, steps, i + 1, |steps|);
      }
    }
  }

  lemma OnlyFinishesDoNotSpare(s: State, step: Step)
    requires Enabled(s, step) && !Spares(s, step)
    ensures step.FinishSent? || step.FinishSuppressed?
  {
  }

  // ---- Without any hypothesis on suppressions ---------------------------------------

  predicate KeyHasSentTime(t: Table, key: Key) {
    exists k :: 0 <= k < |t| && t[k].HasKey(key.rule, key.hash) && t[k].sentAt.Some?
  }

  /**
    What a worker can look up before it marks its row as sent: no row of its key carries a sent
    time, or the index refuses the row (suppressed meanwhile, with another active row of the key).
   */
  ghost predicate SendsFreshKey(s: State, step: Step)
    requires Enabled(s, step) && Inv(s)
  {
    step.FinishSent? ==>
      var id := s.workers[step.w].id;
      || !KeyHasSentTime(s.table, KeyOf(s.table[id]))
      || SentTable(s.table, id, s.clock, None).Err?
  }

  /** A row that carries a sent time is sent, or was sent in this run; recorded sends leave sent times. */
  ghost predicate SentTimesRecorded(s: State) {
    && (forall k :: 0 <= k < |s.table| && s.table[k].hash.Some? && s.table[k].sentAt.Some? ==>
          s.table[k].status == Sent || Recorded(s.sends, KeyOf(s.table[k])))
    && (forall r :: 0 <= r < |s.sends| ==> KeyHasSentTime(s.table, s.sends[r].key))
  }

  /** A sent time is set with a recorded send and never cleared; only a claimant's suppression ends `sent`. */
  ghost predicate TimeStep(s: State, step: Step, s': State, k: nat)
    requires k < |s.table| <= |s'.table|
  {
    var e, e' := s.table[k], s'.table[k];
    && (e.sentAt.Some? ==> e'.sentAt.Some?)
    && (e'.sentAt.Some? && e.sentAt.None? ==> e'.status == Sent)
    && (e.status == Sent && e'.status != Sent ==>
          step.FinishSuppressed? && Enabled(s, step) && s.workers[step.w].id == k)
  }

  lemma StepMovesTimes(s: State, step: Step, k: nat)
    requires Enabled(s, step) && k < |s.table|
    ensures |s.table| <= |Apply(s, step).table| && TimeStep(s, step, Apply(s, step), k)
  {
  }

  lemma NewRowHasNoTime(s: State, step: Step, k: nat)
    requires Enabled(s, step) && |s.table| <= k < |Apply(s, step).table|
    ensures Apply(s, step).table[k].sentAt.None?
  {
  }

  /** A step records at most one send: of the row a worker marks as sent, which then has a sent time. */
  lemma StepRecords(s: State, step: Step)
    requires Inv(s) && Enabled(s, step)
    ensures var s' := Apply(s, step);
            if step.FinishSent? && SentTable(s.table, s.workers[step.w].id, s.clock, None).Ok? then
              var id := s.workers[step.w].id;
              && id < |s'.table| && s'.table[id].sentAt.Some? && s'.table[id].hash == s.table[id].hash
              && s'.table[id].rule == s.table[id].rule
              && s'.sends == s.sends + [Send(id, KeyOf(s.table[id]), s.clock)]
            else s'.sends == s.sends
  {
    hide ClaimCovered, ClaimsLeaseApart;
  }

  lemma StepKeepsSentTimes(s: State, step: Step)
    requires ClaimedSentRecorded(s) && SentTimesRecorded(s) && Enabled(s, step)
    ensures SentTimesRecorded(Apply(s, step))
  {
    hide Apply, Inv, Recorded, KeyHasSentTime;
    StepGrows(s, step);
    var s' := Apply(s, step);
    forall k | 0 <= k < |s'.table| && s'.table[k].hash.Some? && s'.table[k].sentAt.Some?
      ensures s'.table[k].status == Sent || Recorded(s'.sends, KeyOf(s'.table[k]))
    {
      TimedRowIsRecorded(s, step, k);
    }
    forall r | 0 <= r < |s'.sends| ensures KeyHasSentTime(s'.table, s'.sends[r].key) {
      RecordedSendHasTime(s, step, r);
    }
  }

  lemma TimedRowIsRecorded(s: State, step: Step, k: nat)
    requires ClaimedSentRecorded(s) && SentTimesRecorded(s) && Enabled(s, step)
    requires k < |Apply(s, step).table|
    requires Apply(s, step).table[k].hash.Some? && Apply(s, step).table[k].sentAt.Some?
    ensures Apply(s, step).table[k].status == Sent || Recorded(Apply(s, step).sends, KeyOf(Apply(s, step).table[k]))
  {
    hide Apply, ClaimCovered, ClaimsLeaseApart, UniqueIndex, Recorded;
    StepGrows(s, step);
    if k < |s.table| {
      StepMovesTimes(s, step, k);
      if Recorded(s.sends, KeyOf(s.table[k])) {
        RecordedGrows(s.sends, Apply(s, step).sends, KeyOf(s.table[k]));
      }
    } else {
      NewRowHasNoTime(s, step, k);
    }
  }

  lemma RecordedSendHasTime(s: State, step: Step, r: nat)
    requires Inv(s) && SentTimesRecorded(s) && Enabled(s, step) && r < |Apply(s, step).sends|
    ensures KeyHasSentTime(Apply(s, step).table, Apply(s, step).sends[r].key)
  {
    hide Apply, ClaimCovered, ClaimsLeaseApart, UniqueIndex, Recorded;
    StepGrows(s, step);
    StepRecords(s, step);
    var s' := Apply(s, step);
    if r < |s.sends| {
      var key := s.sends[r].key;
      assert KeyHasSentTime(s.table, key);
      var k :| 0 <= k < |s.table| && s.table[k].HasKey(key.rule, key.hash) && s.table[k].sentAt.Some?;
      StepMovesTimes(s, step, k);
      assert s'.table[k].HasKey(key.rule, key.hash);
    } else {
      assert s'.table[s.workers[step.w].id].HasKey(s'.sends[r].key.rule, s'.sends[r].key.hash);
    }
  }

  /** A key with a sent time that the index accepts once more was sent in this run. */
  lemma StaleKeyIsRecorded(s: State, w: nat)
    requires ClaimedSentRecorded(s) && SentTimesRecorded(s) && Enabled(s, FinishSent(w))
    requires !SendsFreshKey(s, FinishSent(w))
    ensures Recorded(s.sends, KeyOf(s.table[s.workers[w].id]))
  {
    hide Recorded, ClaimCovered, ClaimsLeaseApart;
    var id := s.workers[w].id;
    var key := KeyOf(s.table[id]);
    var k :| 0 <= k < |s.table| && s.table[k].HasKey(key.rule, key.hash) && s.table[k].sentAt.Some?;
    var t := SentTable(s.table, id, s.clock, None).value;
    assert k < id ==> !Conflict(t[k], t[id]);
    assert id < k ==> !Conflict(t[id], t[k]);
  }

  lemma StepSendsOnceIff(s: State, step: Step)
    requires ClaimedSentRecorded(s) && SentTimesRecorded(s) && Enabled(s, step) && NoKeySentTwice(s)
    ensures NoKeySentTwice(Apply(s, step)) <==> SendsFreshKey(s, step)
  {
    hide Apply, UniqueIndex, ClaimCovered, ClaimsLeaseApart, SentTable, Recorded, KeyHasSentTime;
    StepRecords(s, step);
    var s' := Apply(s, step);
    if !SendsFreshKey(s, step) {
      StaleKeyIsRecorded(s, step.w);
      RepeatedKey(s, s', Send(s.workers[step.w].id, KeyOf(s.table[s.workers[step.w].id]), s.clock));
    } else {
      forall a, b | 0 <= a < b < |s'.sends| ensures s'.sends[a].key != s'.sends[b].key {
        assert KeyHasSentTime(s.table, s.sends[a].key);
      }
    }
  }

  lemma {:induction false} RunKeepsSentTimes(states: seq<State>, steps: seq<Step>, n: nat)
    requires Run(states, steps) && n < |states| && SentTimesRecorded(states[0])
    ensures ClaimedSentRecorded(states[n]) && SentTimesRecorded(states[n])
  {
    hide Apply, Inv;
    RunKeepsClaimedSentRecorded(states, steps, n);
    if n > 0 {
      RunKeepsSentTimes(states, steps, n - 1);
      StepKeepsSentTimes(states[n - 1], steps[n - 1]);
    }
  }

  lemma {:induction false} SentOnceUpToIff(states: seq<State>, steps: seq<Step>, n: nat)
    requires Run(states, steps) && n < |states| && SentTimesRecorded(states[0])
    ensures forall i :: 0 <= i < |steps| ==> Inv(states[i])
    ensures NoKeySentTwice(states[n]) <==> forall i :: 0 <= i < n ==> SendsFreshKey(states[i], steps[i])
  {
    hide Apply, Inv, SentTimesRecorded, SendsFreshKey;
    forall i | 0 <= i < |steps| ensures Inv(states[i]) {
      RunKeepsInv(states, steps, i);
    }
    if n > 0 {
      SentOnceUpToIff(states, steps, n - 1);
      RunKeepsSentTimes(states, steps, n - 1);
      if NoKeySentTwice(states[n - 1]) {
        StepSendsOnceIff(states[n - 1], steps[n - 1]);
      } else if NoKeySentTwice(states[n]) {
        SentTwiceStays(states, steps, n - 1, n);
      }
    }
  }

  /**
    In every run from a table in which only sent rows carry a sent time, no key is sent twice if
    and only if each worker that marks its row as sent finds no sent time on any row of its key,
    or is refused by the index.
   */
  lemma AtMostOnceIffKeyIsFresh(states: seq<State>, steps: seq<Step>)
    requires Run(states, steps)
    requires forall k :: 0 <= k < |states[0].table| && states[0].table[k].sentAt.Some? ==>
               states[0].table[k].status == Sent
    ensures forall i :: 0 <= i < |steps| ==> Inv(states[i])
    ensures NoKeySentTwice(states[|steps|]) <==> forall i :: 0 <= i < |steps| ==> SendsFreshKey(states[i], steps[i])
  {
    SentOnceUpToIff(states, steps, |steps|);
  }
}
