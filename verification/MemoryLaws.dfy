/** What sequences of memory calls keep: contexts stay apart, turns are the last twenty, proposals survive. */
module MemoryLaws {
  import Durations
  import opened Wrappers
  import opened ContextKeys
  import opened ThreadMemory

  // ---- Calls ------------------------------------------------------------------------

  datatype Op<P> =
    | Store(p: P)
    | Clear
    | Get(ttl: Option<int>)
    | Save(turn: Turn, ttl: Option<int>)
    | Load(ttl: Option<int>)

  datatype Call<P> = Call(key: ContextKey, op: Op<P>, now: int)

  /** The rows after a call, as the service methods leave them. */
  function Do<P>(cs: Contexts<P>, c: Call<P>, default: int): Contexts<P> {
    var key := KeyText(c.key);
    match c.op
    case Store(p) => Rewritten(cs, key, Stored(Opened(cs, key), p, c.now)).0
    case Clear => Rewritten(cs, key, Cleared(Opened(cs, key))).0
    case Get(ttl) => PendingReply(cs, key, ttl.GetOr(default), c.now).0
    case Save(turn, ttl) => Rewritten(cs, key, Saved(Opened(cs, key), turn, ttl.GetOr(default), c.now)).0
    case Load(ttl) => TurnsReply(cs, key, ttl, default, c.now).0
  }

  function Exec<P>(cs: Contexts<P>, calls: seq<Call<P>>, default: int): Contexts<P> {
    if calls == [] then cs
    else
      var n := |calls| - 1;
      Do(Exec(cs, calls[..n], default), calls[n], default)
  }

  /** The same calls on the metadata of a single context. */
  function Effect<P>(md: Metadata<P>, op: Op<P>, now: int, default: int): Metadata<P> {
    match op
    case Store(p) => Stored(md, p, now)
    case Clear => Cleared(md)
    case Get(ttl) => if PendingExpired(md, ttl.GetOr(default), now) then Cleared(md) else md
    case Save(turn, ttl) => Saved(md, turn, ttl.GetOr(default), now)
    case Load(ttl) => if TurnsExpired(md, ttl, default, now) then Forgotten(md) else md
  }

  function Replay<P>(md: Metadata<P>, calls: seq<Call<P>>, default: int): Metadata<P> {
    if calls == [] then md
    else
      var n := |calls| - 1;
      Effect(Replay(md, calls[..n], default), calls[n].op, calls[n].now, default)
  }

  function CallsOf<P>(calls: seq<Call<P>>, k: ContextKey): seq<Call<P>> {
    if calls == [] then []
    else
      var n := |calls| - 1;
      CallsOf(calls[..n], k) + (if calls[n].key == k then [calls[n]] else [])
  }

  // ---- Contexts are independent -----------------------------------------------------

  lemma DoIsLocal<P>(cs: Contexts<P>, c: Call<P>, default: int, k: ContextKey)
    ensures At(Do(cs, c, default), k)
            == if k == c.key then Effect(At(cs, k), c.op, c.now, default) else At(cs, k)
  {
    hide KeyText, ParseKey;
    KeyRoundTrip(c.key);
    if KeyText(k) == KeyText(c.key) {
      KeyTextInjective(k, c.key);
    }
  }

  /** Whatever else happens, a context ends as if only its own calls had been made. */
  lemma {:induction false} ContextsAreIndependent<P>(cs: Contexts<P>, calls: seq<Call<P>>, default: int, k: ContextKey)
    ensures At(Exec(cs, calls, default), k) == Replay(At(cs, k), CallsOf(calls, k), default)
  {
    if calls != [] {
      hide At, Do, Effect, Replay;
      var n := |calls| - 1;
      ContextsAreIndependent(cs, calls[..n], default, k);
      DoIsLocal(Exec(cs, calls[..n], default), calls[n], default, k);
      var own := CallsOf(calls[..n], k);
      if calls[n].key == k {
        ReplayOneMore(At(cs, k), own, calls[n], default);
      } else {
        assert own + [] == own;
      }
    } else {
      ReplayNothing(At(cs, k), default);
    }
  }

  lemma ReplayOneMore<P>(md: Metadata<P>, calls: seq<Call<P>>, c: Call<P>, default: int)
    ensures Replay(md, calls + [c], default) == Effect(Replay(md, calls, default), c.op, c.now, default)
  {
    assert (calls + [c])[..|calls|] == calls;
  }

  lemma ReplayNothing<P>(md: Metadata<P>, default: int)
    ensures Replay(md, [], default) == md
  {
  }

  /**
    A rewriting call on a text that parses succeeds exactly when the text is canonical, as long
    as every row was created under a key.
   */
  lemma WritesNeedCanonicalText<P>(cs: Contexts<P>, key: string, md: Metadata<P>)
    requires forall text :: text in cs ==> Canonical(text)
    requires ParseKey(key).Some?
    ensures Rewritten(cs, key, md).1.Ok? <==> Canonical(key)
    ensures forall text :: text in Rewritten(cs, key, md).0 ==> Canonical(text)
  {
    hide KeyText, ParseKey;
    KeyRoundTrip(ParseKey(key).value);
  }

  /** A stamp is there exactly with what it stamps. */
  ghost predicate StampsBelong<P>(md: Metadata<P>) {
    && (md.pending.Some? <==> md.pendingAt.Some?)
    && (md.turns.Some? <==> md.turnsAt.Some?) && (md.turns.Some? <==> md.turnsTtl.Some?)
  }

  /** Clearing and forgetting leave no stamps behind: after any calls on a context they belong to something. */
  lemma {:induction false} NoStrayStamps<P>(calls: seq<Call<P>>, default: int)
    ensures StampsBelong(Replay(Empty<P>(), calls, default))
  {
    if calls != [] {
      hide PendingExpired, TurnsExpired;
      NoStrayStamps(calls[..|calls| - 1], default);
    }
  }

  // ---- Every text -------------------------------------------------------------------

  /** The row a text is about is opened by every call, unless the text does not parse. */
  ghost predicate Opens<P>(cs: Contexts<P>, cs': Contexts<P>, key: string) {
    if ParseKey(key).None? then cs' == cs else KeyText(ParseKey(key).value) in cs'
  }

  /**
    Reading under any text: one that does not parse is an error and changes nothing; otherwise the
    row of its key is opened, and the answer is the proposal or the turns of that row, unless they
    have expired: then nothing, or an error when the text is not the one the key prints as.
   */
  lemma ReadsUnderAnyText<P>(cs: Contexts<P>, key: string, ttl: int, own: Option<int>, now: int)
    requires forall text :: text in cs ==> Canonical(text)
    ensures var (cs', r) := PendingReply(cs, key, ttl, now);
            Opens(cs, cs', key) &&
            if ParseKey(key).None? then r == Err(BadKey)
            else
              var md := At(cs, ParseKey(key).value);
              if !PendingExpired(md, ttl, now) then r == Ok(md.pending)
              else if Canonical(key) then r == Ok(None)
              else r == Err(NoSuchContext)
    ensures var (cs', r) := TurnsReply(cs, key, own, ttl, now);
            Opens(cs, cs', key) &&
            if ParseKey(key).None? then r == Err(BadKey)
            else
              var md := At(cs, ParseKey(key).value);
              if !TurnsExpired(md, own, ttl, now) then r == Ok(Last(md.turns.GetOr([]), MAX_TURNS))
              else if Canonical(key) then r == Ok([])
              else r == Err(NoSuchContext)
  {
    hide KeyText, ParseKey, PendingExpired, TurnsExpired, Last;
    if ParseKey(key).Some? {
      KeyRoundTrip(ParseKey(key).value);
      WritesNeedCanonicalText(cs, key, Cleared(At(cs, ParseKey(key).value)));
      WritesNeedCanonicalText(cs, key, Forgotten(At(cs, ParseKey(key).value)));
    }
  }

  // ---- Turns ------------------------------------------------------------------------

  /** The turn a save adds: stamped with the time of the call unless it carries a time of its own. */
  function TurnOf<P>(c: Call<P>): Turn
    requires c.op.Save?
  {
    Turn(c.op.turn.content, Some(c.op.turn.timestamp.GetOr(c.now)))
  }

  /** Call `i` is the last save. */
  ghost predicate LastSave<P>(calls: seq<Call<P>>, i: nat) {
    && i < |calls| && calls[i].op.Save?
    && forall j :: i < j < |calls| ==> !calls[j].op.Save?
  }

  /** The last save is longer ago than the asked time to live, else than its own, else than the default. */
  ghost predicate TurnsOld<P>(calls: seq<Call<P>>, ttl: Option<int>, default: int, now: int) {
    exists i: nat :: LastSave(calls, i)
      && now - calls[i].now > ttl.GetOr(calls[i].op.ttl.GetOr(default)) * Durations.DAY
  }

  /** Everything a context saved since a load last found its turns too old, however long. */
  ghost function TurnLog<P>(calls: seq<Call<P>>, default: int): seq<Turn> {
    if calls == [] then []
    else
      var n := |calls| - 1;
      var before := TurnLog(calls[..n], default);
      match calls[n].op
      case Save(_, _) => before + [TurnOf(calls[n])]
      case Load(ttl) => if TurnsOld(calls[..n], ttl, default, calls[n].now) then [] else before
      case _ => before
  }

  /** What the metadata of the turns says after these calls of one context. */
  ghost predicate TurnsMatch<P>(md: Metadata<P>, calls: seq<Call<P>>, default: int) {
    && md.turns.GetOr([]) == Last(TurnLog(calls, default), MAX_TURNS)
    && (md.turns.None? ==> TurnLog(calls, default) == [])
    && (md.turns.Some? ==>
          exists i: nat :: LastSave(calls, i)
            && md.turnsAt == Some(calls[i].now) && md.turnsTtl == Some(calls[i].op.ttl.GetOr(default)))
  }

  lemma LastOfLast<T>(s: seq<T>, x: T, n: nat)
    ensures Last(Last(s, n) + [x], n) == Last(s + [x], n)
    ensures Last(Last(s, n), n) == Last(s, n)
  {
  }

  /** `Last` keeps the end of a longer list, and the whole of a shorter one. */
  lemma LastIsTheEnd<T>(s: seq<T>, n: nat)
    ensures |Last(s, n)| == if |s| <= n then |s| else n
    ensures s == s[..|s| - |Last(s, n)|] + Last(s, n)
  {
  }

  lemma LastSaveIsUnique<P>(calls: seq<Call<P>>, i: nat, j: nat)
    requires LastSave(calls, i) && LastSave(calls, j)
    ensures i == j
  {
  }

  /** Stored turns have expired exactly when their last save is too long ago. */
  lemma ExpiredIffOld<P>(md: Metadata<P>, calls: seq<Call<P>>, ttl: Option<int>, default: int, now: int)
    requires TurnsMatch(md, calls, default)
    ensures TurnsExpired(md, ttl, default, now) <==> md.turns.Some? && TurnsOld(calls, ttl, default, now)
  {
    if md.turns.Some? {
      var i: nat :| LastSave(calls, i)
        && md.turnsAt == Some(calls[i].now) && md.turnsTtl == Some(calls[i].op.ttl.GetOr(default));
      if j: nat :| LastSave(calls, j) && now - calls[j].now > ttl.GetOr(calls[j].op.ttl.GetOr(default)) * Durations.DAY {
        LastSaveIsUnique(calls, i, j);
      }
    }
  }

  lemma OtherCallsKeepLastSave<P>(calls: seq<Call<P>>, c: Call<P>, i: nat)
    requires !c.op.Save?
    ensures LastSave(calls, i) ==> LastSave(calls + [c], i)
  {
  }

  lemma OneMoreTurnCall<P>(md: Metadata<P>, calls: seq<Call<P>>, c: Call<P>, default: int)
    requires TurnsMatch(md, calls, default)
    ensures TurnsMatch(Effect(md, c.op, c.now, default), calls + [c], default)
  {
    hide Last, TurnsOld, TurnsExpired;
    assert (calls + [c])[..|calls|] == calls;
    LastOfNothing<Turn>(MAX_TURNS);
    if c.op.Save? {
      LastOfLast(TurnLog(calls, default), TurnOf(c), MAX_TURNS);
      assert LastSave(calls + [c], |calls|);
    } else {
      if c.op.Load? {
        ExpiredIffOld(md, calls, c.op.ttl, default, c.now);
      }
      if md.turns.Some? {
        var i: nat :| LastSave(calls, i)
          && md.turnsAt == Some(calls[i].now) && md.turnsTtl == Some(calls[i].op.ttl.GetOr(default));
        OtherCallsKeepLastSave(calls, c, i);
        assert (calls + [c])[i] == calls[i];
      }
    }
  }

  /** The stored turns are always the last twenty of the log, stamped with the time of the last save. */
  lemma {:induction false} TurnsAreTheLastTwenty<P>(calls: seq<Call<P>>, default: int)
    ensures TurnsMatch(Replay(Empty<P>(), calls, default), calls, default)
  {
    if calls != [] {
      hide TurnsMatch, Effect;
      var n := |calls| - 1;
      TurnsAreTheLastTwenty(calls[..n], default);
      OneMoreTurnCall(Replay(Empty<P>(), calls[..n], default), calls[..n], calls[n], default);
      assert calls[..n] + [calls[n]] == calls;
    } else {
      LastOfNothing<Turn>(MAX_TURNS);
    }
  }

  lemma LastOfNothing<T>(n: nat)
    ensures Last<T>([], n) == []
  {
  }

  /**
    From an empty store, after any calls on any contexts, loading the turns of a context answers
    the last twenty it saved since a load last found them too old, or nothing if they are too old now.
   */
  lemma LoadAnswersTheLog<P>(calls: seq<Call<P>>, k: ContextKey, ttl: Option<int>, default: int, now: int)
    ensures TurnsReply(Exec(map[], calls, default), KeyText(k), ttl, default, now).1
            == Ok(if TurnsOld(CallsOf(calls, k), ttl, default, now) then []
                  else Last(TurnLog(CallsOf(calls, k), default), 20))
  {
    hide KeyText, ParseKey, TurnsExpired, TurnsOld, Replay, Last;
    var own := CallsOf(calls, k);
    KeyRoundTrip(k);
    ContextsAreIndependent(map[], calls, default, k);
    var md := Replay(Empty<P>(), own, default);
    TurnsAreTheLastTwenty(own, default);
    ExpiredIffOld(md, own, ttl, default, now);
    LastOfLast(TurnLog(own, default), Turn("", None), MAX_TURNS);
    LastOfNothing<Turn>(MAX_TURNS);
  }

  /** The turns a context saved, in order. */
  function SavedTurns<P>(calls: seq<Call<P>>): seq<Turn> {
    if calls == [] then []
    else
      var n := |calls| - 1;
      SavedTurns(calls[..n]) + (if calls[n].op.Save? then [TurnOf(calls[n])] else [])
  }

  /** Every load among these calls of one context came in time: it did not find the turns too old. */
  ghost predicate LoadedInTime<P>(calls: seq<Call<P>>, default: int) {
    forall i :: 0 <= i < |calls| && calls[i].op.Load? ==> !TurnsOld(calls[..i], calls[i].op.ttl, default, calls[i].now)
  }

  lemma {:induction false} LogIsEverySave<P>(calls: seq<Call<P>>, default: int)
    requires LoadedInTime(calls, default)
    ensures TurnLog(calls, default) == SavedTurns(calls)
  {
    if calls != [] {
      hide TurnsOld;
      var n := |calls| - 1;
      forall i | 0 <= i < n && calls[..n][i].op.Load?
        ensures !TurnsOld(calls[..n][..i], calls[i].op.ttl, default, calls[i].now)
      {
        assert calls[..n][..i] == calls[..i];
      }
      LogIsEverySave(calls[..n], default);
    }
  }

  /**
    In particular it answers the last twenty turns it ever saved, or nothing if they are too old,
    provided no earlier load of the context already found them too old.
   */
  lemma LoadAnswersLastTwentySaved<P>(calls: seq<Call<P>>, k: ContextKey, ttl: Option<int>, default: int, now: int)
    requires LoadedInTime(CallsOf(calls, k), default)
    ensures TurnsReply(Exec(map[], calls, default), KeyText(k), ttl, default, now).1
            == Ok(if TurnsOld(CallsOf(calls, k), ttl, default, now) then []
                  else Last(SavedTurns(CallsOf(calls, k)), 20))
  {
    hide KeyText, TurnsOld, LoadedInTime, TurnsReply, Exec;
    LoadAnswersTheLog(calls, k, ttl, default, now);
    LogIsEverySave(CallsOf(calls, k), default);
  }

  // ---- Proposals --------------------------------------------------------------------

  /** Call `i` stored a proposal that nothing later replaced, cleared or found expired. */
  ghost predicate Survives<P>(calls: seq<Call<P>>, i: nat, default: int) {
    && i < |calls| && calls[i].op.Store?
    && forall j :: i < j < |calls| ==> Keeps(calls[j], calls[i].now, default)
  }

  predicate Keeps<P>(c: Call<P>, at: int, default: int) {
    match c.op
    case Store(_) => false
    case Clear => false
    case Get(ttl) => c.now - at <= ttl.GetOr(default) * Durations.DAY
    case _ => true
  }

  /** A pending proposal is exactly the one some surviving call stored. */
  lemma {:induction false} PendingIsTheSurvivor<P>(calls: seq<Call<P>>, default: int)
    ensures var md := Replay(Empty<P>(), calls, default);
            && (forall i: nat :: Survives(calls, i, default) ==>
                  md.pending == Some(calls[i].op.p) && md.pendingAt == Some(calls[i].now))
            && (md.pending.Some? ==> exists i: nat :: Survives(calls, i, default))
  {
    if calls != [] {
      var n := |calls| - 1;
      var before, c := calls[..n], calls[n];
      PendingIsTheSurvivor(before, default);
      forall i: nat | Survives(calls, i, default) && i < n ensures Survives(before, i, default) {
        assert Keeps(calls[n], calls[i].now, default);
        assert forall j :: i < j < n ==> before[j] == calls[j];
      }
      var md := Replay(Empty<P>(), before, default);
      if c.op.Store? {
        assert Survives(calls, n, default);
      } else if md.pending.Some? && Replay(Empty<P>(), calls, default).pending.Some? {
        var i: nat :| Survives(before, i, default);
        assert calls[i] == before[i];
        forall j | i < j < |calls| ensures Keeps(calls[j], calls[i].now, default) {
          if j < n {
            assert calls[j] == before[j];
          }
        }
        assert Survives(calls, i, default);
      }
    }
  }

  lemma PendingAnswer<P>(cs: Contexts<P>, k: ContextKey, ttl: int, now: int)
    ensures PendingReply(cs, KeyText(k), ttl, now).1 == Ok(if PendingExpired(At(cs, k), ttl, now) then None else At(cs, k).pending)
  {
    hide KeyText, ParseKey, PendingExpired;
    KeyRoundTrip(k);
  }

  /**
    From an empty store, after any calls on any contexts, asking for the proposal of a context
    answers the one of a surviving call that is no older than the asked time to live, and nothing
    when there is none.
   */
  lemma GetAnswersTheSurvivor<P>(calls: seq<Call<P>>, k: ContextKey, ttl: int, default: int, now: int)
    ensures var own := CallsOf(calls, k);
            var reply := PendingReply(Exec(map[], calls, default), KeyText(k), ttl, now).1;
            && reply.Ok?
            && (forall i: nat :: Survives(own, i, default) && now - own[i].now <= ttl * Durations.DAY ==>
                  reply.value == Some(own[i].op.p))
            && (reply.value.Some? ==>
                  exists i: nat :: Survives(own, i, default) && now - own[i].now <= ttl * Durations.DAY)
  {
    hide KeyText, Replay, Exec, PendingReply, Keeps, CallsOf, Effect;
    var own := CallsOf(calls, k);
    PendingAnswer(Exec(map[], calls, default), k, ttl, now);
    ContextsAreIndependent(map[], calls, default, k);
    PendingIsTheSurvivor(own, default);
    var md := Replay(Empty<P>(), own, default);
    assert At<P>(map[], k) == Empty<P>();
    if !PendingExpired(md, ttl, now) && md.pending.Some? {
      var i: nat :| Survives(own, i, default);
      assert md.pendingAt == Some(own[i].now);
    }
  }
}
