/** How every tool call ends: what is refused, what a cancel drops, and why a confirm fails. */
module ToolboxOutcomes {
  import Durations
  import opened Wrappers
  import ContextKeys
  import Memory = ThreadMemory
  import opened RuleService
  import opened RulesToolbox
  import opened ToolboxLaws

  // ---- Refusing ---------------------------------------------------------------------

  /** A proposed schedule is accepted exactly when it is valid, not contradictory, and its place is known or blank. */
  lemma ScheduleAcceptedIff(w: World, u: Caller, schedule: string, explanation: string, name: string,
                            expression: string, env: Env)
    ensures var (w', reply) := Schedule(w, u, schedule, explanation, name, expression, env);
            && (reply == Proposed <==>
                  && env.validate(expression).Some? && env.scheduleValid(schedule)
                  && !("cron:" <= schedule && env.fixedDateRange(env.validate(expression).value))
                  && (env.resolve(name).Some? || env.isBlank(name)))
            && (reply != Proposed ==> reply.Failed? && w' == w)
  {
    hide Remember;
    if env.validate(expression).Some? {
      RememberFacts(w, u, NoPending().(
        action := ScheduleNotification, expression := env.validate(expression).value, explanation := explanation,
        location := env.resolve(name), chat := Some(u.chat), thread := u.thread,
        schedule := Some(schedule), fingerprint := env.fingerprint), env.now);
    }
  }

  /** A proposed rule or edit is accepted exactly when the expression is valid and the place is known or blank. */
  lemma ProposeAcceptedIff(w: World, u: Caller, expression: string, explanation: string, name: string, shortId: string,
                           env: Env)
    ensures var (w', reply) := Propose(w, u, expression, explanation, name, shortId, env);
            && (reply == Proposed <==> env.validate(expression).Some? && (env.resolve(name).Some? || env.isBlank(name)))
            && (reply != Proposed ==> reply.Failed? && w' == w)
  {
    hide Remember;
    if env.validate(expression).Some? {
      RememberFacts(w, u, NoPending().(
        action := if shortId != "" then EditRule else CreateRule, expression := env.validate(expression).value,
        explanation := explanation, location := env.resolve(name), chat := Some(u.chat), thread := u.thread,
        editShortId := if shortId != "" then Some(shortId) else None), env.now);
    }
  }

  /** A deletion is accepted exactly when the user has a rule with this short id. */
  lemma DeletionAcceptedIff(w: World, u: Caller, shortId: string, env: Env)
    ensures var (w', reply) := RequestDelete(w, u, shortId, env);
            && (reply == Proposed <==>
                  shortId != "" && exists k :: 0 <= k < |w.table.rows| && IsRowOf(w.table.rows[k], u.user, StripHash(shortId)))
            && (reply != Proposed ==> reply.Failed? && w' == w)
  {
    hide Remember, StripHash;
    var found := FindForUser(w.table.rows, u.user, StripHash(shortId));
    if found.Some? {
      RememberFacts(w, u, NoPending().(action := DeleteNotification, chat := Some(u.chat), thread := u.thread,
                                       deleteShortId := Some(w.table.rows[found.value].shortId)), env.now);
    }
  }

  // ---- Cancelling, expiring and failing ---------------------------------------------

  /** Something is pending in the caller's context, and it is no older than the time to live. */
  ghost predicate InTime(w: World, u: Caller, env: Env) {
    && PendingAt(w, u.key).Some?
    && forall at :: Memory.At(w.memory, u.key).pendingAt == Some(at) ==> env.now - at <= env.defaultTtl * Durations.DAY
  }

  lemma RecallAnswersIffInTime(w: World, u: Caller, env: Env)
    ensures Recall(w, u, env).1 == Ok(if InTime(w, u, env) then PendingAt(w, u.key) else None)
  {
    hide ContextKeys.KeyText, ContextKeys.ParseKey;
    ContextKeys.KeyRoundTrip(u.key);
    RecallFacts(w, u, env);
  }

  /** A cancel leaves nothing pending, touches no rule, and says whether there was something to cancel. */
  lemma CancelDrops(w: World, u: Caller, env: Env)
    ensures var (w', reply) := Cancel(w, u, env);
            && PendingAt(w', u.key).None? && w'.table == w.table && OnlyPendingMoves(w, w', u.key)
            && reply == if InTime(w, u, env) then Cancelled else Failed(NothingPending)
  {
    hide Recall, Forget, PendingAt;
    RecallFacts(w, u, env);
    RecallAnswersIffInTime(w, u, env);
    ForgetFacts(Recall(w, u, env).0, u, Cancelled);
  }

  lemma NothingToConfirm(w: World, v: Caller, env: Env)
    requires PendingAt(w, v.key).None?
    ensures Confirm(w, v, env).1 == Failed(NothingPending) && Confirm(w, v, env).0.table == w.table
    ensures PendingAt(Confirm(w, v, env).0, v.key).None?
  {
    hide Recall, PendingAt;
    RecallFacts(w, v, env);
  }

  /** After a cancel, whatever was proposed, nobody can confirm it any more. */
  lemma CancelThenConfirm(w: World, u: Caller, v: Caller, env: Env, later: Env)
    requires v.key == u.key
    ensures var w1 := Cancel(w, u, env).0;
            var (w2, reply) := Confirm(w1, v, later);
            reply == Failed(NothingPending) && w2.table == w.table && PendingAt(w2, v.key).None?
  {
    hide Cancel, Confirm, PendingAt;
    CancelDrops(w, u, env);
    NothingToConfirm(Cancel(w, u, env).0, v, later);
  }

  /** A proposal older than the time to live is not confirmed but dropped, and so is an unreadable one. */
  lemma StaleOrUnreadableIsDropped(w: World, v: Caller, env: Env)
    requires !InTime(w, v, env) || PendingAt(w, v.key) == Some(Unreadable)
    ensures var (w', reply) := Confirm(w, v, env);
            && PendingAt(w', v.key).None? && w'.table == w.table
            && reply == Failed(if InTime(w, v, env) then UnreadablePending else NothingPending)
  {
    hide Recall, Forget, PendingAt;
    RecallFacts(w, v, env);
    RecallAnswersIffInTime(w, v, env);
    ForgetFacts(Recall(w, v, env).0, v, Failed(UnreadablePending));
  }

  /** Dropped exactly when it did not fail; a failure leaves rules and proposal as they are. */
  ghost predicate DropsUnlessFailed(w: World, v: Caller, w': World, reply: Reply) {
    && (PendingAt(w', v.key).None? <==> !reply.Failed?)
    && (reply.Failed? ==> w'.table == w.table && PendingAt(w', v.key) == PendingAt(w, v.key))
  }

  lemma DeletionDrops(w: World, v: Caller, p: Pending)
    ensures PendingAt(ConfirmDelete(w, v, p).0, v.key).None?
    ensures ConfirmDelete(w, v, p).1.Failed? ==> ConfirmDelete(w, v, p).0.table == w.table
  {
    hide Forget, PendingAt, Delete, StripHash;
    ForgetFacts(w, v, Failed(NoShortId));
    ForgetFacts(w, v, Failed(NoSuchRule));
    if p.deleteShortId.Some? {
      var found := FindForUser(w.table.rows, v.user, StripHash(p.deleteShortId.value));
      if found.Some? {
        var row := w.table.rows[found.value];
        ForgetFacts(w.(table := Delete(w.table, row.rule.id)), v, Done(row.shortId));
      }
    }
  }

  lemma CreatingDrops(w: World, v: Caller, data: RuleCreate, env: Env)
    requires PendingAt(w, v.key).Some?
    ensures DropsUnlessFailed(w, v, CreateFrom(w, v, data, env).0, CreateFrom(w, v, data, env).1)
  {
    hide Forget, PendingAt, FreshShortId;
    var created := Create(w.table, v.user, data, env.Valid, env.draw);
    if created.Ok? {
      var t := created.value;
      ForgetFacts(w.(table := t), v, Done(t.rows[|t.rows| - 1].shortId));
    }
  }

  lemma SchedulingDrops(w: World, v: Caller, p: Pending, location: int, env: Env)
    requires PendingAt(w, v.key).Some?
    ensures DropsUnlessFailed(w, v, ConfirmSchedule(w, v, p, location, env).0, ConfirmSchedule(w, v, p, location, env).1)
  {
    hide Forget, PendingAt, CreateFrom;
    if p.schedule.Some? {
      var id := Identity(v.user, p.chat.GetOr(v.chat), ThreadOf(p, v), location, p.expression, p.schedule.value,
                         p.fingerprint);
      var found := FindMatching(w.table.rows, id);
      if found.Some? {
        ForgetFacts(w, v, AlreadyThere(w.table.rows[found.value].shortId));
      } else {
        CreatingDrops(w, v, DataOf(p, v, location).(schedule := p.schedule, fingerprint := p.fingerprint), env);
      }
    }
  }

  lemma EditingDrops(w: World, v: Caller, p: Pending, shortId: string, env: Env)
    requires PendingAt(w, v.key).Some?
    ensures DropsUnlessFailed(w, v, ConfirmEdit(w, v, p, shortId, env).0, ConfirmEdit(w, v, p, shortId, env).1)
  {
    hide Forget, PendingAt, StripHash;
    var found := FindForUser(w.table.rows, v.user, StripHash(shortId));
    if found.Some? {
      var row := w.table.rows[found.value];
      var updated := Update(w.table, row.rule.id, Rewording(p.expression, p.explanation), env.Valid);
      if updated.Ok? {
        ForgetFacts(w.(table := updated.value), v, Done(row.shortId));
      }
    }
  }

  lemma ReadableDrops(w: World, v: Caller, p: Pending, env: Env)
    requires PendingAt(w, v.key).Some?
    ensures var (w', reply) := ConfirmReadable(w, v, p, env);
            if p.action == DeleteNotification then
              PendingAt(w', v.key).None? && (reply.Failed? ==> w'.table == w.table)
            else DropsUnlessFailed(w, v, w', reply)
  {
    hide PendingAt, ConfirmDelete, ConfirmSchedule, ConfirmEdit, CreateFrom;
    DeletionDrops(w, v, p);
    var location := if p.location.Some? then p.location else env.defaultLocation;
    if location.Some? {
      SchedulingDrops(w, v, p, location.value, env);
      CreatingDrops(w, v, DataOf(p, v, location.value), env);
      if IsEdit(p) {
        EditingDrops(w, v, p, p.editShortId.value, env);
      }
    }
  }

  /** A confirm that goes through drops the proposal; one that fails keeps it, and every rule, unless it is a deletion. */
  lemma ConfirmDropsIff(w: World, v: Caller, p: Pending, env: Env)
    requires InTime(w, v, env) && PendingAt(w, v.key) == Some(Readable(p))
    ensures var (w', reply) := Confirm(w, v, env);
            && (PendingAt(w', v.key).None? <==> !reply.Failed? || p.action == DeleteNotification)
            && (PendingAt(w', v.key).Some? ==> PendingAt(w', v.key) == Some(Readable(p)))
            && (reply.Failed? ==> w'.table == w.table)
  {
    hide Recall, PendingAt, ConfirmReadable, InTime;
    RecallFacts(w, v, env);
    RecallAnswersIffInTime(w, v, env);
    ReadableDrops(Recall(w, v, env).0, v, p, env);
  }

  /** What keeps a rule from being created. */
  function CreateFailure(t: RuleTable, expression: string, env: Env): Option<RuleService.Error> {
    if env.validate(expression).None? then Some(InvalidExpression)
    else if forall k :: 0 <= k < 10 ==> InUse(t.rows, env.draw(k)) then Some(ShortIdCollision)
    else None
  }

  /** What keeps a pending action from being carried out for `v`: the first of these that holds. */
  function ConfirmFailure(t: RuleTable, v: Caller, p: Pending, env: Env): Option<Failure> {
    if p.action == CreateRule && p.expression == "" then Some(NothingToCreate)
    else if p.action == DeleteNotification then
      if p.deleteShortId.None? then Some(NoShortId)
      else if forall k :: 0 <= k < |t.rows| ==> !IsRowOf(t.rows[k], v.user, StripHash(p.deleteShortId.value)) then
        Some(NoSuchRule)
      else None
    else if p.location.None? && env.defaultLocation.None? then Some(NoLocation)
    else if p.action == ScheduleNotification then
      if p.schedule.None? then Some(NoSchedule)
      else if exists k :: 0 <= k < |t.rows| && Matches(t.rows[k], PendingIdentity(v, p, env)) then None
      else CreateFailed(t, p.expression, env)
    else if p.action == EditRule && p.editShortId.Some? && p.editShortId.value != "" then
      if forall k :: 0 <= k < |t.rows| ==> !IsRowOf(t.rows[k], v.user, StripHash(p.editShortId.value)) then
        Some(NoSuchRule)
      else if env.validate(p.expression).None? then Some(ServiceFailed(InvalidExpression))
      else None
    else CreateFailed(t, p.expression, env)
  }

  function CreateFailed(t: RuleTable, expression: string, env: Env): Option<Failure> {
    match CreateFailure(t, expression, env)
    case None => None
    case Some(e) => Some(ServiceFailed(e))
  }

  /** The notification a pending schedule stands for. */
  function PendingIdentity(v: Caller, p: Pending, env: Env): Identity
    requires p.schedule.Some? && (p.location.Some? || env.defaultLocation.Some?)
  {
    Identity(v.user, p.chat.GetOr(v.chat), if p.thread.Some? then p.thread else v.thread,
             if p.location.Some? then p.location.value else env.defaultLocation.value,
             p.expression, p.schedule.value, p.fingerprint)
  }

  lemma CreatingFailsIff(w: World, v: Caller, data: RuleCreate, env: Env)
    ensures var reply := CreateFrom(w, v, data, env).1;
            match CreateFailed(w.table, data.expression, env)
            case None => reply.Done?
            case Some(why) => reply == Failed(why)
  {
    hide Forget, InUse, FreshShortId;
    FreshIsUnused(w.table.rows, env.draw, 0);
    var created := Create(w.table, v.user, data, env.Valid, env.draw);
    if created.Ok? {
      var t := created.value;
      ForgetFacts(w.(table := t), v, Done(t.rows[|t.rows| - 1].shortId));
    }
  }

  lemma EditingFailsIff(w: World, v: Caller, p: Pending, shortId: string, env: Env)
    requires Sound(w.table)
    ensures var reply := ConfirmEdit(w, v, p, shortId, env).1;
            if forall k :: 0 <= k < |w.table.rows| ==> !IsRowOf(w.table.rows[k], v.user, StripHash(shortId)) then
              reply == Failed(NoSuchRule)
            else if env.validate(p.expression).None? then reply == Failed(ServiceFailed(InvalidExpression))
            else reply.Done?
  {
    hide Forget, StripHash, Sound;
    var found := FindForUser(w.table.rows, v.user, StripHash(shortId));
    if found.Some? {
      IdNamesOneRow(w.table, found.value);
      var row := w.table.rows[found.value];
      var updated := Update(w.table, row.rule.id, Rewording(p.expression, p.explanation), env.Valid);
      if updated.Ok? {
        ForgetFacts(w.(table := updated.value), v, Done(row.shortId));
      }
    }
  }

  lemma DeletingFailsIff(w: World, v: Caller, p: Pending)
    ensures var reply := ConfirmDelete(w, v, p).1;
            if p.deleteShortId.None? then reply == Failed(NoShortId)
            else if forall k :: 0 <= k < |w.table.rows| ==>
                      !IsRowOf(w.table.rows[k], v.user, StripHash(p.deleteShortId.value)) then
              reply == Failed(NoSuchRule)
            else reply.Done?
  {
    hide Forget, Delete, StripHash;
    ForgetFacts(w, v, Failed(NoShortId));
    ForgetFacts(w, v, Failed(NoSuchRule));
    if p.deleteShortId.Some? {
      var found := FindForUser(w.table.rows, v.user, StripHash(p.deleteShortId.value));
      if found.Some? {
        var row := w.table.rows[found.value];
        ForgetFacts(w.(table := Delete(w.table, row.rule.id)), v, Done(row.shortId));
      }
    }
  }

  lemma SchedulingFailsIff(w: World, v: Caller, p: Pending, location: int, env: Env)
    ensures p.schedule.None? ==> ConfirmSchedule(w, v, p, location, env).1 == Failed(NoSchedule)
    ensures p.schedule.Some? ==>
            var reply := ConfirmSchedule(w, v, p, location, env).1;
            var id := Identity(v.user, p.chat.GetOr(v.chat), if p.thread.Some? then p.thread else v.thread, location,
                               p.expression, p.schedule.value, p.fingerprint);
            if exists k :: 0 <= k < |w.table.rows| && Matches(w.table.rows[k], id) then reply.AlreadyThere?
            else match CreateFailed(w.table, p.expression, env)
              case None => reply.Done?
              case Some(why) => reply == Failed(why)
  {
    hide Forget, CreateFrom, Matches, CreateFailed;
    CreatingFailsIff(w, v, DataOf(p, v, location).(schedule := p.schedule, fingerprint := p.fingerprint), env);
    if p.schedule.Some? {
      var id := Identity(v.user, p.chat.GetOr(v.chat), ThreadOf(p, v), location, p.expression, p.schedule.value, p.fingerprint);
      var found := FindMatching(w.table.rows, id);
      if found.Some? {
        ForgetFacts(w, v, AlreadyThere(w.table.rows[found.value].shortId));
      }
    }
  }

  /** A confirm of a readable proposal in time fails exactly with the first thing that is in its way. */
  lemma ConfirmFailsIff(w: World, v: Caller, p: Pending, env: Env)
    requires Sound(w.table) && InTime(w, v, env) && PendingAt(w, v.key) == Some(Readable(p))
    ensures var reply := Confirm(w, v, env).1;
            match ConfirmFailure(w.table, v, p, env)
            case None => !reply.Failed?
            case Some(why) => reply == Failed(why)
  {
    hide Recall, PendingAt, InTime, Sound, ConfirmDelete, ConfirmSchedule, ConfirmEdit, CreateFrom, CreateFailed, Matches,
         IsRowOf, StripHash;
    RecallFacts(w, v, env);
    RecallAnswersIffInTime(w, v, env);
    var w1 := Recall(w, v, env).0;
    DeletingFailsIff(w1, v, p);
    var location := if p.location.Some? then p.location else env.defaultLocation;
    if location.Some? {
      CreatingFailsIff(w1, v, DataOf(p, v, location.value), env);
      SchedulingFailsIff(w1, v, p, location.value, env);
      if IsEdit(p) {
        EditingFailsIff(w1, v, p, p.editShortId.value, env);
      }
    }
  }
}
