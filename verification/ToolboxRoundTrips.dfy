/** Proposing and then confirming: what each kind of proposal does to the rule table. */
module ToolboxRoundTrips {
  import Durations
  import opened Wrappers
  import ContextKeys
  import Memory = ThreadMemory
  import Rules
  import opened RuleService
  import opened RulesToolbox
  import opened ToolboxLaws

  // ---- Scheduling ------------------------------------------------------------------

  lemma RecallSeesFresh(w: World, u: Caller, env: Env)
    requires !Memory.PendingExpired(Memory.At(w.memory, u.key), env.defaultTtl, env.now)
    ensures Recall(w, u, env).1 == Ok(PendingAt(w, u.key))
  {
    hide ContextKeys.KeyText, ContextKeys.ParseKey;
    ContextKeys.KeyRoundTrip(u.key);
  }

  /** A remembered proposal is what a recall from the same context sees, as long as it is in time. */
  lemma RememberedIsRecalled(w: World, u: Caller, p: Pending, now: int, v: Caller, later: Env)
    requires v.key == u.key && later.now - now <= later.defaultTtl * Durations.DAY
    ensures var (w1, reply) := Remember(w, u, p, now);
            && reply == Proposed && w1.table == w.table
            && Recall(w1, v, later).1 == Ok(Some(Readable(p)))
            && Recall(w1, v, later).0.table == w.table
  {
    hide ContextKeys.KeyText, ContextKeys.ParseKey, Memory.Rewritten, Recall;
    var text := ContextKeys.KeyText(u.key);
    RowsAreSeparate(w.memory, u.key, Memory.Stored(Memory.Opened(w.memory, text), Readable(p), now));
    var w1 := Remember(w, u, p, now).0;
    RecallSeesFresh(w1, v, later);
    RecallFacts(w1, v, later);
  }

  /** The identity a scheduled proposal gets when `v` confirms what `u` proposed. */
  function ConfirmedIdentity(u: Caller, v: Caller, location: int, expression: string, schedule: string,
                             fingerprint: string): Identity
  {
    Identity(v.user, u.chat, if u.thread.Some? then u.thread else v.thread, location, expression, schedule, fingerprint)
  }

  /**
    Scheduling, then confirming in time from the same context, by the same user or another:
    afterwards the confirmer has exactly the notification that was proposed, created by this
    confirm only if it was not there already, and a second confirm finds nothing.
   */
  lemma ScheduleThenConfirm(w: World, u: Caller, v: Caller, schedule: string, explanation: string, name: string,
                            expression: string, env: Env, later: Env, third: Env)
    requires Schedule(w, u, schedule, explanation, name, expression, env).1 == Proposed
    requires v.key == u.key && later.now - env.now <= later.defaultTtl * Durations.DAY
    requires env.resolve(name).Some? && later.Valid(env.validate(expression).value)
    requires FreshShortId(w.table.rows, later.draw).Some?
    ensures var w1 := Schedule(w, u, schedule, explanation, name, expression, env).0;
            var (w2, reply) := Confirm(w1, v, later);
            var id := ConfirmedIdentity(u, v, env.resolve(name).value, env.validate(expression).value, schedule,
                                        env.fingerprint);
            && FindMatching(w2.table.rows, id).Some?
            && (FindMatching(w.table.rows, id).Some? ==> w2.table == w.table && reply.AlreadyThere?)
            && (FindMatching(w.table.rows, id).None? ==>
                  && reply.Done?
                  && |w2.table.rows| == |w.table.rows| + 1
                  && w2.table.rows[..|w.table.rows|] == w.table.rows
                  && Matches(w2.table.rows[|w.table.rows|], id)
                  && w2.table.rows[|w.table.rows|].description == explanation
                  && Some(w2.table.rows[|w.table.rows|].shortId) == FreshShortId(w.table.rows, later.draw))
            && Confirm(w2, v, third).1 == Failed(NothingPending)
            && Confirm(w2, v, third).0.table == w2.table
  {
    hide Remember, Recall, Forget, FreshShortId;
    var p := NoPending().(
      action := ScheduleNotification, expression := env.validate(expression).value,
      explanation := explanation, location := env.resolve(name), chat := Some(u.chat), thread := u.thread,
      schedule := Some(schedule), fingerprint := env.fingerprint);
    RememberedIsRecalled(w, u, p, env.now, v, later);
    var w1 := Remember(w, u, p, env.now).0;
    ScheduleConfirmed(Recall(w1, v, later).0, v, p, env.resolve(name).value, later);
    RecallFacts(Confirm(w1, v, later).0, v, third);
  }

  lemma ScheduleConfirmed(w: World, v: Caller, p: Pending, location: int, env: Env)
    requires p.schedule.Some? && env.Valid(p.expression) && FreshShortId(w.table.rows, env.draw).Some?
    ensures var (w2, reply) := ConfirmSchedule(w, v, p, location, env);
            var id := Identity(v.user, p.chat.GetOr(v.chat), ThreadOf(p, v), location, p.expression, p.schedule.value,
                               p.fingerprint);
            && PendingAt(w2, v.key).None?
            && FindMatching(w2.table.rows, id).Some?
            && (FindMatching(w.table.rows, id).Some? ==> w2.table == w.table && reply.AlreadyThere?)
            && (FindMatching(w.table.rows, id).None? ==>
                  && reply.Done?
                  && |w2.table.rows| == |w.table.rows| + 1
                  && w2.table.rows[..|w.table.rows|] == w.table.rows
                  && Matches(w2.table.rows[|w.table.rows|], id)
                  && w2.table.rows[|w.table.rows|].description == p.explanation
                  && Some(w2.table.rows[|w.table.rows|].shortId) == FreshShortId(w.table.rows, env.draw))
  {
    hide Forget, FreshShortId;
    var id := Identity(v.user, p.chat.GetOr(v.chat), ThreadOf(p, v), location, p.expression, p.schedule.value,
                       p.fingerprint);
    var found := FindMatching(w.table.rows, id);
    if found.Some? {
      ForgetFacts(w, v, AlreadyThere(w.table.rows[found.value].shortId));
    } else {
      var data := DataOf(p, v, location).(schedule := p.schedule, fingerprint := p.fingerprint);
      var t := Create(w.table, v.user, data, env.Valid, env.draw).value;
      ForgetFacts(w.(table := t), v, Done(t.rows[|t.rows| - 1].shortId));
      assert Matches(t.rows[|w.table.rows|], id);
    }
  }

  // ---- Creating, editing, deleting --------------------------------------------------

  /**
    Proposing a rule, then confirming in time from the same context: the table gains exactly one
    row, the confirmer's, with the checked expression and the explanation, bound to the
    proposer's chat, enabled and without a schedule.
   */
  lemma ProposeThenConfirm(w: World, u: Caller, v: Caller, expression: string, explanation: string, name: string,
                           env: Env, later: Env)
    requires Propose(w, u, expression, explanation, name, "", env).1 == Proposed
    requires v.key == u.key && later.now - env.now <= later.defaultTtl * Durations.DAY
    requires env.validate(expression).value != "" && later.Valid(env.validate(expression).value)
    requires env.resolve(name).Some? || later.defaultLocation.Some?
    requires FreshShortId(w.table.rows, later.draw).Some?
    ensures var w1 := Propose(w, u, expression, explanation, name, "", env).0;
            var (w2, reply) := Confirm(w1, v, later);
            var location := if env.resolve(name).Some? then env.resolve(name).value else later.defaultLocation.value;
            && reply.Done?
            && w2.table.rows == w.table.rows + [Row(
                 Rules.Rule(w.table.nextId, v.user, u.chat, if u.thread.Some? then u.thread else v.thread, location,
                      env.validate(expression).value, None, Some(60), true, false, None, ""),
                 reply.shortId, explanation)]
            && !InUse(w.table.rows, reply.shortId)
  {
    hide Remember, Recall, Forget, FreshShortId, InUse;
    var p := NoPending().(expression := env.validate(expression).value, explanation := explanation,
                          location := env.resolve(name), chat := Some(u.chat), thread := u.thread);
    RememberedIsRecalled(w, u, p, env.now, v, later);
    var w1 := Recall(Remember(w, u, p, env.now).0, v, later).0;
    var location := if p.location.Some? then p.location.value else later.defaultLocation.value;
    var t := Create(w.table, v.user, DataOf(p, v, location), later.Valid, later.draw).value;
    ForgetFacts(w1.(table := t), v, Done(t.rows[|t.rows| - 1].shortId));
    FreshIsUnused(w.table.rows, later.draw, 0);
  }

  /**
    Proposing an edit, then confirming: only the named rule of the confirmer changes, and only its
    expression and description; without such a rule nothing changes and the edit stays pending.
   */
  lemma EditThenConfirm(w: World, u: Caller, v: Caller, expression: string, explanation: string, name: string,
                        shortId: string, env: Env, later: Env)
    requires Sound(w.table) && shortId != ""
    requires Propose(w, u, expression, explanation, name, shortId, env).1 == Proposed
    requires v.key == u.key && later.now - env.now <= later.defaultTtl * Durations.DAY
    requires later.Valid(env.validate(expression).value)
    requires env.resolve(name).Some? || later.defaultLocation.Some?
    ensures var w1 := Propose(w, u, expression, explanation, name, shortId, env).0;
            var (w2, reply) := Confirm(w1, v, later);
            match FindForUser(w.table.rows, v.user, StripHash(shortId))
            case None => reply == Failed(NoSuchRule) && w2.table == w.table && PendingAt(w2, v.key).Some?
            case Some(i) =>
              && reply == Done(w.table.rows[i].shortId)
              && w2.table.rows == w.table.rows[i := Row(w.table.rows[i].rule.(expression := env.validate(expression).value),
                                                        w.table.rows[i].shortId, explanation)]
              && PendingAt(w2, v.key).None?
  {
    hide Remember, Recall, Forget, Sound, StripHash;
    var p := NoPending().(action := EditRule, expression := env.validate(expression).value, explanation := explanation,
                          location := env.resolve(name), chat := Some(u.chat), thread := u.thread,
                          editShortId := Some(shortId));
    RememberedIsRecalled(w, u, p, env.now, v, later);
    var w1 := Recall(Remember(w, u, p, env.now).0, v, later).0;
    RecallFacts(Remember(w, u, p, env.now).0, v, later);
    var found := FindForUser(w.table.rows, v.user, StripHash(shortId));
    if found.Some? {
      IdNamesOneRow(w.table, found.value);
      var t := Update(w.table, w.table.rows[found.value].rule.id, Rewording(p.expression, p.explanation), later.Valid).value;
      ForgetFacts(w1.(table := t), v, Done(w.table.rows[found.value].shortId));
    }
  }

  /** The rules differ in their expressions only, as far as the identity of scheduled rules goes. */
  predicate DifferInExpression(a: Rules.Rule, b: Rules.Rule) {
    && a.enabled && b.enabled && IdentityOf(a) != IdentityOf(b)
    && IdentityOf(b).Some? && IdentityOf(a.(expression := b.expression)) == IdentityOf(b)
  }

  /**
    Editing can duplicate: in every sound table without twins in which two enabled schedules of a
    user differ in the expression only, proposing and confirming the other's expression for one
    of them ends with twins.
   */
  lemma EditMakesTwins(w: World, u: Caller, i: nat, j: nat, expression: string, explanation: string, name: string,
                       shortId: string, env: Env, later: Env)
    requires Sound(w.table) && NoTwins(w.table.rows) && i < |w.table.rows| && j < |w.table.rows|
    requires DifferInExpression(w.table.rows[i].rule, w.table.rows[j].rule)
    requires IsRowOf(w.table.rows[i], u.user, StripHash(shortId)) && shortId != ""
    requires env.validate(expression) == Some(w.table.rows[j].rule.expression)
    requires env.resolve(name).Some? || (env.isBlank(name) && later.defaultLocation.Some?)
    requires later.now - env.now <= later.defaultTtl * Durations.DAY && later.Valid(w.table.rows[j].rule.expression)
    ensures var w1 := Call(w, u, UsePropose(expression, explanation, name, shortId), env).0;
            && NoTwins(w1.table.rows)
            && !NoTwins(Call(w1, u, UseConfirm, later).0.table.rows)
  {
    hide Remember, Confirm, Sound, StripHash, NoTwins;
    var p := NoPending().(action := EditRule, expression := env.validate(expression).value, explanation := explanation,
                          location := env.resolve(name), chat := Some(u.chat), thread := u.thread,
                          editShortId := Some(shortId));
    RememberedIsRecalled(w, u, p, env.now, u, later);
    EditThenConfirm(w, u, u, expression, explanation, name, shortId, env, later);
    ShortIdNamesOneRow(w.table, u.user, StripHash(shortId), i);
    var w2 := Confirm(Propose(w, u, expression, explanation, name, shortId, env).0, u, later).0;
    TwinsAreTwins(w2.table.rows, i, j);
  }

  lemma TwinsAreTwins(rows: seq<Row>, i: nat, j: nat)
    requires i < |rows| && j < |rows| && i != j && Twins(rows[i].rule, rows[j].rule)
    ensures !NoTwins(rows)
  {
    assert if i < j then Twins(rows[i].rule, rows[j].rule) else Twins(rows[j].rule, rows[i].rule);
  }

  /** A valid schedule that is not there yet is appended by proposing and confirming it. */
  lemma NewScheduleIsAppended(w: World, u: Caller, schedule: string, name: string, expression: string, env: Env)
    requires env.defaultTtl >= 0 && env.resolve(name).Some? && env.scheduleValid(schedule)
    requires env.validate(expression) == Some(expression) && !env.fixedDateRange(expression)
    requires FreshShortId(w.table.rows, env.draw).Some?
    requires FindMatching(w.table.rows, ConfirmedIdentity(u, u, env.resolve(name).value, expression, schedule,
                                                          env.fingerprint)).None?
    ensures var rows' := Confirm(Schedule(w, u, schedule, "", name, expression, env).0, u, env).0.table.rows;
            var id := ConfirmedIdentity(u, u, env.resolve(name).value, expression, schedule, env.fingerprint);
            && |rows'| == |w.table.rows| + 1 && rows'[..|w.table.rows|] == w.table.rows
            && Matches(rows'[|w.table.rows|], id)
            && Some(rows'[|w.table.rows|].shortId) == FreshShortId(w.table.rows, env.draw)
  {
    hide Confirm, FreshShortId, Remember;
    var p := NoPending().(
      action := ScheduleNotification, expression := expression, explanation := "", location := env.resolve(name),
      chat := Some(u.chat), thread := u.thread, schedule := Some(schedule), fingerprint := env.fingerprint);
    RememberFacts(w, u, p, env.now);
    ScheduleThenConfirm(w, u, u, schedule, "", name, expression, env, env, env);
  }

  /** From the empty table, two schedules that differ in their expressions are proposed and confirmed. */
  lemma TwoSchedules(w: World, u: Caller, schedule: string, name: string, a: string, b: string, env: Env)
    requires w.table == RuleTable([], 1) && env.defaultTtl >= 0
    requires env.resolve(name).Some? && env.scheduleValid(schedule)
    requires a != b && env.validate(a) == Some(a) && env.validate(b) == Some(b)
    requires !env.fixedDateRange(a) && !env.fixedDateRange(b) && env.draw(0) != env.draw(1)
    ensures var w2 := Confirm(Schedule(w, u, schedule, "", name, a, env).0, u, env).0;
            var rows := Confirm(Schedule(w2, u, schedule, "", name, b, env).0, u, env).0.table.rows;
            && |rows| == 2 && DifferInExpression(rows[0].rule, rows[1].rule)
            && rows[1].rule.expression == b
            && IsRowOf(rows[0], u.user, env.draw(0))
            && NoTwins(rows)
  {
    hide Schedule, Confirm;
    NewScheduleIsAppended(w, u, schedule, name, a, env);
    var w2 := Confirm(Schedule(w, u, schedule, "", name, a, env).0, u, env).0;
    assert w2.table.rows[0].shortId == env.draw(0);
    assert !InUse(w2.table.rows, env.draw(1));
    NewScheduleIsAppended(w2, u, schedule, name, b, env);
    var rows := Confirm(Schedule(w2, u, schedule, "", name, b, env).0, u, env).0.table.rows;
    assert rows[..1][0] == w2.table.rows[0];
  }

  lemma EmptyTableIsSound()
    ensures Sound(RuleTable([], 1))
  {
  }

  /**
    Such tables are reached: from the empty table, for any two valid expressions, two schedules
    that differ in them and an edit of one to the other's expression lead to twins.
   */
  lemma EditingRun(w: World, u: Caller, schedule: string, name: string, a: string, b: string, env: Env)
    returns (ws: seq<World>, steps: seq<Step>)
    requires w.table == RuleTable([], 1) && env.defaultTtl >= 0
    requires env.resolve(name).Some? && env.scheduleValid(schedule)
    requires a != b && env.validate(a) == Some(a) && env.validate(b) == Some(b)
    requires !env.fixedDateRange(a) && !env.fixedDateRange(b)
    requires env.draw(0) != env.draw(1) && env.draw(0) != "" && StripHash(env.draw(0)) == env.draw(0)
    ensures Run(ws, steps) && ws[0] == w
    ensures steps == [Use(u, UseSchedule(schedule, "", name, a), env), Use(u, UseConfirm, env),
                      Use(u, UseSchedule(schedule, "", name, b), env), Use(u, UseConfirm, env),
                      Use(u, UsePropose(b, "", name, env.draw(0)), env), Use(u, UseConfirm, env)]
    ensures NoTwins(ws[5].table.rows) && !NoTwins(ws[6].table.rows)
  {
    hide Schedule, Confirm, Propose, NoTwins, Sound, StripHash, DifferInExpression;
    steps := [Use(u, UseSchedule(schedule, "", name, a), env), Use(u, UseConfirm, env),
              Use(u, UseSchedule(schedule, "", name, b), env), Use(u, UseConfirm, env),
              Use(u, UsePropose(b, "", name, env.draw(0)), env), Use(u, UseConfirm, env)];
    var w1 := Act(w, steps[0]);
    var w2 := Act(w1, steps[1]);
    var w3 := Act(w2, steps[2]);
    var w4 := Act(w3, steps[3]);
    var w5 := Act(w4, steps[4]);
    ws := [w, w1, w2, w3, w4, w5, Act(w5, steps[5])];
    EmptyTableIsSound();
    RunKeepsSound(ws, steps, 4);
    TwoSchedules(w, u, schedule, name, a, b, env);
    EditMakesTwins(w4, u, 0, 1, b, "", name, env.draw(0), env, env);
  }

  lemma {:induction false} StripHashTwice(s: string)
    ensures StripHash(StripHash(s)) == StripHash(s)
  {
    if |s| > 0 && s[0] == '#' {
      StripHashTwice(s[1..]);
    }
  }

  /**
    Asking for a deletion, then confirming: the asked-for row is removed and nothing else, if the
    confirmer is the one who asked; for any other user the request is dropped without effect.
   */
  lemma DeleteThenConfirm(w: World, u: Caller, v: Caller, shortId: string, env: Env, later: Env)
    requires Sound(w.table) && RequestDelete(w, u, shortId, env).1 == Proposed
    requires v.key == u.key && later.now - env.now <= later.defaultTtl * Durations.DAY
    ensures FindForUser(w.table.rows, u.user, StripHash(shortId)).Some?
    ensures var w1 := RequestDelete(w, u, shortId, env).0;
            var (w2, reply) := Confirm(w1, v, later);
            var i := FindForUser(w.table.rows, u.user, StripHash(shortId)).value;
            && PendingAt(w2, v.key).None?
            && (if v.user == u.user then
                  && reply == Done(w.table.rows[i].shortId)
                  && w2.table.rows == w.table.rows[..i] + w.table.rows[i + 1..]
                else reply == Failed(NoSuchRule) && w2.table == w.table)
  {
    hide Remember, Recall, Forget, StripHash, Delete;
    var rows := w.table.rows;
    var i := FindForUser(rows, u.user, StripHash(shortId)).value;
    var p := NoPending().(action := DeleteNotification, chat := Some(u.chat), thread := u.thread,
                          deleteShortId := Some(rows[i].shortId));
    RememberedIsRecalled(w, u, p, env.now, v, later);
    var w1 := Recall(Remember(w, u, p, env.now).0, v, later).0;
    StripHashTwice(shortId);
    assert StripHash(rows[i].shortId) == rows[i].shortId;
    ForgetFacts(w1, v, Failed(NoSuchRule));
    if v.user == u.user {
      ShortIdNamesOneRow(w.table, v.user, rows[i].shortId, i);
      DeletedRow(w.table, i);
      ForgetFacts(w1.(table := Delete(w.table, rows[i].rule.id)), v, Done(rows[i].shortId));
    }
  }

  lemma DeletedRow(t: RuleTable, i: nat)
    requires Sound(t) && i < |t.rows|
    ensures Delete(t, t.rows[i].rule.id).rows == t.rows[..i] + t.rows[i + 1..]
  {
    IdNamesOneRow(t, i);
  }
}
