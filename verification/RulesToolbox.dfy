/**
  Proposals and their confirmation (llm/tools/rules_tools.py).  A tool stores a proposal in
  the memory of the chat context; `confirm_pending_action` applies it to the rule table.

  Validation, location lookup, the clock and the random ids are given per call by an `Env`.
 */
module RulesToolbox {
  import opened Wrappers
  import ContextKeys
  import Memory = ThreadMemory
  import opened RuleService

  datatype Action = CreateRule | EditRule | ScheduleNotification | DeleteNotification

  datatype Pending = Pending(
    action: Action,
    expression: string,
    explanation: string,
    location: Option<int>,
    chat: Option<int>,
    thread: Option<int>,
    editShortId: Option<string>,
    deleteShortId: Option<string>,
    schedule: Option<string>,
    fingerprint: string
  )

  /** What the memory holds: a proposal, or a value that no longer reads as one. */
  datatype Confirmation = Readable(pending: Pending) | Unreadable

  type Contexts = Memory.Contexts<Confirmation>

  datatype Env = Env(
    now: int,
    defaultTtl: int,
    validate: string -> Option<string>,     // the checked expression, None when it is invalid
    resolve: string -> Option<int>,         // a location name, also the empty one
    isBlank: string -> bool,
    scheduleValid: string -> bool,
    fixedDateRange: string -> bool,
    defaultLocation: Option<int>,
    fingerprint: string,
    draw: nat -> string
  ) {
    predicate Valid(expression: string) {
      validate(expression).Some?
    }
  }

  datatype Caller = Caller(user: int, chat: int, thread: Option<int>, key: ContextKeys.ContextKey)

  datatype Failure =
    | Raised(error: Memory.Error)
    | BadExpression | LocationNotFound | BadSchedule | FixedDateRange | NoShortId
    | NothingPending | UnreadablePending | NothingToCreate | NoLocation | NoSchedule
    | NoSuchRule
    | ServiceFailed(cause: RuleService.Error)

  datatype Reply =
    | Proposed
    | Done(shortId: string)
    | AlreadyThere(shortId: string)
    | Cancelled
    | Failed(why: Failure)

  datatype World = World(memory: Contexts, table: RuleTable)

  // ---- Memory of the caller's context -----------------------------------------------

  function Remember(w: World, u: Caller, p: Pending, now: int): (World, Reply) {
    var text := ContextKeys.KeyText(u.key);
    match Memory.Rewritten(w.memory, text, Memory.Stored(Memory.Opened(w.memory, text), Readable(p), now))
    case (m, Ok(_)) => (w.(memory := m), Proposed)
    case (m, Err(e)) => (w.(memory := m), Failed(Raised(e)))
  }

  /** Clear the pending action, then answer. */
  function Forget(w: World, u: Caller, reply: Reply): (World, Reply) {
    var text := ContextKeys.KeyText(u.key);
    match Memory.Rewritten(w.memory, text, Memory.Cleared(Memory.Opened(w.memory, text)))
    case (m, Ok(_)) => (w.(memory := m), reply)
    case (m, Err(e)) => (w.(memory := m), Failed(Raised(e)))
  }

  // ---- Proposing --------------------------------------------------------------------

  function NoPending(): Pending {
    Pending(CreateRule, "", "", None, None, None, None, None, None, "")
  }

  /** `_execute_propose`; `editShortId` is already in upper case without `#`. */
  function Propose(w: World, u: Caller, expression: string, explanation: string, name: string, editShortId: string,
                   env: Env): (World, Reply)
  {
    var checked := env.validate(expression);
    if checked.None? then (w, Failed(BadExpression))
    else if env.resolve(name).None? && !env.isBlank(name) then (w, Failed(LocationNotFound))
    else
      Remember(w, u,
               NoPending().(action := if editShortId != "" then EditRule else CreateRule,
                            expression := checked.value, explanation := explanation, location := env.resolve(name),
                            chat := Some(u.chat), thread := u.thread,
                            editShortId := if editShortId != "" then Some(editShortId) else None),
               env.now)
  }

  /** `schedule_notification`; `schedule` is the prefixed text. */
  function Schedule(w: World, u: Caller, schedule: string, explanation: string, name: string, expression: string,
                    env: Env): (World, Reply)
  {
    var checked := env.validate(expression);
    if checked.None? then (w, Failed(BadExpression))
    else if !env.scheduleValid(schedule) then (w, Failed(BadSchedule))
    else if "cron:" <= schedule && env.fixedDateRange(checked.value) then (w, Failed(FixedDateRange))
    else if env.resolve(name).None? && !env.isBlank(name) then (w, Failed(LocationNotFound))
    else
      Remember(w, u,
               NoPending().(action := ScheduleNotification, expression := checked.value, explanation := explanation,
                            location := env.resolve(name), chat := Some(u.chat), thread := u.thread,
                            schedule := Some(schedule), fingerprint := env.fingerprint),
               env.now)
  }

  /** `delete_notification`; `shortId` is already in upper case without `#`. */
  function RequestDelete(w: World, u: Caller, shortId: string, env: Env): (World, Reply) {
    if shortId == "" then (w, Failed(NoShortId))
    else match FindForUser(w.table.rows, u.user, StripHash(shortId))
      case None => (w, Failed(NoSuchRule))
      case Some(i) =>
        Remember(w, u,
                 NoPending().(action := DeleteNotification, chat := Some(u.chat), thread := u.thread,
                              deleteShortId := Some(w.table.rows[i].shortId)),
                 env.now)
  }

  // ---- Confirming and cancelling ----------------------------------------------------

  /** The pending action of the caller's context; reading it drops an expired one. */
  function Recall(w: World, u: Caller, env: Env): (World, Result<Option<Confirmation>, Memory.Error>) {
    var (m, got) := Memory.PendingReply(w.memory, ContextKeys.KeyText(u.key), env.defaultTtl, env.now);
    (w.(memory := m), got)
  }

  function ConfirmDelete(w: World, u: Caller, p: Pending): (World, Reply) {
    if p.deleteShortId.None? then Forget(w, u, Failed(NoShortId))
    else match FindForUser(w.table.rows, u.user, StripHash(p.deleteShortId.value))
      case None => Forget(w, u, Failed(NoSuchRule))
      case Some(i) =>
        var row := w.table.rows[i];
        Forget(w.(table := Delete(w.table, row.rule.id)), u, Done(row.shortId))
  }

  function ThreadOf(p: Pending, u: Caller): Option<int> {
    if p.thread.Some? then p.thread else u.thread
  }

  function DataOf(p: Pending, u: Caller, location: int): RuleCreate {
    RuleCreate(p.chat.GetOr(u.chat), ThreadOf(p, u), location, p.expression, None, DEFAULT_COOLDOWN, true, false, "",
               p.explanation)
  }

  function CreateFrom(w: World, u: Caller, data: RuleCreate, env: Env): (World, Reply) {
    match Create(w.table, u.user, data, env.Valid, env.draw)
    case Err(e) => (w, Failed(ServiceFailed(e)))
    case Ok(t) => Forget(w.(table := t), u, Done(t.rows[|t.rows| - 1].shortId))
  }

  function ConfirmSchedule(w: World, u: Caller, p: Pending, location: int, env: Env): (World, Reply) {
    if p.schedule.None? then (w, Failed(NoSchedule))
    else
      var id := Identity(u.user, p.chat.GetOr(u.chat), ThreadOf(p, u), location, p.expression, p.schedule.value,
                         p.fingerprint);
      match FindMatching(w.table.rows, id)
      case Some(i) => Forget(w, u, AlreadyThere(w.table.rows[i].shortId))
      case None =>
        CreateFrom(w, u, DataOf(p, u, location).(schedule := p.schedule, fingerprint := p.fingerprint), env)
  }

  function ConfirmEdit(w: World, u: Caller, p: Pending, shortId: string, env: Env): (World, Reply) {
    match FindForUser(w.table.rows, u.user, StripHash(shortId))
    case None => (w, Failed(NoSuchRule))
    case Some(i) =>
      match Update(w.table, w.table.rows[i].rule.id, Rewording(p.expression, p.explanation), env.Valid)
      case Err(e) => (w, Failed(ServiceFailed(e)))
      case Ok(t) => Forget(w.(table := t), u, Done(w.table.rows[i].shortId))
  }

  predicate IsEdit(p: Pending) {
    p.action == EditRule && p.editShortId.Some? && p.editShortId.value != ""
  }

  function ConfirmReadable(w: World, u: Caller, p: Pending, env: Env): (World, Reply) {
    if p.expression == "" && p.action == CreateRule then (w, Failed(NothingToCreate))
    else if p.action == DeleteNotification then ConfirmDelete(w, u, p)
    else
      var location := if p.location.Some? then p.location else env.defaultLocation;
      if location.None? then (w, Failed(NoLocation))
      else if p.action == ScheduleNotification then ConfirmSchedule(w, u, p, location.value, env)
      else if IsEdit(p) then ConfirmEdit(w, u, p, p.editShortId.value, env)
      else CreateFrom(w, u, DataOf(p, u, location.value), env)
  }

  /** `_execute_confirm`. */
  function Confirm(w: World, u: Caller, env: Env): (World, Reply) {
    var (w1, got) := Recall(w, u, env);
    match got
    case Err(e) => (w1, Failed(Raised(e)))
    case Ok(None) => (w1, Failed(NothingPending))
    case Ok(Some(Unreadable)) => Forget(w1, u, Failed(UnreadablePending))
    case Ok(Some(Readable(p))) => ConfirmReadable(w1, u, p, env)
  }

  /** `_execute_cancel`. */
  function Cancel(w: World, u: Caller, env: Env): (World, Reply) {
    var (w1, got) := Recall(w, u, env);
    match got
    case Err(e) => (w1, Failed(Raised(e)))
    case Ok(None) => (w1, Failed(NothingPending))
    case Ok(Some(_)) => Forget(w1, u, Cancelled)
  }

  // ---- The toolbox object -----------------------------------------------------------

  class Toolbox {
    const caller: Caller
    const memory: Memory.ThreadMemoryService<Confirmation>
    const rules: NotificationRuleService

    constructor (caller: Caller, memory: Memory.ThreadMemoryService<Confirmation>, rules: NotificationRuleService)
      ensures this.caller == caller && this.memory == memory && this.rules == rules
    {
      this.caller := caller;
      this.memory := memory;
      this.rules := rules;
    }

    function Snapshot(): World
      reads memory.service, rules
    {
      World(memory.service.contexts, rules.table)
    }

    method StorePending(p: Pending, now: int) returns (reply: Reply)
      modifies memory.service
      ensures (Snapshot(), reply) == Remember(old(Snapshot()), caller, p, now)
    {
      var stored := memory.StorePendingConfirmation(ContextKeys.KeyText(caller.key), Readable(p), now);
      reply := if stored.Ok? then Proposed else Failed(Raised(stored.error));
    }

    method ClearPending(answer: Reply) returns (reply: Reply)
      modifies memory.service
      ensures (Snapshot(), reply) == Forget(old(Snapshot()), caller, answer)
    {
      var cleared := memory.ClearPendingConfirmation(ContextKeys.KeyText(caller.key));
      reply := if cleared.Ok? then answer else Failed(Raised(cleared.error));
    }

    method ExecutePropose(expression: string, explanation: string, name: string, editShortId: string, env: Env)
      returns (reply: Reply)
      modifies memory.service
      ensures (Snapshot(), reply) == Propose(old(Snapshot()), caller, expression, explanation, name, editShortId, env)
    {
      var checked := env.validate(expression);
      if checked.None? {
        return Failed(BadExpression);
      }
      var location := env.resolve(name);
      if location.None? && !env.isBlank(name) {
        return Failed(LocationNotFound);
      }
      var edits := editShortId != "";
      var p := Pending(if edits then EditRule else CreateRule, checked.value, explanation, location,
                       Some(caller.chat), caller.thread, if edits then Some(editShortId) else None, None, None, "");
      reply := StorePending(p, env.now);
    }

    method ScheduleNotificationTool(schedule: string, explanation: string, name: string, expression: string, env: Env)
      returns (reply: Reply)
      modifies memory.service
      ensures (Snapshot(), reply) == Schedule(old(Snapshot()), caller, schedule, explanation, name, expression, env)
    {
      var checked := env.validate(expression);
      if checked.None? {
        return Failed(BadExpression);
      }
      if !env.scheduleValid(schedule) {
        return Failed(BadSchedule);
      }
      if "cron:" <= schedule && env.fixedDateRange(checked.value) {
        return Failed(FixedDateRange);
      }
      var location := env.resolve(name);
      if location.None? && !env.isBlank(name) {
        return Failed(LocationNotFound);
      }
      var p := Pending(ScheduleNotification, checked.value, explanation, location,
                       Some(caller.chat), caller.thread, None, None, Some(schedule), env.fingerprint);
      reply := StorePending(p, env.now);
    }

    method DeleteNotificationTool(shortId: string, env: Env) returns (reply: Reply)
      modifies memory.service
      ensures (Snapshot(), reply) == RequestDelete(old(Snapshot()), caller, shortId, env)
    {
      if shortId == "" {
        return Failed(NoShortId);
      }
      var existing := rules.GetRuleForUser(caller.user, shortId);
      if existing.None? {
        return Failed(NoSuchRule);
      }
      var p := Pending(DeleteNotification, "", "", None, Some(caller.chat), caller.thread,
                       None, Some(existing.value.shortId), None, "");
      reply := StorePending(p, env.now);
    }

    method ExecuteConfirm(env: Env) returns (reply: Reply)
      requires memory.defaultTtl == env.defaultTtl
      modifies memory.service, rules
      ensures (Snapshot(), reply) == Confirm(old(Snapshot()), caller, env)
    {
      var got := memory.GetPendingConfirmation(ContextKeys.KeyText(caller.key), None, env.now);
      if got.Err? {
        return Failed(Raised(got.error));
      }
      if got.value.None? {
        return Failed(NothingPending);
      }
      if got.value.value.Unreadable? {
        reply := ClearPending(Failed(UnreadablePending));
        return;
      }
      var p := got.value.value.pending;
      if p.expression == "" && p.action == CreateRule {
        return Failed(NothingToCreate);
      }
      if p.action == DeleteNotification {
        reply := ExecuteDelete(p);
        return;
      }
      var location := if p.location.Some? then p.location else env.defaultLocation;
      if location.None? {
        return Failed(NoLocation);
      }
      reply := ApplyPending(p, location.value, env);
    }

    method ExecuteDelete(p: Pending) returns (reply: Reply)
      modifies memory.service, rules
      ensures (Snapshot(), reply) == ConfirmDelete(old(Snapshot()), caller, p)
    {
      if p.deleteShortId.None? {
        reply := ClearPending(Failed(NoShortId));
        return;
      }
      var existing := rules.GetRuleForUser(caller.user, p.deleteShortId.value);
      if existing.None? {
        reply := ClearPending(Failed(NoSuchRule));
        return;
      }
      var deleted := rules.DeleteRule(existing.value.rule.id);
      reply := ClearPending(Done(existing.value.shortId));
    }

    /** The part of `_execute_confirm` whose exceptions become an error answer. */
    method ApplyPending(p: Pending, location: int, env: Env) returns (reply: Reply)
      requires p.action != DeleteNotification && (p.expression == "" ==> p.action != CreateRule)
      modifies memory.service, rules
      ensures (Snapshot(), reply)
              == ConfirmReadable(old(Snapshot()), caller, p.(location := Some(location)), env)
    {
      var chat := if p.chat.Some? then p.chat.value else caller.chat;
      var thread := if p.thread.Some? then p.thread else caller.thread;
      if p.action == ScheduleNotification {
        if p.schedule.None? {
          return Failed(NoSchedule);
        }
        var existing := rules.FindMatchingScheduledRule(
          Identity(caller.user, chat, thread, location, p.expression, p.schedule.value, p.fingerprint));
        if existing.Some? {
          reply := ClearPending(AlreadyThere(existing.value.shortId));
          return;
        }
        var data := RuleCreate(chat, thread, location, p.expression, p.schedule, DEFAULT_COOLDOWN, true, false,
                               p.fingerprint, p.explanation);
        var created := rules.CreateRule(caller.user, data, env.Valid, env.draw);
        if created.Err? {
          return Failed(ServiceFailed(created.error));
        }
        reply := ClearPending(Done(created.value.shortId));
      } else if p.action == EditRule && p.editShortId.Some? && p.editShortId.value != "" {
        var existing := rules.GetRuleForUser(caller.user, p.editShortId.value);
        if existing.None? {
          return Failed(NoSuchRule);
        }
        var updated := rules.UpdateRule(existing.value.rule.id, Rewording(p.expression, p.explanation), env.Valid);
        if updated.Err? {
          return Failed(ServiceFailed(updated.error));
        }
        reply := ClearPending(Done(existing.value.shortId));
      } else {
        var data := RuleCreate(chat, thread, location, p.expression, None, DEFAULT_COOLDOWN, true, false, "", p.explanation);
        var created := rules.CreateRule(caller.user, data, env.Valid, env.draw);
        if created.Err? {
          return Failed(ServiceFailed(created.error));
        }
        reply := ClearPending(Done(created.value.shortId));
      }
    }

    method ExecuteCancel(env: Env) returns (reply: Reply)
      requires memory.defaultTtl == env.defaultTtl
      modifies memory.service
      ensures (Snapshot(), reply) == Cancel(old(Snapshot()), caller, env)
    {
      var got := memory.GetPendingConfirmation(ContextKeys.KeyText(caller.key), None, env.now);
      if got.Err? {
        return Failed(Raised(got.error));
      }
      if got.value.None? {
        return Failed(NothingPending);
      }
      reply := ClearPending(Cancelled);
    }
  }
}
