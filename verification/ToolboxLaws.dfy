/** What sequences of tool calls keep: proposals act once, on their confirmer's rules, without duplicates. */
module ToolboxLaws {
  import opened Wrappers
  import opened ContextKeys
  import Memory = ThreadMemory
  import Rules
  import opened RuleService
  import opened RulesToolbox

  // ---- Runs -------------------------------------------------------------------------

  datatype Tool =
    | UsePropose(expression: string, explanation: string, name: string, editShortId: string)
    | UseSchedule(schedule: string, explanation: string, name: string, expression: string)
    | UseDelete(shortId: string)
    | UseConfirm
    | UseCancel

  /** A tool call, or a rule switched off or deleted elsewhere. */
  datatype Step = Use(caller: Caller, tool: Tool, env: Env) | Off(id: int) | Remove(id: int)

  function Call(w: World, u: Caller, tool: Tool, env: Env): (World, Reply) {
    match tool
    case UsePropose(expression, explanation, name, edit) => Propose(w, u, expression, explanation, name, edit, env)
    case UseSchedule(schedule, explanation, name, expression) =>
      Schedule(w, u, schedule, explanation, name, expression, env)
    case UseDelete(shortId) => RequestDelete(w, u, shortId, env)
    case UseConfirm => Confirm(w, u, env)
    case UseCancel => Cancel(w, u, env)
  }

  function Act(w: World, step: Step): World {
    match step
    case Use(u, tool, env) => Call(w, u, tool, env).0
    case Off(id) => (match SwitchOff(w.table, id) case Ok(t) => w.(table := t) case Err(_) => w)
    case Remove(id) => w.(table := Delete(w.table, id))
  }

  ghost predicate Run(ws: seq<World>, steps: seq<Step>) {
    && |ws| == |steps| + 1
    && Sound(ws[0].table)
    && forall i :: 0 <= i < |steps| ==> ws[i + 1] == Act(ws[i], steps[i])
  }

  function PendingAt(w: World, k: ContextKey): Option<Confirmation> {
    Memory.At(w.memory, k).pending
  }

  // ---- Memory under the tools -------------------------------------------------------

  ghost predicate OnlyPendingMoves(w: World, w': World, k: ContextKey) {
    forall other: ContextKey :: other != k ==> PendingAt(w', other) == PendingAt(w, other)
  }

  lemma RowsAreSeparate(m: Contexts, k: ContextKey, md: Memory.Metadata<Confirmation>)
    ensures Memory.Rewritten(m, KeyText(k), md).1.Ok?
    ensures Memory.At(Memory.Rewritten(m, KeyText(k), md).0, k) == md
    ensures forall other: ContextKey :: other != k ==>
              Memory.At(Memory.Rewritten(m, KeyText(k), md).0, other) == Memory.At(m, other)
  {
    hide KeyText, ParseKey;
    KeyRoundTrip(k);
    forall other: ContextKey | other != k
      ensures Memory.At(Memory.Rewritten(m, KeyText(k), md).0, other) == Memory.At(m, other)
    {
      if KeyText(other) == KeyText(k) {
        KeyTextInjective(other, k);
      }
    }
  }

  lemma RememberFacts(w: World, u: Caller, p: Pending, now: int)
    ensures var (w', reply) := Remember(w, u, p, now);
            && reply == Proposed && w'.table == w.table
            && PendingAt(w', u.key) == Some(Readable(p)) && OnlyPendingMoves(w, w', u.key)
  {
    hide KeyText, ParseKey, Memory.Rewritten;
    var text := KeyText(u.key);
    RowsAreSeparate(w.memory, u.key, Memory.Stored(Memory.Opened(w.memory, text), Readable(p), now));
  }

  lemma ForgetFacts(w: World, u: Caller, answer: Reply)
    ensures var (w', reply) := Forget(w, u, answer);
            && reply == answer && w'.table == w.table
            && PendingAt(w', u.key).None? && OnlyPendingMoves(w, w', u.key)
  {
    hide KeyText, ParseKey, Memory.Rewritten;
    var text := KeyText(u.key);
    RowsAreSeparate(w.memory, u.key, Memory.Cleared(Memory.Opened(w.memory, text)));
  }

  lemma RecallFacts(w: World, u: Caller, env: Env)
    ensures var (w', got) := Recall(w, u, env);
            && got.Ok? && w'.table == w.table
            && PendingAt(w', u.key) == got.value && OnlyPendingMoves(w, w', u.key)
            && (got.value.Some? ==> got.value == PendingAt(w, u.key))
  {
    hide KeyText, ParseKey, Memory.Rewritten;
    KeyRoundTrip(u.key);
    var md := Memory.At(w.memory, u.key);
    RowsAreSeparate(w.memory, u.key, Memory.Cleared(md));
    OpeningChangesNothing(w.memory, u.key);
  }

  lemma OpeningChangesNothing(m: Contexts, k: ContextKey)
    ensures forall other: ContextKey :: Memory.At(Memory.WithRow(m, k), other) == Memory.At(m, other)
  {
    hide KeyText;
  }

  // ---- One call ---------------------------------------------------------------------

  /** The table gains, rewrites or loses one row, which belongs to the user before and after. */
  ghost predicate OneRowOf(user: int, t: RuleTable, t': RuleTable) {
    || (exists row :: t'.rows == t.rows + [row] && row.rule.user == user)
    || (exists i, row :: 0 <= i < |t.rows| && t'.rows == t.rows[i := row]
          && t.rows[i].rule.user == user && row.rule.user == user)
    || (exists i :: 0 <= i < |t.rows| && t'.rows == t.rows[..i] + t.rows[i + 1..] && t.rows[i].rule.user == user)
  }

  lemma IdNamesOneRow(t: RuleTable, k: nat)
    requires Sound(t) && k < |t.rows|
    ensures FindId(t.rows, t.rows[k].rule.id) == Some(k)
  {
  }

  /** The effect of a confirm on the table, and on the pending action. */
  ghost predicate Applied(w: World, u: Caller, w': World) {
    && Sound(w'.table)
    && OnlyPendingMoves(w, w', u.key)
    && (w'.table == w.table || (OneRowOf(u.user, w.table, w'.table) && PendingAt(w', u.key).None?))
    && (PendingAt(w', u.key).Some? ==> PendingAt(w', u.key) == PendingAt(w, u.key))
  }

  lemma DeleteApplies(w: World, u: Caller, p: Pending)
    requires Sound(w.table)
    ensures Applied(w, u, ConfirmDelete(w, u, p).0)
  {
    hide Forget, Sound;
    if p.deleteShortId.None? || FindForUser(w.table.rows, u.user, StripHash(p.deleteShortId.value)).None? {
      ForgetFacts(w, u, Failed(NoShortId));
      ForgetFacts(w, u, Failed(NoSuchRule));
    } else {
      var i := FindForUser(w.table.rows, u.user, StripHash(p.deleteShortId.value)).value;
      var row := w.table.rows[i];
      IdNamesOneRow(w.table, i);
      DeleteKeepsSound(w.table, row.rule.id);
      ForgetFacts(w.(table := Delete(w.table, row.rule.id)), u, Done(row.shortId));
    }
  }

  lemma CreateApplies(w: World, u: Caller, data: RuleCreate, env: Env)
    requires Sound(w.table)
    ensures Applied(w, u, CreateFrom(w, u, data, env).0)
  {
    hide Forget, Sound, FreshShortId;
    var created := Create(w.table, u.user, data, env.Valid, env.draw);
    if created.Ok? {
      var t := created.value;
      CreateKeepsSound(w.table, u.user, data, env.Valid, env.draw);
      assert t.rows == w.table.rows + [t.rows[|w.table.rows|]];
      ForgetFacts(w.(table := t), u, Done(t.rows[|t.rows| - 1].shortId));
    }
  }

  lemma ScheduleApplies(w: World, u: Caller, p: Pending, location: int, env: Env)
    requires Sound(w.table)
    ensures Applied(w, u, ConfirmSchedule(w, u, p, location, env).0)
  {
    hide Forget, Sound, CreateFrom, Applied;
    if p.schedule.None? {
      NothingApplied(w, u);
    } else {
      var id := Identity(u.user, p.chat.GetOr(u.chat), ThreadOf(p, u), location, p.expression, p.schedule.value,
                         p.fingerprint);
      match FindMatching(w.table.rows, id)
      case Some(i) => ForgettingApplies(w, u, AlreadyThere(w.table.rows[i].shortId));
      case None =>
        CreateApplies(w, u, DataOf(p, u, location).(schedule := p.schedule, fingerprint := p.fingerprint), env);
    }
  }

  lemma NothingApplied(w: World, u: Caller)
    requires Sound(w.table)
    ensures Applied(w, u, w)
  {
  }

  lemma ForgettingApplies(w: World, u: Caller, answer: Reply)
    requires Sound(w.table)
    ensures Applied(w, u, Forget(w, u, answer).0)
  {
    hide Forget;
    ForgetFacts(w, u, answer);
  }

  lemma EditApplies(w: World, u: Caller, p: Pending, shortId: string, env: Env)
    requires Sound(w.table)
    ensures Applied(w, u, ConfirmEdit(w, u, p, shortId, env).0)
  {
    hide Forget, Sound;
    var found := FindForUser(w.table.rows, u.user, StripHash(shortId));
    if found.Some? {
      var i := found.value;
      var id := w.table.rows[i].rule.id;
      IdNamesOneRow(w.table, i);
      var updated := Update(w.table, id, Rewording(p.expression, p.explanation), env.Valid);
      if updated.Ok? {
        UpdateKeepsSound(w.table, id, Rewording(p.expression, p.explanation), env.Valid);
        var t := updated.value;
        assert t.rows == w.table.rows[i := t.rows[i]];
        ForgetFacts(w.(table := t), u, Done(w.table.rows[i].shortId));
      }
    }
  }

  lemma ReadableApplies(w: World, u: Caller, p: Pending, env: Env)
    requires Sound(w.table)
    ensures Applied(w, u, ConfirmReadable(w, u, p, env).0)
  {
    hide Forget, Sound, Applied, ConfirmDelete, ConfirmSchedule, ConfirmEdit, CreateFrom;
    NothingApplied(w, u);
    DeleteApplies(w, u, p);
    var location := if p.location.Some? then p.location else env.defaultLocation;
    if location.Some? {
      ScheduleApplies(w, u, p, location.value, env);
      CreateApplies(w, u, DataOf(p, u, location.value), env);
      if IsEdit(p) {
        EditApplies(w, u, p, p.editShortId.value, env);
      }
    }
  }

  /** What any tool call may do: only a confirm of a pending proposal changes the table. */
  ghost predicate CallStep(w: World, u: Caller, tool: Tool, w': World, reply: Reply) {
    && Sound(w'.table)
    && OnlyPendingMoves(w, w', u.key)
    && (w'.table != w.table ==>
          && tool.UseConfirm? && PendingAt(w, u.key).Some? && PendingAt(w, u.key).value.Readable?
          && OneRowOf(u.user, w.table, w'.table)
          && PendingAt(w', u.key).None?)
    && (PendingAt(w', u.key).Some? ==> reply == Proposed || PendingAt(w', u.key) == PendingAt(w, u.key))
  }

  lemma CallIsAStep(w: World, u: Caller, tool: Tool, env: Env)
    requires Sound(w.table)
    ensures CallStep(w, u, tool, Call(w, u, tool, env).0, Call(w, u, tool, env).1)
  {
    hide Sound, OneRowOf, Remember, Forget, Recall, ConfirmReadable;
    match tool
    case UsePropose(_, _, _, _) => ProposingIsAStep(w, u, tool, env);
    case UseSchedule(_, _, _, _) => ProposingIsAStep(w, u, tool, env);
    case UseDelete(_) => ProposingIsAStep(w, u, tool, env);
    case UseCancel =>
      RecallFacts(w, u, env);
      ForgetFacts(Recall(w, u, env).0, u, Cancelled);
    case UseConfirm =>
      RecallFacts(w, u, env);
      var (w1, got) := Recall(w, u, env);
      ForgetFacts(w1, u, Failed(UnreadablePending));
      if got.value.Some? && got.value.value.Readable? {
        ReadableApplies(w1, u, got.value.value.pending, env);
      }
  }

  lemma ProposingIsAStep(w: World, u: Caller, tool: Tool, env: Env)
    requires Sound(w.table) && !tool.UseConfirm? && !tool.UseCancel?
    ensures CallStep(w, u, tool, Call(w, u, tool, env).0, Call(w, u, tool, env).1)
  {
    hide Sound, OneRowOf, Remember, FindForUser, StripHash;
    forall p ensures var (w', reply) := Remember(w, u, p, env.now);
                     CallStep(w, u, tool, w', reply)
    {
      RememberFacts(w, u, p, env.now);
    }
  }

  // ---- Other users' rules -----------------------------------------------------------

  /** The rows of one user, in order. */
  function RowsOf(rows: seq<Row>, user: int): seq<Row> {
    if rows == [] then []
    else
      var n := |rows| - 1;
      RowsOf(rows[..n], user) + (if rows[n].rule.user == user then [rows[n]] else [])
  }

  lemma {:induction false} RowsOfConcat(a: seq<Row>, b: seq<Row>, user: int)
    ensures RowsOf(a + b, user) == RowsOf(a, user) + RowsOf(b, user)
  {
    if b == [] {
      assert a + b == a;
    } else {
      var n := |b| - 1;
      RowsOfConcat(a, b[..n], user);
      assert (a + b)[..|a| + n] == a + b[..n];
    }
  }

  lemma CutRows(rows: seq<Row>, i: nat, user: int)
    requires i < |rows|
    ensures RowsOf(rows, user)
            == RowsOf(rows[..i], user) + (if rows[i].rule.user == user then [rows[i]] else []) + RowsOf(rows[i + 1..], user)
  {
    assert rows == (rows[..i] + [rows[i]]) + rows[i + 1..];
    RowsOfConcat(rows[..i] + [rows[i]], rows[i + 1..], user);
    assert (rows[..i] + [rows[i]])[..i] == rows[..i];
  }

  lemma AddedRowKeepsOthers(rows: seq<Row>, row: Row, other: int)
    requires row.rule.user != other
    ensures RowsOf(rows + [row], other) == RowsOf(rows, other)
  {
    assert (rows + [row])[..|rows|] == rows;
  }

  lemma RewrittenRowKeepsOthers(rows: seq<Row>, i: nat, row: Row, other: int)
    requires i < |rows| && rows[i].rule.user != other && row.rule.user != other
    ensures RowsOf(rows[i := row], other) == RowsOf(rows, other)
  {
    hide RowsOf;
    CutRows(rows, i, other);
    CutRows(rows[i := row], i, other);
    assert rows[i := row][..i] == rows[..i] && rows[i := row][i + 1..] == rows[i + 1..];
  }

  lemma LostRowKeepsOthers(rows: seq<Row>, i: nat, other: int)
    requires i < |rows| && rows[i].rule.user != other
    ensures RowsOf(rows[..i] + rows[i + 1..], other) == RowsOf(rows, other)
  {
    hide RowsOf;
    CutRows(rows, i, other);
    RowsOfConcat(rows[..i], rows[i + 1..], other);
    assert RowsOf(rows[..i], other) + [] == RowsOf(rows[..i], other);
  }

  lemma OneRowOfKeepsOthers(user: int, t: RuleTable, t': RuleTable, other: int)
    requires OneRowOf(user, t, t') && other != user
    ensures RowsOf(t'.rows, other) == RowsOf(t.rows, other)
  {
    hide RowsOf;
    if row :| t'.rows == t.rows + [row] && row.rule.user == user {
      AddedRowKeepsOthers(t.rows, row, other);
    } else if i, row :| 0 <= i < |t.rows| && t'.rows == t.rows[i := row]
                        && t.rows[i].rule.user == user && row.rule.user == user {
      RewrittenRowKeepsOthers(t.rows, i, row, other);
    } else {
      var i :| 0 <= i < |t.rows| && t'.rows == t.rows[..i] + t.rows[i + 1..] && t.rows[i].rule.user == user;
      LostRowKeepsOthers(t.rows, i, other);
    }
  }

  lemma {:induction false} RunKeepsSound(ws: seq<World>, steps: seq<Step>, n: nat)
    requires Run(ws, steps) && n < |ws|
    ensures Sound(ws[n].table)
  {
    if n > 0 {
      RunKeepsSound(ws, steps, n - 1);
      StepKeepsSound(ws[n - 1], steps[n - 1]);
    }
  }

  lemma StepKeepsSound(w: World, step: Step)
    requires Sound(w.table)
    ensures Sound(Act(w, step).table)
  {
    hide Sound, Call;
    match step
    case Use(u, tool, env) => CallIsAStep(w, u, tool, env);
    case Off(id) => if SwitchOff(w.table, id).Ok? { SwitchOffKeepsSound(w.table, id); }
    case Remove(id) => DeleteKeepsSound(w.table, id);
  }

  /** Over any sequence of tool calls by others, in whatever contexts, a user's rules stay as they are. */
  lemma {:induction false} OthersRulesUntouched(ws: seq<World>, steps: seq<Step>, i: nat, j: nat, user: int)
    requires Run(ws, steps) && i <= j < |ws|
    requires forall m :: i <= m < j ==> steps[m].Use? && steps[m].caller.user != user
    ensures RowsOf(ws[j].table.rows, user) == RowsOf(ws[i].table.rows, user)
    decreases j
  {
    hide Act, RowsOf, OneRowOf, Sound, OnlyPendingMoves, PendingAt, Call;
    if i < j {
      OthersRulesUntouched(ws, steps, i, j - 1, user);
      RunKeepsSound(ws, steps, j - 1);
      var w, step := ws[j - 1], steps[j - 1];
      UseIsAStep(w, step);
      if ws[j].table != w.table {
        OneRowOfKeepsOthers(step.caller.user, w.table, ws[j].table, user);
      }
    }
  }

  lemma UseIsAStep(w: World, step: Step)
    requires Sound(w.table) && step.Use?
    ensures CallStep(w, step.caller, step.tool, Act(w, step), Call(w, step.caller, step.tool, step.env).1)
  {
    hide Call, CallStep;
    CallIsAStep(w, step.caller, step.tool, step.env);
  }

  // ---- At most once -----------------------------------------------------------------

  predicate ChangesTable(ws: seq<World>, steps: seq<Step>, m: nat, k: ContextKey)
    requires |ws| == |steps| + 1 && m < |steps|
  {
    steps[m].Use? && steps[m].caller.key == k && ws[m + 1].table != ws[m].table
  }

  /** Step `m` stores a proposal in context `k`. */
  predicate Proposes(ws: seq<World>, steps: seq<Step>, m: nat, k: ContextKey)
    requires |ws| == |steps| + 1 && m < |steps|
  {
    steps[m].Use? && steps[m].caller.key == k
    && Call(ws[m], steps[m].caller, steps[m].tool, steps[m].env).1 == Proposed
  }

  /** A step that does not propose in `k` can only keep or drop what is pending there. */
  lemma PendingNeedsProposal(ws: seq<World>, steps: seq<Step>, m: nat, k: ContextKey)
    requires Run(ws, steps) && m < |steps| && !Proposes(ws, steps, m, k)
    ensures PendingAt(ws[m + 1], k).Some? ==> PendingAt(ws[m + 1], k) == PendingAt(ws[m], k)
  {
    hide Call, PendingAt, Sound;
    RunKeepsSound(ws, steps, m);
    if steps[m].Use? {
      UseIsAStep(ws[m], steps[m]);
    } else {
      MemoryStays(ws[m], steps[m], k);
    }
  }

  lemma MemoryStays(w: World, step: Step, k: ContextKey)
    requires !step.Use?
    ensures PendingAt(Act(w, step), k) == PendingAt(w, k)
  {
  }

  lemma {:induction false} NothingPendingUntilProposed(ws: seq<World>, steps: seq<Step>, i: nat, j: nat, k: ContextKey)
    requires Run(ws, steps) && i <= j < |ws| && PendingAt(ws[i], k).None?
    requires forall m :: i <= m < j ==> !Proposes(ws, steps, m, k)
    ensures PendingAt(ws[j], k).None?
    decreases j
  {
    if i < j {
      hide PendingAt, Call;
      NothingPendingUntilProposed(ws, steps, i, j - 1, k);
      PendingNeedsProposal(ws, steps, j - 1, k);
    }
  }

  lemma ChangeConsumes(ws: seq<World>, steps: seq<Step>, m: nat, k: ContextKey)
    requires Run(ws, steps) && m < |steps| && ChangesTable(ws, steps, m, k)
    ensures steps[m].tool.UseConfirm?
    ensures PendingAt(ws[m], k).Some? && PendingAt(ws[m], k).value.Readable? && PendingAt(ws[m + 1], k).None?
  {
    hide Call, PendingAt, Sound, OneRowOf;
    RunKeepsSound(ws, steps, m);
    UseIsAStep(ws[m], steps[m]);
  }

  /**
    Each stored proposal changes the rule table at most once: between two changes made from one
    context lies the storing of another proposal there.
   */
  lemma ProposalsActAtMostOnce(ws: seq<World>, steps: seq<Step>, i: nat, j: nat, k: ContextKey)
    requires Run(ws, steps) && i < j < |steps|
    requires ChangesTable(ws, steps, i, k) && ChangesTable(ws, steps, j, k)
    ensures exists m :: i < m < j && Proposes(ws, steps, m, k)
  {
    hide PendingAt, Proposes, ChangesTable;
    ChangeConsumes(ws, steps, i, k);
    ChangeConsumes(ws, steps, j, k);
    if forall m :: i < m < j ==> !Proposes(ws, steps, m, k) {
      NothingPendingUntilProposed(ws, steps, i + 1, j, k);
    }
  }

  /** What is pending was stored by the last proposing step of its context. */
  lemma {:induction false} PendingIsTheLastProposal(ws: seq<World>, steps: seq<Step>, n: nat, k: ContextKey)
    returns (m: nat)
    requires Run(ws, steps) && n < |ws| && PendingAt(ws[0], k).None? && PendingAt(ws[n], k).Some?
    ensures m < n && Proposes(ws, steps, m, k) && PendingAt(ws[m + 1], k) == PendingAt(ws[n], k)
    ensures forall i :: m < i < n ==> !Proposes(ws, steps, i, k)
  {
    hide PendingAt, Call;
    if Proposes(ws, steps, n - 1, k) {
      m := n - 1;
    } else {
      PendingNeedsProposal(ws, steps, n - 1, k);
      m := PendingIsTheLastProposal(ws, steps, n - 1, k);
    }
  }

  // ---- No duplicate schedules -------------------------------------------------------

  predicate Twins(a: Rules.Rule, b: Rules.Rule) {
    a.enabled && b.enabled && IdentityOf(a).Some? && IdentityOf(a) == IdentityOf(b)
  }

  ghost predicate NoTwins(rows: seq<Row>) {
    forall i, j :: 0 <= i < j < |rows| ==> !Twins(rows[i].rule, rows[j].rule)
  }

  lemma CreatedScheduleHasNoTwin(w: World, u: Caller, p: Pending, location: int, env: Env)
    requires Sound(w.table) && NoTwins(w.table.rows)
    ensures NoTwins(ConfirmSchedule(w, u, p, location, env).0.table.rows)
  {
    hide Forget, FreshShortId, Sound;
    if p.schedule.Some? {
      var rows := w.table.rows;
      var id := Identity(u.user, p.chat.GetOr(u.chat), ThreadOf(p, u), location, p.expression, p.schedule.value,
                         p.fingerprint);
      var found := FindMatching(rows, id);
      var data := DataOf(p, u, location).(schedule := p.schedule, fingerprint := p.fingerprint);
      var created := Create(w.table, u.user, data, env.Valid, env.draw);
      if found.Some? {
        ForgetFacts(w, u, AlreadyThere(rows[found.value].shortId));
      } else if created.Ok? {
        var t := created.value;
        ForgetFacts(w.(table := t), u, Done(t.rows[|t.rows| - 1].shortId));
        assert IdentityOf(t.rows[|rows|].rule) == Some(id);
        forall i | 0 <= i < |rows| ensures !Twins(rows[i].rule, t.rows[|rows|].rule) {
          assert !Matches(rows[i], id);
        }
      }
    }
  }

  lemma CreatedPlainRuleHasNoTwin(w: World, u: Caller, p: Pending, location: int, env: Env)
    requires NoTwins(w.table.rows)
    ensures NoTwins(CreateFrom(w, u, DataOf(p, u, location), env).0.table.rows)
  {
    hide Forget, FreshShortId;
    var created := Create(w.table, u.user, DataOf(p, u, location), env.Valid, env.draw);
    if created.Ok? {
      var t := created.value;
      ForgetFacts(w.(table := t), u, Done(t.rows[|t.rows| - 1].shortId));
    }
  }

  lemma DeletingKeepsNoTwins(t: RuleTable, id: int)
    requires NoTwins(t.rows)
    ensures NoTwins(Delete(t, id).rows)
  {
    hide Twins;
    var found := FindId(t.rows, id);
    if found.Some? {
      var i, rows := found.value, Delete(t, id).rows;
      forall a, b | 0 <= a < b < |rows| ensures !Twins(rows[a].rule, rows[b].rule) {
        var a', b' := if a < i then a else a + 1, if b < i then b else b + 1;
        assert rows[a] == t.rows[a'] && rows[b] == t.rows[b'];
      }
    }
  }

  lemma DeletedKeepsNoTwins(w: World, u: Caller, p: Pending)
    requires NoTwins(w.table.rows)
    ensures NoTwins(ConfirmDelete(w, u, p).0.table.rows)
  {
    hide Forget, Delete, NoTwins;
    ForgetFacts(w, u, Failed(NoShortId));
    ForgetFacts(w, u, Failed(NoSuchRule));
    if p.deleteShortId.Some? {
      var found := FindForUser(w.table.rows, u.user, StripHash(p.deleteShortId.value));
      if found.Some? {
        var row := w.table.rows[found.value];
        DeletingKeepsNoTwins(w.table, row.rule.id);
        ForgetFacts(w.(table := Delete(w.table, row.rule.id)), u, Done(row.shortId));
      }
    }
  }

  lemma ReadableKeepsNoTwins(w: World, u: Caller, p: Pending, env: Env)
    requires Sound(w.table) && NoTwins(w.table.rows) && !IsEdit(p)
    ensures NoTwins(ConfirmReadable(w, u, p, env).0.table.rows)
  {
    hide Sound, NoTwins, ConfirmDelete, ConfirmSchedule, CreateFrom, IsEdit;
    DeletedKeepsNoTwins(w, u, p);
    var location := if p.location.Some? then p.location else env.defaultLocation;
    if location.Some? {
      CreatedScheduleHasNoTwin(w, u, p, location.value, env);
      CreatedPlainRuleHasNoTwin(w, u, p, location.value, env);
    }
  }

  /** This step confirms an edit. */
  predicate ConfirmsEdit(w: World, step: Step) {
    && step.Use? && step.tool.UseConfirm?
    && PendingAt(w, step.caller.key).Some? && PendingAt(w, step.caller.key).value.Readable?
    && IsEdit(PendingAt(w, step.caller.key).value.pending)
  }

  lemma ConfirmKeepsNoTwins(w: World, u: Caller, env: Env)
    requires Sound(w.table) && NoTwins(w.table.rows) && !ConfirmsEdit(w, Use(u, UseConfirm, env))
    ensures NoTwins(Confirm(w, u, env).0.table.rows)
  {
    hide Sound, NoTwins, Recall, Forget, ConfirmReadable, IsEdit, PendingAt;
    RecallFacts(w, u, env);
    var (w1, got) := Recall(w, u, env);
    ForgetFacts(w1, u, Failed(UnreadablePending));
    if got.value.Some? && got.value.value.Readable? {
      ReadableKeepsNoTwins(w1, u, got.value.value.pending, env);
    }
  }

  lemma StepKeepsNoTwins(w: World, step: Step)
    requires Sound(w.table) && NoTwins(w.table.rows) && !ConfirmsEdit(w, step)
    ensures NoTwins(Act(w, step).table.rows)
  {
    match step
    case Use(u, tool, env) =>
      hide NoTwins, Sound, OneRowOf, Propose, Schedule, RequestDelete, Confirm, Cancel, ConfirmsEdit;
      if tool.UseConfirm? {
        ConfirmKeepsNoTwins(w, u, env);
      } else {
        CallIsAStep(w, u, tool, env);
      }
    case Off(_) =>
    case Remove(id) => DeletingKeepsNoTwins(w.table, id);
  }

  /**
    Without confirmed edits, no run ever has two enabled scheduled rules of the same user, chat,
    thread, location, expression, schedule and context.
   */
  lemma {:induction false} SchedulesAreNeverDuplicated(ws: seq<World>, steps: seq<Step>, n: nat)
    requires Run(ws, steps) && NoTwins(ws[0].table.rows) && n < |ws|
    requires forall m :: 0 <= m < |steps| ==> !ConfirmsEdit(ws[m], steps[m])
    ensures NoTwins(ws[n].table.rows)
  {
    if n > 0 {
      hide NoTwins, Act, ConfirmsEdit, Sound;
      SchedulesAreNeverDuplicated(ws, steps, n - 1);
      RunKeepsSound(ws, steps, n - 1);
      StepKeepsNoTwins(ws[n - 1], steps[n - 1]);
    }
  }

  /** An edit that goes through leaves duplicates exactly when another enabled rule already is what it makes. */
  lemma EditKeepsNoTwinsIff(t: RuleTable, i: nat, expression: string, description: string, valid: string -> bool)
    requires Sound(t) && NoTwins(t.rows) && i < |t.rows| && valid(expression)
    ensures var updated := Update(t, t.rows[i].rule.id, Rewording(expression, description), valid);
            && updated.Ok?
            && (NoTwins(updated.value.rows) <==>
                !(t.rows[i].rule.enabled
                  && exists j :: 0 <= j < |t.rows| && j != i && t.rows[j].rule.enabled
                       && IdentityOf(t.rows[j].rule).Some?
                       && IdentityOf(t.rows[j].rule) == IdentityOf(t.rows[i].rule.(expression := expression))))
  {
    IdNamesOneRow(t, i);
    var rows' := Update(t, t.rows[i].rule.id, Rewording(expression, description), valid).value.rows;
    var edited := t.rows[i].rule.(expression := expression);
    hide IdentityOf, Sound;
    assert forall j :: 0 <= j < |rows'| && j != i ==> rows'[j] == t.rows[j];
    assert rows'[i].rule == edited;
    if j :| 0 <= j < |t.rows| && j != i && Twins(t.rows[j].rule, edited) {
      assert if j < i then Twins(rows'[j].rule, rows'[i].rule) else Twins(rows'[i].rule, rows'[j].rule);
    }
  }
}
