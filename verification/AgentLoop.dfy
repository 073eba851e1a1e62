/**
  The tool-calling loop (agent_factory.py).  The model and the tools are arbitrary: the model
  answers as a function of the round and its input, a tool as a function of the call and of the
  position in the transcript, so both may behave differently every time.
 */
module AgentLoop {
  import opened Wrappers

  /** The `id` entry of a tool call. */
  datatype CallId = Missing | Null | Id(text: string)

  datatype ToolCall = ToolCall(id: CallId, name: string, args: string)

  datatype Message =
    | System(content: string)
    | Human(content: string)
    | Assistant(content: string, calls: seq<ToolCall>)
    | ToolMessage(content: string, callId: string, failed: bool)

  /** What the model returns: an assistant message, or something else that is turned into one. */
  datatype Response = Reply(content: string, calls: seq<ToolCall>) | Other(text: string)

  datatype ToolOutcome = Returned(content: string) | Raised(description: string)

  datatype Agent = Agent(
    model: (nat, seq<Message>) -> Response,
    tools: map<string, (string, nat) -> ToolOutcome>,
    prompt: string,
    maxRounds: nat := DEFAULT_MAX_ROUNDS
  )

  const DEFAULT_MAX_ROUNDS: nat := 8
  const APOLOGY: Message := Assistant("Przepraszam, nie udało się zakończyć obsługi narzędzi.", [])

  function AsAssistant(r: Response): Message {
    match r
    case Reply(content, calls) => Assistant(content, calls)
    case Other(text) => Assistant(text, [])
  }

  /** `str(tool_call.get("id", tool_name))`. */
  function AnswerId(call: ToolCall): string {
    match call.id
    case Missing => call.name
    case Null => "None"
    case Id(text) => text
  }

  /**
    The right answer to a call, given at position `at` of the transcript: a tool message under
    the call's id (under the tool's name when the call has no id entry), which carries the text of
    a known tool that returned, and otherwise is marked as failed and says why.
   */
  predicate Answers(a: Agent, m: Message, call: ToolCall, at: nat) {
    && m.ToolMessage?
    && (call.id.Id? ==> m.callId == call.id.text)
    && (call.id.Missing? ==> m.callId == call.name)
    && (call.id.Null? ==> m.callId == "None")
    && (m.failed <==> !(call.name in a.tools && a.tools[call.name](call.args, at).Returned?))
    && m.content == if call.name !in a.tools then "Unknown tool: " + call.name
                    else match a.tools[call.name](call.args, at)
                      case Returned(content) => content
                      case Raised(description) => "Tool error: " + description
  }

  /** `_invoke_tool`. */
  function Answer(a: Agent, call: ToolCall, at: nat): (m: Message)
    ensures Answers(a, m, call, at)
  {
    if call.name !in a.tools then ToolMessage("Unknown tool: " + call.name, AnswerId(call), true)
    else
      match a.tools[call.name](call.args, at)
      case Returned(content) => ToolMessage(content, AnswerId(call), false)
      case Raised(description) => ToolMessage("Tool error: " + description, AnswerId(call), true)
  }

  // ---- Rounds -----------------------------------------------------------------------

  /** The transcript after the first `n` of these calls have been answered. */
  function Answering(a: Agent, messages: seq<Message>, calls: seq<ToolCall>, n: nat): seq<Message>
    requires n <= |calls|
    decreases n
  {
    if n == 0 then messages
    else
      var before := Answering(a, messages, calls, n - 1);
      before + [Answer(a, calls[n - 1], |before|)]
  }

  datatype Progress = Progress(messages: seq<Message>, done: bool)

  function Input(a: Agent, messages: seq<Message>): seq<Message> {
    [System(a.prompt)] + messages
  }

  function ReplyAt(a: Agent, messages: seq<Message>, round: nat): (m: Message)
    ensures m.Assistant?
  {
    AsAssistant(a.model(round, Input(a, messages)))
  }

  function Round(a: Agent, messages: seq<Message>, round: nat): Progress {
    var m := ReplyAt(a, messages, round);
    Progress(Answering(a, messages + [m], m.calls, |m.calls|), m.calls == [])
  }

  function After(a: Agent, start: seq<Message>, n: nat): Progress
    decreases n
  {
    if n == 0 then Progress(start, false)
    else
      var before := After(a, start, n - 1);
      if before.done then before else Round(a, before.messages, n - 1)
  }

  /** The model's inputs in the first `n` rounds. */
  function Inputs(a: Agent, start: seq<Message>, n: nat): seq<seq<Message>>
    decreases n
  {
    if n == 0 then []
    else
      var before := After(a, start, n - 1);
      Inputs(a, start, n - 1) + (if before.done then [] else [Input(a, before.messages)])
  }

  /** The messages `invoke` returns. */
  function Invoked(a: Agent, start: seq<Message>): seq<Message> {
    var end := After(a, start, a.maxRounds);
    if end.done then end.messages else end.messages + [APOLOGY]
  }

  /** `payload.get("messages", [])`, an absent or unsuitable entry counting as no messages. */
  function Payload(messages: Option<seq<Message>>): seq<Message> {
    messages.GetOr([])
  }

  method Invoke(a: Agent, payload: Option<seq<Message>>)
    returns (messages: seq<Message>, ghost inputs: seq<seq<Message>>)
    ensures messages == Invoked(a, Payload(payload))
    ensures inputs == Inputs(a, Payload(payload), a.maxRounds)
  {
    hide Answer, Answers;
    var results := if payload.Some? then payload.value else [];
    var forModel := [System(a.prompt)] + results;
    inputs := [];
    ghost var start := results;
    for round := 0 to a.maxRounds
      invariant After(a, start, round) == Progress(results, false)
      invariant forModel == Input(a, results)
      invariant inputs == Inputs(a, start, round)
    {
      var reply := a.model(round, forModel);
      inputs := inputs + [forModel];
      var response := AsAssistant(reply);
      ghost var before := results;
      results := results + [response];
      forModel := forModel + [response];
      if response.calls == [] {
        DoneStaysDone(a, start, round + 1, a.maxRounds);
        return results, inputs;
      }
      for i := 0 to |response.calls|
        invariant results == Answering(a, before + [response], response.calls, i)
        invariant forModel == Input(a, results)
      {
        var answer := Answer(a, response.calls[i], |results|);
        results := results + [answer];
        forModel := forModel + [answer];
      }
    }
    messages := results + [APOLOGY];
  }

  lemma {:induction false} DoneStaysDone(a: Agent, start: seq<Message>, m: nat, n: nat)
    requires m <= n && After(a, start, m).done
    ensures After(a, start, n) == After(a, start, m)
    ensures Inputs(a, start, n) == Inputs(a, start, m)
    decreases n
  {
    hide Round, Input;
    if m < n {
      DoneStaysDone(a, start, m, n - 1);
    }
  }

  // ---- The transcript ---------------------------------------------------------------

  /**
    The messages from `from` on answer the calls one by one, in order.  Here and below `base` is
    the position in the transcript of the first message of `s`.
   */
  ghost predicate AnswersFrom(a: Agent, s: seq<Message>, from: nat, calls: seq<ToolCall>, base: nat) {
    from + |calls| <= |s| && forall i :: 0 <= i < |calls| ==> Answers(a, s[from + i], calls[i], base + from + i)
  }

  /** The calls of the first message are answered by the messages right after it. */
  ghost predicate Answered(a: Agent, s: seq<Message>, base: nat)
    requires s != [] && s[0].Assistant?
  {
    AnswersFrom(a, s, 1, s[0].calls, base)
  }

  /**
    Blocks of one assistant message with calls and exactly one tool message for each of them,
    ended by one assistant message without calls.
   */
  ghost predicate Complete(a: Agent, s: seq<Message>, base: nat)
    decreases |s|
  {
    && s != [] && s[0].Assistant? && Answered(a, s, base)
    && var k := |s[0].calls| + 1;
    if k == 1 then |s| == 1 else Complete(a, s[k..], base + k)
  }

  /** Such blocks without the end. */
  ghost predicate Open(a: Agent, s: seq<Message>, base: nat)
    decreases |s|
  {
    s == [] || (s[0].Assistant? && s[0].calls != [] && Answered(a, s, base)
                && Open(a, s[|s[0].calls| + 1..], base + |s[0].calls| + 1))
  }

  function AssistantCount(s: seq<Message>): nat {
    if s == [] then 0 else AssistantCount(s[..|s| - 1]) + (if s[|s| - 1].Assistant? then 1 else 0)
  }

  lemma MoreAfterAnswers(a: Agent, s: seq<Message>, t: seq<Message>, base: nat)
    requires s != [] && s[0].Assistant? && Answered(a, s, base)
    ensures |s[0].calls| + 1 <= |s|
    ensures (s + t)[0] == s[0] && Answered(a, s + t, base)
    ensures (s + t)[|s[0].calls| + 1..] == s[|s[0].calls| + 1..] + t
  {
    hide Answers;
    var calls := s[0].calls;
    forall i | 0 <= i < |calls| ensures Answers(a, (s + t)[1 + i], calls[i], base + 1 + i) {
      assert (s + t)[1 + i] == s[1 + i];
    }
  }

  lemma {:induction false} OpenThenComplete(a: Agent, s: seq<Message>, t: seq<Message>, base: nat)
    requires Open(a, s, base)
    ensures Complete(a, t, base + |s|) ==> Complete(a, s + t, base)
    ensures Open(a, t, base + |s|) ==> Open(a, s + t, base)
    decreases |s|
  {
    hide Answered;
    if s == [] {
      assert s + t == t;
    } else {
      MoreAfterAnswers(a, s, t, base);
      var k := |s[0].calls| + 1;
      assert base + k + |s[k..]| == base + |s|;
      assert k > 1 && (s + t)[k..] == s[k..] + t;
      OpenThenComplete(a, s[k..], t, base + k);
    }
  }

  lemma {:induction false} AnsweringFacts(a: Agent, messages: seq<Message>, calls: seq<ToolCall>, n: nat)
    requires n <= |calls|
    ensures var r := Answering(a, messages, calls, n);
            && |r| == |messages| + n && messages <= r
            && AnswersFrom(a, r, |messages|, calls[..n], 0)
    decreases n
  {
    if n > 0 {
      AnsweringFacts(a, messages, calls, n - 1);
      var before := Answering(a, messages, calls, n - 1);
      hide Answer, Answers, Answering;
      OneMoreAnswer(a, before, Answer(a, calls[n - 1], |before|), |messages|, calls, n);
    }
  }

  lemma OneMoreAnswer(a: Agent, before: seq<Message>, m: Message, from: nat, calls: seq<ToolCall>, n: nat)
    requires 0 < n <= |calls| && |before| == from + n - 1
    requires AnswersFrom(a, before, from, calls[..n - 1], 0) && Answers(a, m, calls[n - 1], |before|)
    ensures AnswersFrom(a, before + [m], from, calls[..n], 0)
  {
    hide Answers;
    forall i | 0 <= i < n ensures Answers(a, (before + [m])[from + i], calls[..n][i], from + i) {
      if i < n - 1 {
        assert Answers(a, before[from + i], calls[..n - 1][i], from + i);
      }
    }
  }

  lemma {:induction false} AnsweringCount(a: Agent, messages: seq<Message>, calls: seq<ToolCall>, n: nat)
    requires n <= |calls|
    ensures AssistantCount(Answering(a, messages, calls, n)) == AssistantCount(messages)
    decreases n
  {
    hide Answer, Answers, AssistantCount;
    if n > 0 {
      AnsweringCount(a, messages, calls, n - 1);
      var before := Answering(a, messages, calls, n - 1);
      AssistantCountSnoc(before, Answer(a, calls[n - 1], |before|));
      AnswerIsNoModelMessage(a, calls[n - 1], |before|);
    }
  }

  lemma AnswerIsNoModelMessage(a: Agent, call: ToolCall, at: nat)
    ensures !Answer(a, call, at).Assistant?
  {
  }

  lemma AssistantCountSnoc(s: seq<Message>, m: Message)
    ensures AssistantCount(s + [m]) == AssistantCount(s) + (if m.Assistant? then 1 else 0)
  {
    assert (s + [m])[..|s|] == s;
  }

  /** A round adds one block, whole; the loop is done exactly when that block has no calls. */
  lemma RoundAddsBlock(a: Agent, messages: seq<Message>, round: nat)
    ensures var r := Round(a, messages, round);
            && messages < r.messages
            && r.messages[|messages|] == ReplyAt(a, messages, round)
            && (r.done ==> Complete(a, r.messages[|messages|..], |messages|))
            && (!r.done ==> Open(a, r.messages[|messages|..], |messages|))
            && AssistantCount(r.messages) == AssistantCount(messages) + 1
  {
    hide Answers, ReplyAt, AssistantCount;
    var m := ReplyAt(a, messages, round);
    var calls := m.calls;
    var first := messages + [m];
    AssistantCountSnoc(messages, m);
    AnsweringFacts(a, first, calls, |calls|);
    AnsweringCount(a, first, calls, |calls|);
    assert calls[..|calls|] == calls;
    var r := Round(a, messages, round).messages;
    assert first[|messages|] == m && r[|messages|] == m;
    BlockIsWhole(a, r[|messages|..], r, |messages|, calls);
  }

  lemma BlockIsWhole(a: Agent, b: seq<Message>, r: seq<Message>, k: nat, calls: seq<ToolCall>)
    requires k < |r| && b == r[k..] && b[0].Assistant? && b[0].calls == calls && |r| == k + 1 + |calls|
    requires AnswersFrom(a, r, k + 1, calls, 0)
    ensures if calls == [] then Complete(a, b, k) else Open(a, b, k)
  {
    hide Answers;
    forall i | 0 <= i < |calls| ensures Answers(a, b[1 + i], calls[i], k + 1 + i) {
      assert b[1 + i] == r[k + 1 + i];
    }
    assert b[|calls| + 1..] == [];
  }

  lemma BeforeAnyRound(a: Agent, start: seq<Message>)
    ensures After(a, start, 0) == Progress(start, false) && Inputs(a, start, 0) == []
    ensures start[|start|..] == [] && Open(a, [], |start|)
  {
  }

  /** A round changes nothing once the loop is done. */
  lemma NextRound(a: Agent, start: seq<Message>, n: nat)
    ensures var before, r := After(a, start, n), After(a, start, n + 1);
            if before.done then r == before && Inputs(a, start, n + 1) == Inputs(a, start, n)
            else r == Round(a, before.messages, n)
                 && Inputs(a, start, n + 1) == Inputs(a, start, n) + [Input(a, before.messages)]
  {
    hide Round, Input;
  }

  lemma BlockJoins(a: Agent, start: seq<Message>, u: seq<Message>, v: seq<Message>)
    requires start <= u <= v && Open(a, u[|start|..], |start|)
    ensures Complete(a, v[|u|..], |u|) ==> Complete(a, v[|start|..], |start|)
    ensures Open(a, v[|u|..], |u|) ==> Open(a, v[|start|..], |start|)
  {
    hide Complete, Open;
    assert v[|start|..] == u[|start|..] + v[|u|..];
    OpenThenComplete(a, u[|start|..], v[|u|..], |start|);
  }

  /** What the caller gave stays in front; what was added is whole blocks, one for each model call. */
  lemma {:induction false} AfterIsBlocks(a: Agent, start: seq<Message>, n: nat)
    ensures var r := After(a, start, n);
            && start <= r.messages
            && (r.done ==> Complete(a, r.messages[|start|..], |start|))
            && (!r.done ==> Open(a, r.messages[|start|..], |start|))
            && AssistantCount(r.messages) == AssistantCount(start) + |Inputs(a, start, n)|
    ensures |Inputs(a, start, n)| <= n
    ensures !After(a, start, n).done ==> |Inputs(a, start, n)| == n
    decreases n
  {
    hide Round, AssistantCount, Complete, Open, After, Inputs;
    if n == 0 {
      BeforeAnyRound(a, start);
    } else {
      AfterIsBlocks(a, start, n - 1);
      NextRound(a, start, n - 1);
      var before := After(a, start, n - 1);
      if !before.done {
        RoundAddsBlock(a, before.messages, n - 1);
        BlockJoins(a, start, before.messages, After(a, start, n).messages);
      }
    }
  }

  lemma ApologyIsComplete(a: Agent, at: nat)
    ensures Complete(a, [APOLOGY], at)
  {
  }

  /**
    For every model and any tools, `invoke` returns the caller's messages followed by a
    complete transcript: every tool call is answered by exactly one tool message with its id and
    its tool's text (or its failure), in order, before the next model message, and the last message is an assistant message that calls
    nothing.  The model is called at most `maxRounds` times, once for each assistant message
    added, not counting the apology that ends an exhausted loop.
   */
  lemma TranscriptIsComplete(a: Agent, start: seq<Message>)
    ensures start <= Invoked(a, start) && Complete(a, Invoked(a, start)[|start|..], |start|)
    ensures |Inputs(a, start, a.maxRounds)| <= a.maxRounds
    ensures After(a, start, a.maxRounds).done
            || (&& Invoked(a, start)[|Invoked(a, start)| - 1] == APOLOGY
                && |Inputs(a, start, a.maxRounds)| == a.maxRounds)
    ensures AssistantCount(Invoked(a, start)) ==
              AssistantCount(start) + |Inputs(a, start, a.maxRounds)| + (if After(a, start, a.maxRounds).done then 0 else 1)
  {
    hide AssistantCount, Complete, Open, After;
    AfterIsBlocks(a, start, a.maxRounds);
    var r := After(a, start, a.maxRounds);
    if !r.done {
      ApologyIsComplete(a, |r.messages|);
      OpenThenComplete(a, r.messages[|start|..], [APOLOGY], |start|);
      AssistantCountSnoc(r.messages, APOLOGY);
      assert (r.messages + [APOLOGY])[|start|..] == r.messages[|start|..] + [APOLOGY];
    }
  }

  lemma {:induction false} AfterGrows(a: Agent, start: seq<Message>, m: nat, n: nat)
    requires m <= n
    ensures After(a, start, m).messages <= After(a, start, n).messages
    ensures Inputs(a, start, m) <= Inputs(a, start, n)
    decreases n
  {
    hide Round, After, Inputs, Complete, Open, AssistantCount;
    if m < n {
      AfterGrows(a, start, m, n - 1);
      NextRound(a, start, n - 1);
      RoundAddsBlock(a, After(a, start, n - 1).messages, n - 1);
    }
  }

  /**
    The input of the `i`-th model call is the system prompt followed by the transcript so far,
    and its answer is the next message of the transcript: an assistant message as it is, with all
    its calls, and anything else as a text that calls nothing.
   */
  lemma InputsAreTheTranscriptSoFar(a: Agent, start: seq<Message>, i: nat)
    requires i < |Inputs(a, start, a.maxRounds)|
    ensures var soFar := After(a, start, i).messages;
            && Inputs(a, start, a.maxRounds)[i] == [System(a.prompt)] + soFar
            && start <= soFar < Invoked(a, start)
            && match a.model(i, Inputs(a, start, a.maxRounds)[i])
               case Reply(content, calls) => Invoked(a, start)[|soFar|] == Assistant(content, calls)
               case Other(text) => Invoked(a, start)[|soFar|] == Assistant(text, [])
  {
    hide Round, Complete, Open, AssistantCount;
    AfterIsBlocks(a, start, a.maxRounds);
    AfterIsBlocks(a, start, i);
    if After(a, start, i).done {
      DoneStaysDone(a, start, i, a.maxRounds);
    } else {
      RoundAddsBlock(a, After(a, start, i).messages, i);
      AfterGrows(a, start, i + 1, a.maxRounds);
      assert Inputs(a, start, i + 1)[i] == Input(a, After(a, start, i).messages);
    }
  }
}
