/** The three node functions of the calendar agent's conversation graph:
    the router (`should_continue`), the model node (`call_model`) and the
    tool node (`tool_dispatch_node`). The chat models, the calendar tools and
    Python's rendering of a message inside an f-string are parameters. */
module Graph {
  import opened Messages

  // ---------------------------------------------------------------------
  // Routing (should_continue)
  // ---------------------------------------------------------------------

  datatype Route = ToTools | ToEnd

  /** The router: the tool node when the last message carries a non-empty
      `tool_calls`, END otherwise. An empty history makes `messages[-1]`
      raise inside the `try`, and the handler routes to END. */
  function ShouldContinue(h: seq<Message>): (r: Route)
    ensures h == [] ==> r == ToEnd
    ensures h != [] ==> (r == ToTools <==> ToolCallsOf(h[|h| - 1]) != [])
  {
    if h == [] then ToEnd
    else if h[|h| - 1].AI? && h[|h| - 1].toolCalls != [] then ToTools
    else ToEnd
  }

  // ---------------------------------------------------------------------
  // Tool dispatch (tool_dispatch_node)
  // ---------------------------------------------------------------------

  /** The four calendar operations of the tool registry. */
  datatype ToolKind = CreateEvent | ListEvents | PostponeEvent | DeleteEvent

  /** The fixed name-to-tool registry `tool_map`. */
  const TOOL_MAP: map<string, ToolKind> := map[
    "create_event_tool" := CreateEvent,
    "list_events_tool" := ListEvents,
    "postpone_event_tool" := PostponeEvent,
    "delete_event_tool" := DeleteEvent
  ]

  /** The registry key of each operation. */
  function ToolName(k: ToolKind): string
  {
    match k
    case CreateEvent => "create_event_tool"
    case ListEvents => "list_events_tool"
    case PostponeEvent => "postpone_event_tool"
    case DeleteEvent => "delete_event_tool"
  }

  /** The registry is a one-to-one correspondence between its four names
      and the four operations: `ToolName` is its inverse. */
  lemma ToolMapInverse()
    ensures forall k: ToolKind :: ToolName(k) in TOOL_MAP && TOOL_MAP[ToolName(k)] == k
    ensures forall n :: n in TOOL_MAP ==> ToolName(TOOL_MAP[n]) == n
  {
  }

  /** What invoking a tool does: it returns content, or it raises. */
  datatype ToolOutcome = Ok(content: string) | Err(error: string)

  /** The calendar backend, seen through the tools: an oracle. */
  type ToolRunner = (ToolKind, Args) -> ToolOutcome

  const DISPATCH_ERROR_NAME := "tool_dispatch_node"
  const DISPATCH_ERROR_CONTENT := "An error occurred while dispatching tools."

  /** The content of the result message for a tool that raised. */
  function ToolErrorContent(name: string, error: string): string
  {
    "Error executing tool " + name + ": " + error
  }

  /** The single result message emitted for a call whose name is registered. */
  function ResultFor(call: ToolCall, run: ToolRunner): (m: Message)
    requires call.name in TOOL_MAP
    ensures m.Tool? && m.name == call.name && m.callId == Some(call.id)
    ensures run(TOOL_MAP[call.name], call.args).Ok? ==>
              m.content == Text(run(TOOL_MAP[call.name], call.args).content)
    ensures run(TOOL_MAP[call.name], call.args).Err? ==>
              m.content == Text(ToolErrorContent(call.name, run(TOOL_MAP[call.name], call.args).error))
  {
    match run(TOOL_MAP[call.name], call.args)
    case Ok(result) => Tool(Text(result), call.name, Some(call.id))
    case Err(e) => Tool(Text(ToolErrorContent(call.name, e)), call.name, Some(call.id))
  }

  /** The calls whose name is registered, in their original order. */
  function KnownCalls(calls: seq<ToolCall>): (ks: seq<ToolCall>)
    ensures |ks| <= |calls|
    ensures forall i :: 0 <= i < |ks| ==> ks[i].name in TOOL_MAP
  {
    if calls == [] then []
    else (if calls[0].name in TOOL_MAP then [calls[0]] else []) + KnownCalls(calls[1..])
  }

  /** A call is kept exactly when it is among the input calls and its name
      is registered. */
  lemma {:induction false} KnownCallsMembers(calls: seq<ToolCall>)
    ensures forall c :: c in KnownCalls(calls) <==> c in calls && c.name in TOOL_MAP
  {
    if calls != [] {
      KnownCallsMembers(calls[1..]);
      assert forall c :: c in calls <==> c == calls[0] || c in calls[1..];
    }
  }

  /** When no pending call has a registered name, nothing is kept. */
  lemma {:induction false} NoKnownCalls(calls: seq<ToolCall>)
    requires forall c :: c in calls ==> c.name !in TOOL_MAP
    ensures KnownCalls(calls) == []
  {
    if calls != [] {
      assert calls[0] in calls;
      NoKnownCalls(calls[1..]);
    }
  }

  /** The results of the dispatch loop over `calls`: the specification of
      ToolDispatchNode's `for` loop. One result per registered call, in
      order; unregistered names contribute nothing. */
  function DispatchCalls(calls: seq<ToolCall>, run: ToolRunner): (out: seq<Message>)
    ensures |out| == |KnownCalls(calls)|
    ensures forall i :: 0 <= i < |out| ==> out[i] == ResultFor(KnownCalls(calls)[i], run)
  {
    if calls == [] then []
    else
      var rest := DispatchCalls(calls[1..], run);
      if calls[0].name in TOOL_MAP then
        var out := [ResultFor(calls[0], run)] + rest;
        assert KnownCalls(calls) == [calls[0]] + KnownCalls(calls[1..]);
        out
      else
        assert KnownCalls(calls) == KnownCalls(calls[1..]);
        rest
  }

  /** The single synthetic result of a dispatch that itself raised. */
  function DispatchFailure(): (m: Message)
    ensures m.Tool? && m.callId == None && m.content == Text(DISPATCH_ERROR_CONTENT)
    ensures m.name == DISPATCH_ERROR_NAME && m.name !in TOOL_MAP
  {
    Tool(Text(DISPATCH_ERROR_CONTENT), DISPATCH_ERROR_NAME, None)
  }

  /** What the tool node returns for history `h`. The only way the outer
      `try` fails, in this model, is an empty history (`messages[-1]`):
      call ids are plain strings, so building a result message never
      raises. */
  function Dispatch(h: seq<Message>, run: ToolRunner): (out: seq<Message>)
    ensures h == [] ==> |out| == 1 && out[0].Tool? && out[0].callId == None
                        && out[0].name == DISPATCH_ERROR_NAME
                        && out[0].content == Text(DISPATCH_ERROR_CONTENT)
    ensures h != [] ==> |out| == |KnownCalls(ToolCallsOf(h[|h| - 1]))|
  {
    if h == [] then [DispatchFailure()]
    else DispatchCalls(ToolCallsOf(h[|h| - 1]), run)
  }

  /** `m` is the result for one of `calls` whose name is registered: it
      carries that call's name and id. */
  ghost predicate Answers(m: Message, calls: seq<ToolCall>)
  {
    m.Tool? && exists c :: c in calls && c.name in TOOL_MAP && m.name == c.name && m.callId == Some(c.id)
  }

  /** On a non-empty history every result answers a pending call with a
      registered name, so its call id is never null. */
  lemma DispatchAnswersPendingCalls(h: seq<Message>, run: ToolRunner)
    requires h != []
    ensures forall i :: 0 <= i < |Dispatch(h, run)| ==>
              Answers(Dispatch(h, run)[i], ToolCallsOf(h[|h| - 1])) && Dispatch(h, run)[i].callId != None
  {
    var calls := ToolCallsOf(h[|h| - 1]);
    var out := DispatchCalls(calls, run);
    assert Dispatch(h, run) == out;
    KnownCallsMembers(calls);
    forall i | 0 <= i < |out|
      ensures Answers(out[i], calls) && out[i].callId != None
    {
      var c := KnownCalls(calls)[i];
      assert c in KnownCalls(calls);
      assert out[i] == ResultFor(c, run);
    }
  }

  /** tool_dispatch_node: walks the pending calls of the last message and
      appends one result per registered call to `out`. */
  method ToolDispatchNode(h: seq<Message>, run: ToolRunner) returns (out: seq<Message>)
    ensures out == Dispatch(h, run)
  {
    if h == [] {
      return [DispatchFailure()];
    }
    var calls := ToolCallsOf(h[|h| - 1]);
    out := [];
    for i := 0 to |calls|
      invariant out + DispatchCalls(calls[i..], run) == DispatchCalls(calls, run)
    {
      DispatchCallsUnfold(calls, i, run);
      var call := calls[i];
      if call.name !in TOOL_MAP {
        continue;
      }
      var tool := TOOL_MAP[call.name];
      var result: Message;
      match run(tool, call.args) {
        case Ok(content) =>
          result := Tool(Text(content), call.name, Some(call.id));
        case Err(e) =>
          result := Tool(Text(ToolErrorContent(call.name, e)), call.name, Some(call.id));
      }
      assert result == ResultFor(call, run);
      assert (out + [result]) + DispatchCalls(calls[i + 1..], run)
             == out + ([result] + DispatchCalls(calls[i + 1..], run));
      out := out + [result];
    }
    assert calls[|calls|..] == [];
  }

  /** One iteration of the dispatch loop, from index `i` of `calls`. */
  lemma DispatchCallsUnfold(calls: seq<ToolCall>, i: nat, run: ToolRunner)
    requires i < |calls|
    ensures DispatchCalls(calls[i..], run)
            == (if calls[i].name in TOOL_MAP then [ResultFor(calls[i], run)] else [])
               + DispatchCalls(calls[i + 1..], run)
  {
    assert calls[i..][0] == calls[i];
    assert calls[i..][1..] == calls[i + 1..];
  }

  /** Dispatching a concatenation of call lists is the concatenation of the
      dispatches: the results keep the order of the calls. */
  lemma {:induction false} KnownCallsAppend(a: seq<ToolCall>, b: seq<ToolCall>)
    ensures KnownCalls(a + b) == KnownCalls(a) + KnownCalls(b)
  {
    if a == [] {
      assert a + b == b;
    } else {
      assert (a + b)[0] == a[0];
      assert (a + b)[1..] == a[1..] + b;
      KnownCallsAppend(a[1..], b);
    }
  }

  lemma DispatchCallsAppend(a: seq<ToolCall>, b: seq<ToolCall>, run: ToolRunner)
    ensures DispatchCalls(a + b, run) == DispatchCalls(a, run) + DispatchCalls(b, run)
  {
    KnownCallsAppend(a, b);
    var l, r := DispatchCalls(a + b, run), DispatchCalls(a, run) + DispatchCalls(b, run);
    assert |l| == |r|;
    forall i | 0 <= i < |l| ensures l[i] == r[i] {
      if i < |KnownCalls(a)| {
        assert KnownCalls(a + b)[i] == KnownCalls(a)[i];
      } else {
        assert KnownCalls(a + b)[i] == KnownCalls(b)[i - |KnownCalls(a)|];
      }
    }
  }

  /** A call with an unregistered name contributes nothing, wherever it is. */
  lemma UnknownCallDropped(a: seq<ToolCall>, c: ToolCall, b: seq<ToolCall>, run: ToolRunner)
    requires c.name !in TOOL_MAP
    ensures DispatchCalls(a + [c] + b, run) == DispatchCalls(a + b, run)
  {
    DispatchCallsAppend(a + [c], b, run);
    DispatchCallsAppend(a, [c], run);
    DispatchCallsAppend(a, b, run);
  }

  /** How many results come back depends only on the names of the calls,
      never on whether the tools succeed: a failure never shortens the output. */
  lemma ResultCountIgnoresFailures(calls: seq<ToolCall>, run1: ToolRunner, run2: ToolRunner)
    ensures |DispatchCalls(calls, run1)| == |DispatchCalls(calls, run2)|
  {
  }

  /** The router sends control to the tool node exactly when the dispatcher
      has pending calls to look at; when it routes to END, dispatching would
      produce nothing. */
  lemma RouteMatchesPendingCalls(h: seq<Message>, run: ToolRunner)
    requires h != []
    ensures ShouldContinue(h) == ToEnd ==> Dispatch(h, run) == []
    ensures Dispatch(h, run) != [] <==> exists c :: c in ToolCallsOf(h[|h| - 1]) && c.name in TOOL_MAP
  {
    KnownCallsMembers(ToolCallsOf(h[|h| - 1]));
    if Dispatch(h, run) != [] {
      assert KnownCalls(ToolCallsOf(h[|h| - 1]))[0] in KnownCalls(ToolCallsOf(h[|h| - 1]));
    }
  }

  // ---------------------------------------------------------------------
  // The model node (call_model)
  // ---------------------------------------------------------------------

  /** What invoking a chat model does: it answers with a message, or raises. */
  datatype Reply = Answer(message: Message) | Raised(error: string)

  /** The collaborators of the model node: the plain model (prompted with a
      string), the model bound to the calendar tools (prompted with the
      history), and the `str()` rendering of a message used in a prompt. */
  datatype Model = Model(llm: string -> Reply, withTools: seq<Message> -> Reply, show: Message -> string)

  const APOLOGY_CONTENT :=
    "Sorry, an error occurred while processing your request. Please try again later."

  /** The fixed assistant dictionary returned when the model node fails. */
  function Apology(): (m: Message)
    ensures m.AssistantDict? && m.role == "assistant" && m.text == APOLOGY_CONTENT
    ensures ToolCallsOf(m) == []
  {
    AssistantDict("assistant", APOLOGY_CONTENT)
  }

  /** The effect of the `try`/`except` around an invocation: the answer, or
      the apology. */
  function Deliver(r: Reply): (m: Message)
    ensures r.Raised? ==> m == Apology()
    ensures r.Answer? ==> m == r.message
  {
    match r
    case Answer(m) => m
    case Raised(_) => Apology()
  }

  /** The index of the latest message satisfying `p`: the backward search
      `next(msg for msg in reversed(messages) if …)`. */
  function FindLast(h: seq<Message>, p: Message -> bool): (r: Option<nat>)
    ensures r.None? <==> forall i :: 0 <= i < |h| ==> !p(h[i])
    ensures r.Some? ==> r.value < |h| && p(h[r.value])
                        && forall j :: r.value < j < |h| ==> !p(h[j])
  {
    if h == [] then None
    else if p(h[|h| - 1]) then Some(|h| - 1)
    else FindLast(h[..|h| - 1], p)
  }

  /** The latest message satisfying `p`, or None. */
  function LatestOf(h: seq<Message>, p: Message -> bool): (r: Option<Message>)
    ensures r.None? <==> forall i :: 0 <= i < |h| ==> !p(h[i])
    ensures r.Some? ==> exists i :: 0 <= i < |h| && h[i] == r.value && p(h[i])
                                    && forall j :: i < j < |h| ==> !p(h[j])
  {
    match FindLast(h, p)
    case None => None
    case Some(i) => Some(h[i])
  }

  /** The prompt of the final-synthesis branch. */
  function SynthesisPrompt(toolMessage: Message, human: Option<Message>, show: Message -> string): string
  {
    "Give final response based on this tool message: " + show(toolMessage) + ". "
    + "And also consider the user's original message: "
    + (match human case None => "None" case Some(m) => show(m)) + ". "
    + "This response created by you will be final and will be prompted to user."
  }

  /** The notice prepended before the model with tools is invoked; `now` is
      the formatted current time. */
  function TimePrompt(now: string): string
  {
    "The current date and time is " + now + ". "
    + "Please consider this information when generating your response."
  }

  /** The last message after the time notice is prepended: only a message
      that has a `content` attribute holding a `str` changes, and only its
      content. */
  function Stamp(m: Message, now: string): (r: Message)
    ensures r.Human? == m.Human? && r.AI? == m.AI? && r.Tool? == m.Tool?
    ensures ToolCallsOf(r) == ToolCallsOf(m)
    ensures r.Tool? ==> r.name == m.name && r.callId == m.callId
    ensures !m.AssistantDict? && m.content.Text? ==>
              r.content == Text(TimePrompt(now) + "\n\n" + m.content.text)
    ensures m.AssistantDict? || m.content.Blocks? ==> r == m
  {
    if !m.AssistantDict? && m.content.Text? then
      m.(content := Text(TimePrompt(now) + "\n\n" + m.content.text))
    else m
  }

  /** The history after the in-place prepend: all messages but the last are
      untouched. */
  function StampLast(h: seq<Message>, now: string): (r: seq<Message>)
    ensures |r| == |h|
    ensures forall i :: 0 <= i < |h| - 1 ==> r[i] == h[i]
    ensures h != [] ==> r[|h| - 1] == Stamp(h[|h| - 1], now)
  {
    if h == [] then [] else h[..|h| - 1] + [Stamp(h[|h| - 1], now)]
  }

  /** What the model node leaves behind: the (possibly mutated) history and
      the one message it returns. */
  datatype ModelOutcome = ModelOutcome(history: seq<Message>, reply: Message)

  /** The specification of the model node. */
  function ModelStep(h: seq<Message>, now: string, model: Model): (r: ModelOutcome)
    ensures |r.history| == |h|
    ensures forall i :: 0 <= i < |h| - 1 ==> r.history[i] == h[i]
  {
    match FindLast(h, IsTool)
    case Some(i) =>
      ModelOutcome(h, Deliver(model.llm(SynthesisPrompt(h[i], LatestOf(h, IsHuman), model.show))))
    case None =>
      var stamped := StampLast(h, now);
      ModelOutcome(stamped, Deliver(model.withTools(stamped)))
  }

  /** Synthesis branch: when a tool result exists anywhere in the history the
      history is left alone and the plain model is prompted with the latest
      tool result and the latest human message. */
  lemma SynthesisBranch(h: seq<Message>, now: string, model: Model, k: nat)
    requires k < |h| && h[k].Tool?
    requires forall j :: k < j < |h| ==> !h[j].Tool?
    ensures ModelStep(h, now, model).history == h
    ensures ModelStep(h, now, model).reply
            == Deliver(model.llm(SynthesisPrompt(h[k], LatestOf(h, IsHuman), model.show)))
  {
    assert IsTool(h[k]);
    var r := FindLast(h, IsTool);
    assert r.Some? && IsTool(h[r.value]);
  }

  /** Tool branch: with no tool result in the history only the last message
      is changed (stamped with the time), and the model with tools sees the
      stamped history. */
  lemma ToolBranch(h: seq<Message>, now: string, model: Model)
    requires forall i :: 0 <= i < |h| ==> !h[i].Tool?
    ensures ModelStep(h, now, model).history == StampLast(h, now)
    ensures ModelStep(h, now, model).reply == Deliver(model.withTools(StampLast(h, now)))
  {
    assert forall i :: 0 <= i < |h| ==> !IsTool(h[i]);
  }

  /** When the one invocation the model node makes raises, its reply is the
      apology, whichever branch it took. */
  lemma FailedInvocationApologizes(h: seq<Message>, now: string, model: Model)
    requires FindLast(h, IsTool).Some? ==>
               model.llm(SynthesisPrompt(h[FindLast(h, IsTool).value], LatestOf(h, IsHuman), model.show)).Raised?
    requires FindLast(h, IsTool).None? ==> model.withTools(StampLast(h, now)).Raised?
    ensures ModelStep(h, now, model).reply == Apology()
  {
    match FindLast(h, IsTool) {
      case Some(k) =>
        SynthesisBranch(h, now, model, k);
      case None =>
        ToolBranch(h, now, model);
    }
  }

  /** The apology carries no tool calls, so after a failed model call the
      router always ends the conversation. */
  lemma ApologyEndsConversation(h: seq<Message>)
    ensures ShouldContinue(h + [Apology()]) == ToEnd
  {
  }

  /** The model node as it runs against the graph state: it mutates the last
      message of the shared history in place before invoking the model. */
  class Conversation {
    var messages: seq<Message>

    constructor (initial: seq<Message>)
      ensures messages == initial
    {
      messages := initial;
    }

    /** call_model. The prepend happens before the invocation, so it stays
        in the history even when the invocation then raises. */
    method CallModel(now: string, model: Model) returns (reply: Message)
      modifies this
      ensures messages == ModelStep(old(messages), now, model).history
      ensures reply == ModelStep(old(messages), now, model).reply
    {
      ghost var h := messages;
      var latestTool := LatestOf(messages, IsTool);
      var latestHuman := LatestOf(messages, IsHuman);
      if latestTool.Some? {
        reply := Deliver(model.llm(SynthesisPrompt(latestTool.value, latestHuman, model.show)));
        return;
      }
      assert FindLast(h, IsTool).None?;
      if messages != [] {
        // `last_message.content = …`: only the last message's content is
        // rewritten, and only when it is a string (see Stamp).
        messages := messages[..|messages| - 1] + [Stamp(messages[|messages| - 1], now)];
      }
      assert messages == StampLast(h, now);
      reply := Deliver(model.withTools(messages));
    }
  }
}
