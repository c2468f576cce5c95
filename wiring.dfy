/** The graph built from the three nodes: START -> call_model; call_model
    -> tools or END as the router decides; tools -> call_model. The graph
    runtime appends whatever a node returns to the history. A run is bounded
    by a fuel count, since the graph itself sets no limit on rounds. */
module Wiring {
  import opened Messages
  import opened Graph

  datatype Node = CallModelNode | ToolsNode | EndNode

  /** Everything outside the graph: the chat models, the calendar tools,
      and the clock, which gives the formatted time for the n-th model
      invocation. */
  datatype Oracles = Oracles(model: Model, run: ToolRunner, clock: nat -> string)

  /** A point of a run: the node about to execute, the history, and how many
      times the model node has run. */
  datatype Snapshot = Snapshot(node: Node, messages: seq<Message>, modelCalls: nat)

  /** The entry point: the user's input becomes a single human message and
      control starts at the model node. */
  function Start(userInput: string): (s: Snapshot)
    ensures s.node == CallModelNode && s.modelCalls == 0
    ensures |s.messages| == 1 && s.messages[0].Human? && s.messages[0].content == Text(userInput)
  {
    Snapshot(CallModelNode, [Human(Text(userInput))], 0)
  }

  /** One transition of the graph. */
  function Step(o: Oracles, s: Snapshot): (r: Snapshot)
    ensures s.node == EndNode ==> r == s
    ensures s.node == ToolsNode ==>
              r.node == CallModelNode && r.messages == s.messages + Dispatch(s.messages, o.run)
    ensures s.node == CallModelNode ==>
              |r.messages| == |s.messages| + 1 && r.modelCalls == s.modelCalls + 1
              && (forall i :: 0 <= i < |s.messages| - 1 ==> r.messages[i] == s.messages[i])
              && (r.node == ToolsNode <==> ToolCallsOf(r.messages[|s.messages|]) != [])
              && r.node != CallModelNode
  {
    match s.node
    case EndNode => s
    case ToolsNode =>
      Snapshot(CallModelNode, s.messages + Dispatch(s.messages, o.run), s.modelCalls)
    case CallModelNode =>
      ConditionalEdge(ModelStep(s.messages, o.clock(s.modelCalls), o.model), s.modelCalls + 1)
  }

  /** The edge out of the model node: the node's reply is appended and the
      router picks the tool node or END. */
  function ConditionalEdge(out: ModelOutcome, modelCalls: nat): (r: Snapshot)
    ensures r.messages == out.history + [out.reply] && r.modelCalls == modelCalls
    ensures r.node == ToolsNode <==> ToolCallsOf(out.reply) != []
    ensures r.node != CallModelNode
  {
    var h := out.history + [out.reply];
    Snapshot(if ShouldContinue(h) == ToTools then ToolsNode else EndNode, h, modelCalls)
  }

  /** At most `fuel` transitions, stopping at END. Along a run the history
      never shrinks, a tool result stays where it is, and a run stuck
      between the two nodes (see `Stuck`) never reaches END. */
  function Run(o: Oracles, fuel: nat, s: Snapshot): (r: Snapshot)
    decreases fuel
    ensures |r.messages| >= |s.messages|
    ensures forall k :: 0 <= k < |s.messages| && s.messages[k].Tool? ==> r.messages[k] == s.messages[k]
    ensures AsksOnlyUnknownTools(o.model) && Stuck(s) ==> r.node != EndNode
  {
    if fuel == 0 || s.node == EndNode then s
    else
      StepKeepsToolResults(o, s);
      StuckStep(o, s);
      Run(o, fuel - 1, Step(o, s))
  }

  /** The text of the user's message once the model node has stamped it. */
  function StampedInput(userInput: string, now: string): string
  {
    TimePrompt(now) + "\n\n" + userInput
  }

  /** The model node's transition: the node's history and its one reply,
      then the router's choice. */
  lemma ModelTransition(o: Oracles, s: Snapshot)
    requires s.node == CallModelNode
    ensures Step(o, s).messages
            == ModelStep(s.messages, o.clock(s.modelCalls), o.model).history
               + [ModelStep(s.messages, o.clock(s.modelCalls), o.model).reply]
    ensures Step(o, s).node
            == if ToolCallsOf(ModelStep(s.messages, o.clock(s.modelCalls), o.model).reply) != []
               then ToolsNode else EndNode
    ensures Step(o, s).modelCalls == s.modelCalls + 1
  {
  }

  /** The first model step from the entry point stamps the user's message
      and appends the tool-bound model's reply. */
  lemma FirstRound(o: Oracles, userInput: string)
    ensures Step(o, Start(userInput)).messages
            == [Human(Text(StampedInput(userInput, o.clock(0)))),
                Deliver(o.model.withTools([Human(Text(StampedInput(userInput, o.clock(0))))]))]
    ensures Step(o, Start(userInput)).modelCalls == 1
    ensures Step(o, Start(userInput)).node
            == if ToolCallsOf(Deliver(o.model.withTools([Human(Text(StampedInput(userInput, o.clock(0))))]))) != []
               then ToolsNode else EndNode
  {
    var h := [Human(Text(userInput))];
    var human := Human(Text(StampedInput(userInput, o.clock(0))));
    ToolBranch(h, o.clock(0), o.model);
    assert StampLast(h, o.clock(0)) == [human];
    ModelTransition(o, Start(userInput));
  }

  /** From the entry point the history is never empty, so a tool node never
      produces the synthetic dispatch failure. */
  lemma NoDispatchFailureFromStart(o: Oracles, fuel: nat, userInput: string)
    ensures Run(o, fuel, Start(userInput)).messages != []
    ensures Dispatch(Run(o, fuel, Start(userInput)).messages, o.run) != [DispatchFailure()]
  {
    var h := Run(o, fuel, Start(userInput)).messages;
    DispatchAnswersPendingCalls(h, o.run);
    var d := Dispatch(h, o.run);
    assert d == [] || d[0].callId != DispatchFailure().callId;
  }

  /** One transition keeps a tool result where it is. */
  lemma ToolResultKept(o: Oracles, s: Snapshot, k: nat)
    requires k < |s.messages| && s.messages[k].Tool?
    ensures k < |Step(o, s).messages| && Step(o, s).messages[k] == s.messages[k]
  {
    if s.node == CallModelNode {
      var h := s.messages;
      assert IsTool(h[k]);
      var last := FindLast(h, IsTool);
      assert last.Some?;
      SynthesisBranch(h, o.clock(s.modelCalls), o.model, last.value);
      ModelTransition(o, s);
      assert Step(o, s).messages == h + [ModelStep(h, o.clock(s.modelCalls), o.model).reply];
    }
  }

  /** One transition keeps every tool result where it is. */
  lemma StepKeepsToolResults(o: Oracles, s: Snapshot)
    ensures forall k :: 0 <= k < |s.messages| && s.messages[k].Tool?
                        ==> k < |Step(o, s).messages| && Step(o, s).messages[k] == s.messages[k]
  {
    forall k | 0 <= k < |s.messages| && s.messages[k].Tool?
      ensures k < |Step(o, s).messages| && Step(o, s).messages[k] == s.messages[k]
    {
      ToolResultKept(o, s, k);
    }
  }

  /** A failed model invocation ends the run: the node returns the fixed
      apology, which has no tool calls. Only the one invocation the model
      node makes needs to raise: the plain model on the synthesis prompt
      when there is a tool result, the tool-bound model on the stamped
      history otherwise. */
  lemma ModelFailureEnds(o: Oracles, s: Snapshot)
    requires s.node == CallModelNode
    requires FindLast(s.messages, IsTool).Some? ==>
               o.model.llm(SynthesisPrompt(s.messages[FindLast(s.messages, IsTool).value],
                                           LatestOf(s.messages, IsHuman), o.model.show)).Raised?
    requires FindLast(s.messages, IsTool).None? ==>
               o.model.withTools(StampLast(s.messages, o.clock(s.modelCalls))).Raised?
    ensures Step(o, s).node == EndNode
    ensures Step(o, s).messages[|s.messages|] == Apology()
  {
    FailedInvocationApologizes(s.messages, o.clock(s.modelCalls), o.model);
    ModelTransition(o, s);
  }

  /** A first reply without tool calls ends the run after one round: the
      history is then the stamped user message and the reply. */
  lemma PlainReplyEndsAfterOneRound(o: Oracles, userInput: string, reply: Message, fuel: nat)
    requires fuel >= 1
    requires Deliver(o.model.withTools([Human(Text(StampedInput(userInput, o.clock(0))))])) == reply
    requires ToolCallsOf(reply) == []
    ensures Run(o, fuel, Start(userInput))
            == Snapshot(EndNode, [Human(Text(StampedInput(userInput, o.clock(0)))), reply], 1)
  {
    FirstRound(o, userInput);
    var s1 := Step(o, Start(userInput));
    assert Run(o, fuel, Start(userInput)) == Run(o, fuel - 1, s1);
  }

  /** When the tool-bound model is down, the run ends after one round with
      the stamped user message and the apology: the prepend survives the
      failure. */
  lemma ModelDownEndsWithApology(o: Oracles, userInput: string, fuel: nat)
    requires fuel >= 1
    requires o.model.withTools([Human(Text(StampedInput(userInput, o.clock(0))))]).Raised?
    ensures Run(o, fuel, Start(userInput))
            == Snapshot(EndNode, [Human(Text(StampedInput(userInput, o.clock(0)))), Apology()], 1)
  {
    PlainReplyEndsAfterOneRound(o, userInput, Apology(), fuel);
  }

  /** The tool node answers a pending `list_events_tool` call with the
      tool's output, carrying the call's id, and returns to the model node. */
  lemma ListEventsDispatched(o: Oracles, human: Message, content: Content, call: ToolCall,
                             events: string, n: nat)
    requires call.name == "list_events_tool"
    requires o.run(ListEvents, call.args) == Ok(events)
    ensures Step(o, Snapshot(ToolsNode, [human, AI(content, [call])], n))
            == Snapshot(CallModelNode,
                        [human, AI(content, [call]), Tool(Text(events), "list_events_tool", Some(call.id))], n)
  {
    ToolMapInverse();
    assert ToolName(ListEvents) == "list_events_tool";
    assert KnownCalls([call]) == [call];
    assert DispatchCalls([call], o.run) == [ResultFor(call, o.run)];
  }

  /** After a tool result the model node takes the final-synthesis branch,
      prompting the plain model with that result and the user's message. */
  lemma SynthesisRound(o: Oracles, human: Message, request: Message, toolResult: Message,
                       final: Message, n: nat)
    requires human.Human? && request.AI? && toolResult.Tool?
    requires o.model.llm(SynthesisPrompt(toolResult, Some(human), o.model.show)) == Answer(final)
    requires ToolCallsOf(final) == []
    ensures Step(o, Snapshot(CallModelNode, [human, request, toolResult], n))
            == Snapshot(EndNode, [human, request, toolResult, final], n + 1)
  {
    var s := Snapshot(CallModelNode, [human, request, toolResult], n);
    SynthesisBranch(s.messages, o.clock(n), o.model, 2);
    assert IsHuman(s.messages[0]);
    assert FindLast(s.messages, IsHuman) == Some(0);
    ModelTransition(o, s);
  }

  /** One round trip through a registered tool: the model asks for
      `list_events_tool`, the tool answers, the plain model turns the tool
      result and the user's message into a final reply, and the run ends
      with four messages. */
  lemma ListEventsRoundTrip(o: Oracles, userInput: string, content: Content, call: ToolCall,
                            events: string, final: Message)
    requires call.name == "list_events_tool"
    requires o.model.withTools([Human(Text(StampedInput(userInput, o.clock(0))))])
             == Answer(AI(content, [call]))
    requires o.run(ListEvents, call.args) == Ok(events)
    requires o.model.llm(SynthesisPrompt(Tool(Text(events), "list_events_tool", Some(call.id)),
                                         Some(Human(Text(StampedInput(userInput, o.clock(0))))),
                                         o.model.show))
             == Answer(final)
    requires ToolCallsOf(final) == []
    ensures Run(o, 3, Start(userInput)).node == EndNode
    ensures Run(o, 3, Start(userInput)).messages
            == [Human(Text(StampedInput(userInput, o.clock(0)))), AI(content, [call]),
                Tool(Text(events), "list_events_tool", Some(call.id)), final]
  {
    var human := Human(Text(StampedInput(userInput, o.clock(0))));
    var request := AI(content, [call]);
    var toolResult := Tool(Text(events), "list_events_tool", Some(call.id));
    // START -> call_model: the model asks for the tool.
    FirstRound(o, userInput);
    var s1 := Snapshot(ToolsNode, [human, request], 1);
    assert Step(o, Start(userInput)) == s1;
    // tools -> call_model: the one registered call is answered.
    ListEventsDispatched(o, human, content, call, events, 1);
    var s2 := Snapshot(CallModelNode, [human, request, toolResult], 1);
    // call_model -> END: the final synthesis.
    SynthesisRound(o, human, request, toolResult, final, 1);
    var s3 := Snapshot(EndNode, [human, request, toolResult, final], 2);
    assert Run(o, 3, Start(userInput)) == Run(o, 2, s1);
    assert Run(o, 2, s1) == Run(o, 1, s2);
    assert Run(o, 1, s2) == s3;
  }

  /** The model keeps asking only for tools that are not registered. */
  ghost predicate AsksOnlyUnknownTools(model: Model)
  {
    forall h :: model.withTools(h).Answer? && ToolCallsOf(model.withTools(h).message) != []
                && forall c :: c in ToolCallsOf(model.withTools(h).message) ==> c.name !in TOOL_MAP
  }

  /** The state of a run that is stuck between the two nodes: no tool result
      has ever been produced, and a pending tool node has only unknown
      calls to look at. */
  ghost predicate Stuck(s: Snapshot)
  {
    s.node != EndNode && s.messages != []
    && (forall i :: 0 <= i < |s.messages| ==> !s.messages[i].Tool?)
    && (s.node == ToolsNode ==>
          forall c :: c in ToolCallsOf(s.messages[|s.messages| - 1]) ==> c.name !in TOOL_MAP)
  }

  /** A tool node whose pending calls are all unregistered appends nothing. */
  lemma StuckToolsStep(o: Oracles, s: Snapshot)
    requires Stuck(s) && s.node == ToolsNode
    ensures Step(o, s) == Snapshot(CallModelNode, s.messages, s.modelCalls)
  {
    var calls := ToolCallsOf(s.messages[|s.messages| - 1]);
    NoKnownCalls(calls);
    assert |Dispatch(s.messages, o.run)| == 0;
    assert s.messages + Dispatch(s.messages, o.run) == s.messages;
  }

  /** A model node under such a model stamps the history, appends a request
      for unregistered tools, and routes to the tool node. */
  lemma StuckModelStep(o: Oracles, s: Snapshot)
    requires AsksOnlyUnknownTools(o.model) && Stuck(s) && s.node == CallModelNode
    ensures Stuck(Step(o, s))
  {
    var h := s.messages;
    var now := o.clock(s.modelCalls);
    var stamped := StampLast(h, now);
    ToolBranch(h, now, o.model);
    ModelTransition(o, s);
    assert o.model.withTools(stamped).Answer?;
    var reply := o.model.withTools(stamped).message;
    assert ModelStep(h, now, o.model).reply == reply;
    var t := Step(o, s);
    assert t.messages == stamped + [reply];
    assert t.node == ToolsNode;
    forall i | 0 <= i < |t.messages|
      ensures !t.messages[i].Tool?
    {
      if i < |h| - 1 {
        assert t.messages[i] == h[i];
      } else if i == |h| - 1 {
        assert t.messages[i] == Stamp(h[i], now);
      } else {
        assert t.messages[i] == reply;
      }
    }
  }

  /** Unknown tool names are dropped without a result, so one transition
      of a stuck run, under a model that keeps asking for them, is stuck
      again. */
  lemma StuckStep(o: Oracles, s: Snapshot)
    ensures AsksOnlyUnknownTools(o.model) && Stuck(s) ==> Stuck(Step(o, s))
  {
    if AsksOnlyUnknownTools(o.model) && Stuck(s) {
      if s.node == ToolsNode {
        StuckToolsStep(o, s);
      } else {
        StuckModelStep(o, s);
      }
    }
  }

  /** From the entry point, such a model never lets the run end: the edges
      of the graph impose no round limit. (The runtime's own step limit on
      `graph.invoke` is not part of this model.) */
  lemma UnknownToolsLoopFromStart(o: Oracles, userInput: string, fuel: nat)
    requires AsksOnlyUnknownTools(o.model)
    ensures Run(o, fuel, Start(userInput)).node != EndNode
  {
    assert Stuck(Start(userInput));
  }
}
