# Calendar agent conversation graph — a Dafny model

The calendar agent turns a user's request into calendar operations. A chat
model either answers in plain text or asks for one or more calendar tools
(create, list, postpone, delete events). The conversation runs as a
two-node graph:

- the model node (`call_model`) produces exactly one new message;
- the tool node (`tool_dispatch_node`) turns the pending tool calls of the
  last message into tool-result messages;
- the router (`should_continue`) picks the tool node or END after each
  model step. The tool node always leads back to the model node.

This project models those three functions and the wiring in
`src/graph.py`, and proves what they promise.

Layout:

- `messages.dfy` (module `Messages`): the message kinds the graph handles
  (human, AI with tool calls, tool result, and the bare assistant
  dictionary the model node returns on failure), tool calls, and string
  versus block content.
- `graph.dfy` (module `Graph`): the router, the tool registry and the
  dispatch loop (a `for` loop in `ToolDispatchNode`, specified by
  `DispatchCalls`), and the model node. The model node searches the
  history backwards, picks the final-synthesis branch or the tool branch,
  prepends the time notice to the last message, and falls back to the
  apology. `Conversation.CallModel` performs the time-notice prepend in
  place on the history field, the way the source mutates
  `last_message.content`. `ModelStep` is the function it is proved against.
- `wiring.dfy` (module `Wiring`): the edges START → model node, model node →
  {tools, END}, tools → model node as a step function. It adds a
  fuel-bounded `Run` and lemmas about whole runs: the end-to-end scenarios,
  tool results persisting, and a run that never ends when the model keeps
  asking for unregistered tools.

Collaborators the source calls but does not define are parameters:

- the plain chat model (`llm.invoke(prompt)`);
- the model bound to the tools (`model_with_tools.invoke(messages)`);
- each calendar tool (`tool_func.invoke(args)`), seen as an oracle that
  returns content or raises;
- Python's `str()` of a message inside the synthesis f-string;
- the formatted current time, one value per model invocation (`clock`).

An invocation that raises is `Reply.Raised` or `ToolOutcome.Err`.

Three behaviours of `src/graph.py` worth stating precisely:

- The synthesis branch is taken whenever a tool result exists ANYWHERE in
  the history, not only when it is the most recent message (graph.py:60,
  63).
- Tool calls with an unregistered name get no result at all (graph.py:121-123).
  Not every call is answered, and a model that keeps asking for unknown
  tools keeps the run going along the graph's edges (`Wiring.Run`,
  `Wiring.UnknownToolsLoopFromStart`).
- The time notice is prepended only when the last message has a string
  `content` (graph.py:85). The prepend happens before the model is
  invoked, so it stays in the history even when the invocation raises
  (`Wiring.ModelDownEndsWithApology`).

The entry point `Wiring.Start` is app.py's wrapping of the user input as a
single user message (app.py:19-20). The graph's reducer turns that message
into a human message.

## Model

| member | source | states |
|---|---|---|
| `Messages.ToolCallsOf` | src/graph.py:44 | `getattr(m, "tool_calls", …)`: an AI message yields its own tool calls, and only an AI message can yield a non-empty list (the same read at src/graph.py:106) |
| `Graph.ShouldContinue` | src/graph.py:40-51 | routes to the tool node exactly when the history is non-empty and its last message carries a non-empty `tool_calls`; an empty history, whose index error is caught, routes to END |
| `Graph.RouteMatchesPendingCalls` | src/graph.py:40-51 | on a non-empty history, when the router picks END, the tool node would produce nothing; the tool node produces something exactly when some pending call has a registered name |
| `Graph.ToolMapInverse` | src/graph.py:109-114 | the registry maps its four names one-to-one onto the four calendar operations: `ToolName` gives back the key of each operation, and each key is the name of its operation |
| `Graph.ToolErrorContent` | src/graph.py:133 | the content of a failed tool's result: `Error executing tool <name>: <error>` |
| `Graph.ResultFor` | src/graph.py:124-137 | the result for a registered call is a tool message with that call's name and `tool_call_id`, on success and on failure alike; its content is the tool's output, or `Error executing tool <name>: <error>` when the tool raised |
| `Graph.KnownCalls` | src/graph.py:116-123 | the calls kept by the `tool_map` lookup: never more than the input, each with a registered name |
| `Graph.KnownCallsAppend` | src/graph.py:116-123 | the lookup filter over two call lists joined is the two filtered lists joined, in order |
| `Graph.NoKnownCalls` | src/graph.py:120-123 | when no call has a registered name, no call is kept |
| `Graph.KnownCallsMembers` | src/graph.py:109-123 | a call is kept exactly when it is one of the input calls and its name is one of the four registry keys |
| `Graph.DispatchCalls` | src/graph.py:116-140 | the loop's output has one message per call with a registered name, and the i-th output is the result for the i-th such call |
| `Graph.DispatchFailure` | src/graph.py:144-148 | the synthetic result of a dispatch that raised: a tool message with the fixed content `An error occurred while dispatching tools.`, a null call id, and the name `tool_dispatch_node`, which is not a registered tool name |
| `Graph.Dispatch` | src/graph.py:102-149 | on an empty history (the outer `except`) the output is exactly one tool message named `tool_dispatch_node` with a null call id and the fixed dispatch-error content; otherwise there is one result per registered pending call of the last message |
| `Graph.DispatchAnswersPendingCalls` | src/graph.py:116-137 | on a non-empty history every result is a tool message that answers a pending call of the last message with a registered name: it carries that call's name and a non-null `tool_call_id` equal to the call's id |
| `Graph.ToolDispatchNode` | src/graph.py:102-149 | the `for` loop that appends results to `new_messages` returns exactly `Dispatch` of the history |
| `Graph.DispatchCallsAppend` | src/graph.py:116-140 | dispatching two call lists one after the other gives the two result lists concatenated, so results keep the order of their calls |
| `Graph.UnknownCallDropped` | src/graph.py:120-123 | a call with an unregistered name, in any position, contributes nothing to the output |
| `Graph.ResultCountIgnoresFailures` | src/graph.py:130-137 | the number of results does not depend on which tools fail: a failure never shortens the output |
| `Graph.Apology` | src/graph.py:95-98 | the fallback of the model node: an `assistant` dictionary with the fixed apology text, carrying no tool calls |
| `Graph.Deliver` | src/graph.py:93-99 | an invocation that raises yields the fixed apology assistant dictionary; an answer is returned as is |
| `Graph.FindLast` | src/graph.py:60-61 | the backward search gives the index of the latest matching message, with no match after it, or nothing exactly when no message matches |
| `Graph.LatestOf` | src/graph.py:60-61 | the latest tool-result (or human) message, or None exactly when the history holds none |
| `Graph.SynthesisPrompt` | src/graph.py:65-69 | the final-synthesis prompt: the three fixed sentences with the rendered latest tool result and the rendered latest human message, `None` when there is none |
| `Graph.TimePrompt` | src/graph.py:78-81 | the time notice: `The current date and time is <now>. Please consider this information when generating your response.` |
| `Graph.Stamp` | src/graph.py:83-87 | the time notice and a blank line are prepended to the content when it is a string; block content and the bare dictionary are untouched; the kind, tool calls, name and call id never change |
| `Graph.StampLast` | src/graph.py:83-87 | only the last message of the history changes, and it changes as `Stamp` says |
| `Graph.ModelStep` | src/graph.py:54-99 | the model node keeps the length of the history and changes nothing but its last message |
| `Graph.SynthesisBranch` | src/graph.py:59-72 | when a tool result exists anywhere in the history, the history is untouched, and the reply comes from the plain model prompted with the latest tool result and the latest human message |
| `Graph.ToolBranch` | src/graph.py:74-91 | with no tool result in the history, the history becomes its stamped form and the reply comes from the tool-bound model invoked on that stamped history |
| `Graph.FailedInvocationApologizes` | src/graph.py:59-99 | when the one invocation the model node makes raises, on either branch, the node's reply is the apology |
| `Graph.ApologyEndsConversation` | src/graph.py:93-99 | after the apology is appended, the router always picks END |
| `Graph.Conversation.CallModel` | src/graph.py:54-99 | the in-place model node leaves the history field and returns the reply exactly as `ModelStep` specifies |
| `Wiring.Start` | app.py:19-20 | the entry point: a single human message holding the user's input, at the model node, with no model invocation yet |
| `Wiring.Step` | src/graph.py:154-159 | END is final; the tool node appends the dispatch results and always returns to the model node; the model node appends exactly one message, changes nothing before the old last message, never loops to itself, and goes to the tool node exactly when the new message has tool calls |
| `Wiring.ConditionalEdge` | src/graph.py:158 | the edge out of the model node appends the node's reply and goes to the tool node exactly when that reply has tool calls, otherwise to END, never back to the model node |
| `Wiring.ModelTransition` | src/graph.py:155-158 | a model-node transition appends `ModelStep`'s reply to `ModelStep`'s history, counts one more model invocation, and routes on the reply's tool calls |
| `Wiring.FirstRound` | src/graph.py:74-91 | the first transition from the entry point stamps the user's message with the first clock value, appends the tool-bound model's reply to it, and routes on that reply |
| `Wiring.Run` | src/graph.py:154-159 | along any run the history never shrinks, every tool result stays unchanged at its position, and a run stuck between the two nodes under a model asking only for unregistered tools never reaches END; this is about the graph's edges, not about what `graph.invoke` returns under the runtime's step limit |
| `Wiring.NoDispatchFailureFromStart` | src/graph.py:142-149 | from the entry point the history is never empty, so the tool node never produces the synthetic dispatch failure |
| `Wiring.ToolResultKept` | src/graph.py:59-72 | one transition keeps a given tool result at its position (the whole-history fact for the model node is `Graph.SynthesisBranch`) |
| `Wiring.StepKeepsToolResults` | src/graph.py:59-72 | one transition keeps every tool result of the history at its position |
| `Wiring.ModelFailureEnds` | src/graph.py:59-99 | when the one invocation the model node makes raises (the plain model on the synthesis prompt after a tool result, the tool-bound model on the stamped history otherwise), the node appends the apology and the run goes to END |
| `Wiring.PlainReplyEndsAfterOneRound` | src/graph.py:154-159 | a first reply without tool calls ends the run with exactly two messages: the stamped user message and the reply |
| `Wiring.ModelDownEndsWithApology` | src/graph.py:83-99 | when the tool-bound model raises on the stamped user message, the run ends with the stamped user message and the apology; the prepend survives the failure |
| `Wiring.ListEventsDispatched` | src/graph.py:116-128 | the tool node answers a pending `list_events_tool` call with the tool's output under the call's name and id, and returns to the model node |
| `Wiring.SynthesisRound` | src/graph.py:59-72 | after a tool result, the model node prompts the plain model with that result and the user's message, leaves the history untouched and appends the reply, and the run ends when that reply has no tool calls |
| `Wiring.ListEventsRoundTrip` | src/graph.py:154-159 | a request answered through `list_events_tool` ends after three transitions with four messages: the stamped user message, the tool request, the tool result carrying the call's id, and the final reply |
| `Wiring.StuckToolsStep` | src/graph.py:116-123 | a tool node whose pending calls are all unregistered appends nothing and returns to the model node |
| `Wiring.StuckModelStep` | src/graph.py:74-91 | under a model that asks only for unregistered tools, a model step from a stuck state (no tool result, not at END) leads to a stuck state at the tool node |
| `Wiring.StuckStep` | src/graph.py:154-159 | under such a model, one transition from a stuck state leads to a stuck state |
| `Wiring.UnknownToolsLoopFromStart` | src/graph.py:154-159 | a model that keeps asking only for unregistered tools keeps the run away from END for any number of transitions from the entry point |

## Left out

- The chat-model client, the API-key loading and the debug print (src/graph.py:11-20, 32-34) are I/O and foreign library calls. The two models are the `Model` parameters.
- The clock and its formatting (`datetime.now`, the Asia/Kolkata time zone, `strftime`, src/graph.py:75-77) are system services. The formatted time is the `clock` parameter, one value per model invocation.
- Logging (src/graph.py:24-30 and every `logger` call) has no effect on behaviour.
- The graph runtime's internals are not modelled. That covers `StateGraph`, `compile()` and the `add_messages` reducer. A node's output is appended to the history as it is. The reducer's conversion of a bare dictionary into a message object is not modelled: the apology stays an `AssistantDict`. As a dictionary or as a converted AI message, it has no tool calls, so routing is the same either way. `Graph.Stamp` leaves an `AssistantDict` unchanged because a dictionary has no `content` attribute (src/graph.py:85); in the running graph the converted apology is an AI message with string content, which that line would stamp. A model step never follows the apology, since the apology always routes to END (`Graph.ApologyEndsConversation`).
- The calendar tools live in src/tool.py, which is not part of this model. Each tool is the `ToolRunner` oracle, which returns content or raises. A failure building the result message falls in the same inner `except`, so it is part of the oracle's `Err`.
- `Graph.SynthesisPrompt` renders messages through the `show` parameter, which stands for Python's `str()` of a message object. The exact text of that rendering is not modelled.
- Tool-call arguments are modelled as a map from names to strings, not arbitrary JSON values. They are only passed through to the tool.
- Aliasing is not modelled. The prepend rewrites the last element of the history; the same message object appearing twice in a history is not represented.
- Whether the chat library accepts a null `tool_call_id` in the dispatch-failure message is a question about library code that is not part of this model. The message is modelled as the source builds it.
- The `__main__` demo block (src/graph.py:163-175) and the HTTP service in app.py (endpoints, health payload, error wrapping) are I/O plumbing. Only app.py's wrapping of the input as one user message is kept, as `Wiring.Start`.
- `Wiring.Run` bounds a run with fuel, because the graph's edges set no round limit. A run that never ends is stated as "not at END after any amount of fuel". That is a statement about the edges at src/graph.py:157-159, not about what `graph.invoke` returns: the compiled runtime stops a run after its own step limit, and that limit is not modelled.
- Call ids are plain strings in the model (`ToolCall.id`), so building a result message never raises. In the source, an exception raised while building the error message inside the inner `except` (src/graph.py:130-137) reaches the outer handler at src/graph.py:142-149, which then discards the results already collected; that path is not modelled.
