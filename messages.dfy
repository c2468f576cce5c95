/** The conversation values the graph passes between its nodes: the message
    kinds of the chat library (human, AI, tool result) plus the plain
    assistant dictionary that the model node returns when it fails. */
module Messages {

  datatype Option<T> = None | Some(value: T)

  /** Tool arguments as the model emits them: a mapping from argument name
      to its (serialised) value. */
  type Args = map<string, string>

  /** One pending tool invocation inside an AI message. */
  datatype ToolCall = ToolCall(name: string, args: Args, id: string)

  /** A message's content: either a plain string, or a list of content
      blocks (the chat library allows both; only the first is a `str`). */
  datatype Content = Text(text: string) | Blocks(blocks: seq<string>)

  datatype Message =
    | Human(content: Content)
    | AI(content: Content, toolCalls: seq<ToolCall>)
    | Tool(content: Content, name: string, callId: Option<string>)
      /** A bare `{"role": …, "content": …}` dictionary: it has neither a
          `content` attribute nor a `tool_calls` attribute. */
    | AssistantDict(role: string, text: string)

  /** `getattr(m, "tool_calls", default)` read as a sequence: only AI
      messages carry tool calls; every other kind yields the (falsy)
      default. */
  function ToolCallsOf(m: Message): (calls: seq<ToolCall>)
    ensures m.AI? ==> calls == m.toolCalls
    ensures calls != [] ==> m.AI?
  {
    if m.AI? then m.toolCalls else []
  }

  predicate IsTool(m: Message) { m.Tool? }

  predicate IsHuman(m: Message) { m.Human? }
}
