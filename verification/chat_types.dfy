/** The OpenAI SDK records the library-based connection reads: completed
    messages, streamed chunks and their deltas, and the usage tally. Fields the
    SDK types as optional are `Option`s. */
module ChatTypes {
  import opened Common

  /** `ChatCompletionMessageToolCall` with its `Function`. */
  datatype ToolCall = ToolCall(id: string, name: string, arguments: string)

  /** `ChatCompletionMessage`: the role, the text and the tool calls, where
      `None` is the "absent" state the stream finalises an empty list to. */
  datatype Message = Message(role: string, content: string, toolCalls: Option<seq<ToolCall>>)

  /** A non-streamed completion: only its choices are read. */
  datatype CompletionChoice = CompletionChoice(message: Message)
  datatype Completion = Completion(choices: seq<CompletionChoice>)

  /** `CompletionUsage`. */
  datatype Usage = Usage(completionTokens: int, promptTokens: int, totalTokens: int)

  const ZeroUsage: Usage := Usage(0, 0, 0)

  /** `ChoiceDeltaToolCallFunction`: both parts may be missing in a fragment. */
  datatype FunctionDelta = FunctionDelta(name: Option<string>, arguments: Option<string>)

  /** `ChoiceDeltaToolCall`: a tool-call fragment routed by its `index`. */
  datatype ToolCallDelta = ToolCallDelta(index: int, id: Option<string>, func: Option<FunctionDelta>)

  /** `ChoiceDelta`. */
  datatype Delta = Delta(role: Option<string>, content: Option<string>, toolCalls: Option<seq<ToolCallDelta>>)

  datatype ChunkChoice = ChunkChoice(delta: Delta)

  /** `ChatCompletionChunk`: its choices and an optional usage tally. */
  datatype Chunk = Chunk(choices: seq<ChunkChoice>, usage: Option<Usage>)
}
