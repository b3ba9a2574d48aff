/** The streamed path of the library-based connection (`stream_response`):
    chunks are folded, in arrival order, into one assistant message; every
    chunk consumed is re-yielded and a finished stream ends with one
    `LLMResult`. The network is the sequence of chunks the client delivers. */
module Streaming {
  import opened Common
  import opened ChatTypes
  import OpenAILib

  const Assistant: string := "assistant"

  /** The mutable state of the generator: the message being built (its role,
      text and tool-call slots) and the last usage tally seen. */
  datatype Acc = Acc(role: string, content: string, toolCalls: seq<ToolCall>, usage: Option<Usage>)

  /** The state before the first chunk. */
  const Fresh: Acc := Acc(Assistant, "", [], None)

  /** Exceptions a malformed fragment raises inside the loop:
      `tool_call.function` is None (AttributeError), the new slot's id, name
      or arguments is None (the SDK record rejects it), a negative index past
      the start of the list (IndexError), appending None arguments (TypeError). */
  datatype Fault = MissingFunction | InvalidToolCall | IndexOutOfRange | ArgumentsNotString

  /** Why the fold stops early: an index that skips a slot (the generator
      returns silently), or an exception. */
  datatype Halt = IndexGap(index: int, expected: nat) | Raise(fault: Fault)

  datatype Routing = Routed(calls: seq<ToolCall>) | Halted(halt: Halt)

  /** A fragment with every part a new slot needs. */
  predicate Complete(f: ToolCallDelta) {
    f.id.Some? && f.func.Some? && f.func.value.name.Some? && f.func.value.arguments.Some?
  }

  /** A fragment whose arguments can be appended. */
  predicate HasArguments(f: ToolCallDelta) {
    f.func.Some? && f.func.value.arguments.Some?
  }

  /** The argument text a fragment carries ("" when it carries none). */
  function ArgsOf(f: ToolCallDelta): string {
    if HasArguments(f) then f.func.value.arguments.value else ""
  }

  /** Slots only grow: existing slots keep their id and name and their
      arguments are only ever extended, never overwritten. */
  ghost predicate Extends(calls: seq<ToolCall>, calls': seq<ToolCall>) {
    && |calls| <= |calls'|
    && forall i :: 0 <= i < |calls| ==>
         && calls'[i].id == calls[i].id
         && calls'[i].name == calls[i].name
         && calls[i].arguments <= calls'[i].arguments
  }

  lemma ExtendsTransitive(a: seq<ToolCall>, b: seq<ToolCall>, c: seq<ToolCall>)
    requires Extends(a, b) && Extends(b, c)
    ensures Extends(a, c)
  {
    forall i | 0 <= i < |a|
      ensures a[i].arguments <= c[i].arguments
    {
      var x, y, z := a[i].arguments, b[i].arguments, c[i].arguments;
      assert x == y[..|x|] && y == z[..|y|];
      assert z[..|y|][..|x|] == z[..|x|];
    }
  }

  /** `message.tool_calls[i].function.arguments += args`. */
  function AppendArguments(calls: seq<ToolCall>, i: nat, args: string): (r: seq<ToolCall>)
    requires i < |calls|
    ensures |r| == |calls|
    ensures r[i] == calls[i].(arguments := calls[i].arguments + args)
    ensures forall j :: 0 <= j < |calls| && j != i ==> r[j] == calls[j]
  {
    calls[i := calls[i].(arguments := calls[i].arguments + args)]
  }

  /** One fragment of `delta.tool_calls`. An index equal to the slot count
      opens a slot from the fragment; a smaller one indexes the list the
      Python way (negative counts from the end) and appends the arguments; a
      larger one is a gap. A new slot is built with the fragment's arguments
      and then has the same arguments appended once more. */
  function Route(calls: seq<ToolCall>, f: ToolCallDelta): (r: Routing)
    ensures r.Halted? && r.halt.IndexGap? <==> f.index > |calls|
    ensures f.index > |calls| ==> r.halt == IndexGap(f.index, |calls|)
    ensures f.index == |calls| && Complete(f) ==>
      var a := f.func.value.arguments.value;
      r == Routed(calls + [ToolCall(f.id.value, f.func.value.name.value, a + a)])
    ensures 0 <= f.index < |calls| && HasArguments(f) ==>
      && r.Routed?
      && |r.calls| == |calls|
      && r.calls[f.index].id == calls[f.index].id
      && r.calls[f.index].name == calls[f.index].name
      && r.calls[f.index].arguments == calls[f.index].arguments + ArgsOf(f)
      && (forall j :: 0 <= j < |calls| && j != f.index ==> r.calls[j] == calls[j])
    ensures f.index < 0 && |calls| + f.index >= 0 && HasArguments(f) ==>
      r == Routed(AppendArguments(calls, |calls| + f.index, ArgsOf(f)))
    ensures r.Routed? ==> Extends(calls, r.calls) && |calls| <= |r.calls| <= |calls| + 1
    // The error paths: which fragments raise, and with which exception.
    ensures r.Routed? <==>
      && f.index <= |calls|
      && HasArguments(f)
      && (f.index == |calls| ==> Complete(f))
      && (f.index < 0 ==> |calls| + f.index >= 0)
    ensures f.index <= |calls| && f.func.None? ==> r == Halted(Raise(MissingFunction))
    ensures f.index == |calls| && f.func.Some? && !Complete(f) ==> r == Halted(Raise(InvalidToolCall))
    ensures f.index < 0 && |calls| + f.index < 0 && f.func.Some? ==> r == Halted(Raise(IndexOutOfRange))
    ensures f.index < |calls| && (f.index >= 0 || |calls| + f.index >= 0) && f.func.Some? && !HasArguments(f) ==>
      r == Halted(Raise(ArgumentsNotString))
  {
    if |calls| <= f.index then
      if |calls| != f.index then Halted(IndexGap(f.index, |calls|))
      else if f.func.None? then Halted(Raise(MissingFunction))
      else if f.id.None? || f.func.value.name.None? || f.func.value.arguments.None? then Halted(Raise(InvalidToolCall))
      else
        var args := f.func.value.arguments.value;
        var withSlot := calls + [ToolCall(f.id.value, f.func.value.name.value, args)];
        Routed(AppendArguments(withSlot, |calls|, args))
    else if f.func.None? then Halted(Raise(MissingFunction))
    else
      var i := if f.index >= 0 then f.index else |calls| + f.index;
      if i < 0 then Halted(Raise(IndexOutOfRange))
      else if f.func.value.arguments.None? then Halted(Raise(ArgumentsNotString))
      else Routed(AppendArguments(calls, i, f.func.value.arguments.value))
  }

  /** The inner `for tool_call in delta.tool_calls` loop: fragments in order,
      stopping at the first that halts. */
  function RouteAll(calls: seq<ToolCall>, frags: seq<ToolCallDelta>): (r: Routing)
    ensures r.Routed? ==> Extends(calls, r.calls) && |calls| <= |r.calls| <= |calls| + |frags|
    decreases |frags|
  {
    if |frags| == 0 then Routed(calls)
    else
      match Route(calls, frags[0])
      case Halted(h) => Halted(h)
      case Routed(c) =>
        var r := RouteAll(c, frags[1..]);
        if r.Routed? then ExtendsTransitive(calls, c, r.calls); r else r
  }

  /** The text a chunk contributes: the first choice's `delta.content`. */
  function ChunkText(c: Chunk): string {
    if |c.choices| > 0 && c.choices[0].delta.content.Some? then c.choices[0].delta.content.value else ""
  }

  /** The tool-call fragments a chunk carries in its first choice. */
  function ChunkFragments(c: Chunk): seq<ToolCallDelta> {
    if |c.choices| > 0 && c.choices[0].delta.toolCalls.Some? then c.choices[0].delta.toolCalls.value else []
  }

  /** Reference: all streamed text, in chunk order. */
  function ContentOf(chunks: seq<Chunk>): string
    decreases |chunks|
  {
    if |chunks| == 0 then "" else ChunkText(chunks[0]) + ContentOf(chunks[1..])
  }

  /** Reference: all tool-call fragments, in chunk order. */
  function Fragments(chunks: seq<Chunk>): seq<ToolCallDelta>
    decreases |chunks|
  {
    if |chunks| == 0 then [] else ChunkFragments(chunks[0]) + Fragments(chunks[1..])
  }

  /** Reference: the usage of the last chunk that carries one. */
  function LastUsage(chunks: seq<Chunk>): Option<Usage>
    decreases |chunks|
  {
    if |chunks| == 0 then None
    else if chunks[|chunks| - 1].usage.Some? then chunks[|chunks| - 1].usage
    else LastUsage(chunks[..|chunks| - 1])
  }

  datatype Step = Next(acc: Acc) | Stop(halt: Halt)

  /** One pass of the `for chunk in chunks` body, before the chunk is yielded:
      only `choices[0]` is read, a role change is only warned about, text is
      appended, fragments are routed, and a non-null usage replaces the tally. */
  function ChunkStep(acc: Acc, c: Chunk): (s: Step)
    ensures s.Next? <==> RouteAll(acc.toolCalls, ChunkFragments(c)).Routed?
    ensures s.Stop? ==> RouteAll(acc.toolCalls, ChunkFragments(c)) == Halted(s.halt)
    ensures s.Next? ==>
      && s.acc.role == acc.role
      && s.acc.content == acc.content + ChunkText(c)
      && s.acc.toolCalls == RouteAll(acc.toolCalls, ChunkFragments(c)).calls
      && s.acc.usage == (if c.usage.Some? then c.usage else acc.usage)
  {
    var afterChoice :=
      if |c.choices| == 0 then Next(acc)
      else
        var d := c.choices[0].delta;
        var withText := if d.content.Some? then acc.(content := acc.content + d.content.value) else acc;
        if d.toolCalls.Some? && |d.toolCalls.value| > 0 then
          match RouteAll(withText.toolCalls, d.toolCalls.value)
          case Routed(calls) => Next(withText.(toolCalls := calls))
          case Halted(h) => Stop(h)
        else Next(withText);
    match afterChoice
    case Next(a) => Next(if c.usage.Some? then a.(usage := c.usage) else a)
    case Stop(h) => Stop(h)
  }

  /** The fold ran to the end of the stream, or stopped at chunk `consumed`
      after yielding the `consumed` chunks before it. */
  datatype Feeding = Drained(acc: Acc) | Interrupted(consumed: nat, halt: Halt)

  lemma LastUsageCons(c: Chunk, rest: seq<Chunk>)
    ensures LastUsage([c] + rest) == if LastUsage(rest).Some? then LastUsage(rest) else c.usage
    decreases |rest|
  {
    var s := [c] + rest;
    if |rest| > 0 {
      assert s[|s| - 1] == rest[|rest| - 1];
      assert s[..|s| - 1] == [c] + rest[..|rest| - 1];
      LastUsageCons(c, rest[..|rest| - 1]);
    }
  }

  /** A chunk processed without halting, followed by a drained fold of the
      rest, drains the whole stream with the same accumulated text, usage and
      slots as one fold would. */
  lemma FeedConsDrained(acc: Acc, chunks: seq<Chunk>, a: Acc, final: Acc)
    requires |chunks| > 0 && ChunkStep(acc, chunks[0]) == Next(a)
    requires final.role == a.role
    requires final.content == a.content + ContentOf(chunks[1..])
    requires final.usage == (if LastUsage(chunks[1..]).Some? then LastUsage(chunks[1..]) else a.usage)
    requires Extends(a.toolCalls, final.toolCalls)
    ensures final.role == acc.role
    ensures final.content == acc.content + ContentOf(chunks)
    ensures final.usage == (if LastUsage(chunks).Some? then LastUsage(chunks) else acc.usage)
    ensures Extends(acc.toolCalls, final.toolCalls)
  {
    AppendAssoc(acc.content, ChunkText(chunks[0]), ContentOf(chunks[1..]));
    LastUsageCons(chunks[0], chunks[1..]);
    assert [chunks[0]] + chunks[1..] == chunks;
    ExtendsTransitive(acc.toolCalls, a.toolCalls, final.toolCalls);
  }

  /** The chunk loop. */
  function Feed(acc: Acc, chunks: seq<Chunk>): (r: Feeding)
    ensures r.Interrupted? ==> r.consumed < |chunks|
    ensures r.Drained? ==>
      && r.acc.role == acc.role
      && r.acc.content == acc.content + ContentOf(chunks)
      && r.acc.usage == (if LastUsage(chunks).Some? then LastUsage(chunks) else acc.usage)
      && Extends(acc.toolCalls, r.acc.toolCalls)
    decreases |chunks|
  {
    if |chunks| == 0 then Drained(acc)
    else
      match ChunkStep(acc, chunks[0])
      case Stop(h) => Interrupted(0, h)
      case Next(a) =>
        var r := Feed(a, chunks[1..]);
        match r
        case Interrupted(k, h) => Interrupted(k + 1, h)
        case Drained(final) =>
          FeedConsDrained(acc, chunks, a, final);
          r
  }

  /** The message and usage after the stream ended: an empty tool-call list
      becomes absent, and a stream without usage gets an all-zero tally. */
  datatype Final = Final(message: Message, usage: Usage)

  function Finalise(acc: Acc): (f: Final)
    ensures f.message.role == acc.role && f.message.content == acc.content
    ensures f.message.toolCalls.None? <==> |acc.toolCalls| == 0
    ensures f.message.toolCalls.Some? ==> f.message.toolCalls.value == acc.toolCalls
    ensures acc.usage.Some? ==> f.usage == acc.usage.value
    ensures acc.usage.None? ==> f.usage == ZeroUsage
  {
    var usage := if acc.usage.None? then ZeroUsage else acc.usage.value;
    var calls := if |acc.toolCalls| == 0 then None else Some(acc.toolCalls);
    Final(Message(acc.role, acc.content, calls), usage)
  }

  /** What the generator yields: a raw chunk or the final result. */
  datatype Item = ChunkItem(chunk: Chunk) | ResultItem(result: LLMResult<Message>)

  /** How the generator ended: after its result, silently at an index gap,
      or by raising. */
  datatype Ending = Completed | StoppedAtGap | Raised(fault: Fault)

  datatype StreamRun = StreamRun(items: seq<Item>, ending: Ending)

  function ChunkItems(chunks: seq<Chunk>): (items: seq<Item>)
    ensures |items| == |chunks|
    ensures forall i :: 0 <= i < |chunks| ==> items[i] == ChunkItem(chunks[i])
  {
    seq(|chunks|, i requires 0 <= i < |chunks| => ChunkItem(chunks[i]))
  }

  /** `stream_response` once the client has delivered `chunks`; `elapsed` is
      the measured duration. The usage tally is finalised but the result's
      token counts come from the tokenizer branch alone. */
  function StreamResponse(cfg: OpenAILib.Config, o: Oracles, prompt: string, chunks: seq<Chunk>, elapsed: real)
    : (run: StreamRun)
    ensures run.ending.Completed? <==> Feed(Fresh, chunks).Drained?
    ensures run.ending.StoppedAtGap? <==>
      Feed(Fresh, chunks).Interrupted? && Feed(Fresh, chunks).halt.IndexGap?
    ensures run.ending.Completed? ==>
      && |run.items| == |chunks| + 1
      && run.items[..|chunks|] == ChunkItems(chunks)
      && run.items[|chunks|].ResultItem?
    ensures !run.ending.Completed? ==>
      && |run.items| < |chunks|
      && run.items == ChunkItems(chunks[..|run.items|])
      && Feed(Fresh, chunks).Interrupted?
      && |run.items| == Feed(Fresh, chunks).consumed
    ensures run.ending.Raised? <==> Feed(Fresh, chunks).Interrupted? && Feed(Fresh, chunks).halt.Raise?
    ensures run.ending.Raised? ==> Feed(Fresh, chunks).halt == Raise(run.ending.fault)
    ensures forall i :: 0 <= i < |run.items| && run.items[i].ResultItem? ==>
      run.ending.Completed? && i == |run.items| - 1
    ensures run.ending.Completed? ==>
      var res := run.items[|chunks|].result;
      var counts := OpenAILib.TokenCounts(cfg, o, prompt, ContentOf(chunks));
      && res.content == ContentOf(chunks)
      && res.message.content == res.content
      && res.message.role == Assistant
      && res.renderedPrompt == prompt
      && res.duration == elapsed
      && res.tokensQuery == counts.query
      && res.tokensResponse == counts.response
    ensures run.ending.Completed? && OpenAILib.Init(cfg).tokenizer.None? ==>
      run.items[|chunks|].result.tokensQuery == 0 && run.items[|chunks|].result.tokensResponse == 0
  {
    match Feed(Fresh, chunks)
    case Drained(acc) =>
      var final := Finalise(acc);
      var counts := OpenAILib.TokenCounts(cfg, o, prompt, final.message.content);
      var result := LLMResult(final.message, prompt, final.message.content, elapsed, counts.query, counts.response);
      StreamRun(ChunkItems(chunks) + [ResultItem(result)], Completed)
    case Interrupted(k, h) =>
      var yielded := ChunkItems(chunks[..k]);
      match h
      case IndexGap(_, _) => StreamRun(yielded, StoppedAtGap)
      case Raise(fault) => StreamRun(yielded, Raised(fault))
  }

  /** Shifts the stopping position of a fold over a suffix back to the whole stream. */
  function Offset(r: Feeding, k: nat): Feeding {
    match r
    case Drained(a) => Drained(a)
    case Interrupted(c, h) => Interrupted(c + k, h)
  }

  /** Folding a stream whose first chunk is processed without halting
      continues with the rest, one position further on. */
  lemma FeedCons(acc: Acc, chunks: seq<Chunk>, a: Acc)
    requires |chunks| > 0 && ChunkStep(acc, chunks[0]) == Next(a)
    ensures Feed(acc, chunks) == Offset(Feed(a, chunks[1..]), 1)
  {
  }

  /** Folding a suffix whose first chunk is processed without halting
      continues with the next suffix, one position further on. */
  lemma FeedSuffixNext(acc: Acc, chunks: seq<Chunk>, i: nat, a: Acc)
    requires i < |chunks| && ChunkStep(acc, chunks[i]) == Next(a)
    ensures Offset(Feed(acc, chunks[i..]), i) == Offset(Feed(a, chunks[i + 1..]), i + 1)
  {
    assert chunks[i..][0] == chunks[i] && chunks[i..][1..] == chunks[i + 1..];
  }

  /** Folding a suffix whose first chunk halts stops right there. */
  lemma FeedSuffixStop(acc: Acc, chunks: seq<Chunk>, i: nat, h: Halt)
    requires i < |chunks| && ChunkStep(acc, chunks[i]) == Stop(h)
    ensures Offset(Feed(acc, chunks[i..]), i) == Interrupted(i, h)
  {
    assert chunks[i..][0] == chunks[i];
  }

  lemma ChunkItemsSnoc(chunks: seq<Chunk>, i: nat)
    requires i < |chunks|
    ensures ChunkItems(chunks[..i + 1]) == ChunkItems(chunks[..i]) + [ChunkItem(chunks[i])]
  {
  }

  /** The `for chunk in chunks` loop of the generator: each chunk is
      processed and then yielded; a halting chunk ends the loop before it is
      yielded. */
  method ConsumeChunks(chunks: seq<Chunk>) returns (yielded: seq<Item>, r: Feeding)
    ensures r == Feed(Fresh, chunks)
    ensures r.Drained? ==> yielded == ChunkItems(chunks)
    ensures r.Interrupted? ==> yielded == ChunkItems(chunks[..r.consumed])
  {
    var acc := Fresh;
    yielded := [];
    var i := 0;
    while i < |chunks|
      invariant 0 <= i <= |chunks|
      invariant yielded == ChunkItems(chunks[..i])
      invariant Feed(Fresh, chunks) == Offset(Feed(acc, chunks[i..]), i)
    {
      var step := ChunkStep(acc, chunks[i]);
      if step.Stop? {
        FeedSuffixStop(acc, chunks, i, step.halt);
        return yielded, Interrupted(i, step.halt);
      }
      FeedSuffixNext(acc, chunks, i, step.acc);
      ChunkItemsSnoc(chunks, i);
      acc := step.acc;
      yielded := yielded + [ChunkItem(chunks[i])];
      i := i + 1;
    }
    assert chunks[..i] == chunks && chunks[i..] == [];
    r := Drained(acc);
  }

  /** The generator itself: the chunk loop, then either its silent `return`
      at an index gap, the exception, or the final `yield LLMResult(...)`. */
  method RunStream(cfg: OpenAILib.Config, o: Oracles, prompt: string, chunks: seq<Chunk>, elapsed: real)
    returns (run: StreamRun)
    ensures run == StreamResponse(cfg, o, prompt, chunks, elapsed)
  {
    var yielded, r := ConsumeChunks(chunks);
    match r
    case Interrupted(_, h) =>
      var ending := if h.IndexGap? then StoppedAtGap else Raised(h.fault);
      run := StreamRun(yielded, ending);
    case Drained(acc) =>
      var final := Finalise(acc);
      var counts := OpenAILib.TokenCounts(cfg, o, prompt, final.message.content);
      var result := LLMResult(final.message, prompt, final.message.content, elapsed, counts.query, counts.response);
      run := StreamRun(yielded + [ResultItem(result)], Completed);
  }
}
