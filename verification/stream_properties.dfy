/** Properties of the streamed accumulation that relate several chunks or
    several fragments: how tool-call slots are laid out, when a stream is cut
    short, and what the usage tally does and does not affect. */
module StreamingProperties {
  import opened Common
  import opened ChatTypes
  import opened Streaming
  import OpenAILib

  /** Routing a concatenation routes the first part, then the second from
      where the first left off. */
  lemma {:induction false} RouteAllAppend(calls: seq<ToolCall>, f1: seq<ToolCallDelta>, f2: seq<ToolCallDelta>)
    ensures RouteAll(calls, f1 + f2) ==
      match RouteAll(calls, f1)
      case Routed(c) => RouteAll(c, f2)
      case Halted(h) => Halted(h)
    decreases |f1|
  {
    if |f1| == 0 {
      assert f1 + f2 == f2;
    } else {
      assert (f1 + f2)[0] == f1[0];
      assert (f1 + f2)[1..] == f1[1..] + f2;
      match Route(calls, f1[0])
      case Halted(h) =>
      case Routed(c) => RouteAllAppend(c, f1[1..], f2);
    }
  }

  /** The chunk loop routes exactly the fragments of all chunks taken in
      order: the stream runs to its end iff routing them all succeeds, the
      final slots are that routing's result, and an early stop carries the
      same reason as the routing's halt. */
  lemma {:induction false} FeedRoutesAllFragments(acc: Acc, chunks: seq<Chunk>)
    ensures match Feed(acc, chunks)
      case Drained(a) => RouteAll(acc.toolCalls, Fragments(chunks)) == Routed(a.toolCalls)
      case Interrupted(_, h) => RouteAll(acc.toolCalls, Fragments(chunks)) == Halted(h)
    decreases |chunks|
  {
    if |chunks| > 0 {
      var c := chunks[0];
      RouteAllAppend(acc.toolCalls, ChunkFragments(c), Fragments(chunks[1..]));
      match ChunkStep(acc, c)
      case Stop(h) =>
      case Next(a) => FeedRoutesAllFragments(a, chunks[1..]);
    }
  }

  /** A fragment that can be routed while `n` slots are open: a non-negative
      index and argument text; only a fragment that opens the next slot also
      needs an id and a name, a continuation fragment may leave them out. */
  predicate WellFormed(f: ToolCallDelta, n: nat) {
    f.index >= 0 && HasArguments(f) && (f.index == n ==> Complete(f))
  }

  /** Every fragment is well formed for the slot count reached before it. */
  predicate AllWellFormed(n: nat, frags: seq<ToolCallDelta>)
    decreases |frags|
  {
    |frags| == 0 ||
      (WellFormed(frags[0], n) && AllWellFormed(if frags[0].index + 1 > n then frags[0].index + 1 else n, frags[1..]))
  }

  /** The first fragment addressed to slot `i`: the one that opens it. */
  function Opening(frags: seq<ToolCallDelta>, i: int): (r: Option<ToolCallDelta>)
    ensures r.Some? ==> r.value.index == i && r.value in frags
    decreases |frags|
  {
    if |frags| == 0 then None
    else if frags[0].index == i then Some(frags[0])
    else Opening(frags[1..], i)
  }

  /** All argument text addressed to slot `i`, in arrival order. */
  function ArgsFor(frags: seq<ToolCallDelta>, i: int): string
    decreases |frags|
  {
    if |frags| == 0 then ""
    else (if frags[0].index == i then ArgsOf(frags[0]) else "") + ArgsFor(frags[1..], i)
  }

  /** The slot a fragment opens, followed by argument text `tail`. */
  function SlotOf(f: ToolCallDelta, tail: string): ToolCall {
    var id := if f.id.Some? then f.id.value else "";
    var name := if f.func.Some? && f.func.value.name.Some? then f.func.value.name.value else "";
    ToolCall(id, name, ArgsOf(f) + tail)
  }

  /** Where slot `i` of `out` stands after routing `frags` from `calls`: an
      existing slot has gained every argument fragment sent to it; a slot
      opened here takes id and name from its first fragment, whose arguments
      appear twice (once when the slot is built, once more when it is
      appended). */
  ghost predicate SlotLaidOut(calls: seq<ToolCall>, frags: seq<ToolCallDelta>, out: seq<ToolCall>, i: nat)
    requires i < |out|
  {
    if i < |calls| then out[i] == calls[i].(arguments := calls[i].arguments + ArgsFor(frags, i))
    else Opening(frags, i).Some? && out[i] == SlotOf(Opening(frags, i).value, ArgsFor(frags, i))
  }

  ghost predicate LaidOut(calls: seq<ToolCall>, frags: seq<ToolCallDelta>, out: seq<ToolCall>) {
    forall i :: 0 <= i < |out| ==> SlotLaidOut(calls, frags, out, i)
  }

  /** Putting a fragment in front: slot `i`'s opening and argument text. */
  lemma ConsAddressing(f: ToolCallDelta, rest: seq<ToolCallDelta>, i: int)
    ensures Opening([f] + rest, i) == if f.index == i then Some(f) else Opening(rest, i)
    ensures ArgsFor([f] + rest, i) == (if f.index == i then ArgsOf(f) else "") + ArgsFor(rest, i)
  {
    assert ([f] + rest)[0] == f && ([f] + rest)[1..] == rest;
  }

  /** A fragment that opened a slot keeps each laid-out slot. */
  lemma LayoutSlotOpened(calls: seq<ToolCall>, f: ToolCallDelta, rest: seq<ToolCallDelta>, c1: seq<ToolCall>,
                         out: seq<ToolCall>, i: nat)
    requires Complete(f) && f.index == |calls| && Route(calls, f) == Routed(c1)
    requires i < |out| && |c1| <= |out| && SlotLaidOut(c1, rest, out, i)
    ensures SlotLaidOut(calls, [f] + rest, out, i)
  {
    ConsAddressing(f, rest, i);
    if i < |calls| {
      assert c1[i] == calls[i];
    } else if i == |calls| {
      AppendAssoc(ArgsOf(f), ArgsOf(f), ArgsFor(rest, i));
    }
  }

  /** A fragment appended to an existing slot keeps each laid-out slot. */
  lemma LayoutSlotAppended(calls: seq<ToolCall>, f: ToolCallDelta, rest: seq<ToolCallDelta>, c1: seq<ToolCall>,
                           out: seq<ToolCall>, i: nat)
    requires HasArguments(f) && 0 <= f.index < |calls| && Route(calls, f) == Routed(c1)
    requires i < |out| && |c1| <= |out| && SlotLaidOut(c1, rest, out, i)
    ensures SlotLaidOut(calls, [f] + rest, out, i)
  {
    ConsAddressing(f, rest, i);
    assert |c1| == |calls|;
    if i == f.index {
      AppendAssoc(calls[i].arguments, ArgsOf(f), ArgsFor(rest, i));
    }
  }

  /** One routed fragment in front of a laid-out suffix keeps the layout. */
  lemma LayoutStep(calls: seq<ToolCall>, f: ToolCallDelta, rest: seq<ToolCallDelta>, c1: seq<ToolCall>, out: seq<ToolCall>)
    requires WellFormed(f, |calls|) && Route(calls, f) == Routed(c1)
    requires LaidOut(c1, rest, out) && |c1| <= |out|
    ensures LaidOut(calls, [f] + rest, out)
  {
    forall i | 0 <= i < |out| ensures SlotLaidOut(calls, [f] + rest, out, i) {
      if f.index == |calls| {
        LayoutSlotOpened(calls, f, rest, c1, out, i);
      } else {
        LayoutSlotAppended(calls, f, rest, c1, out, i);
      }
    }
  }

  /** Layout of all slots after routing well-formed fragments. */
  lemma {:induction false} RouteAllLayout(calls: seq<ToolCall>, frags: seq<ToolCallDelta>)
    requires AllWellFormed(|calls|, frags)
    requires RouteAll(calls, frags).Routed?
    ensures LaidOut(calls, frags, RouteAll(calls, frags).calls)
    decreases |frags|
  {
    var out := RouteAll(calls, frags).calls;
    if |frags| == 0 {
      assert out == calls;
    } else {
      var f, rest := frags[0], frags[1..];
      var c1 := Route(calls, f).calls;
      assert out == RouteAll(c1, rest).calls;
      RouteAllLayout(c1, rest);
      assert [f] + rest == frags;
      LayoutStep(calls, f, rest, c1, out);
    }
  }

  /** Number of slots once `frags` are routed from `n` slots without a gap. */
  function SlotsAfter(n: nat, frags: seq<ToolCallDelta>): nat
    decreases |frags|
  {
    if |frags| == 0 then n
    else SlotsAfter(if frags[0].index + 1 > n then frags[0].index + 1 else n, frags[1..])
  }

  /** The ordering invariant of tool-call indices: every fragment addresses an
      open slot or the next one, never a later one. */
  ghost predicate NoGap(n: nat, frags: seq<ToolCallDelta>) {
    forall j :: 0 <= j < |frags| ==> frags[j].index <= SlotsAfter(n, frags[..j])
  }

  lemma NoGapCons(n: nat, frags: seq<ToolCallDelta>)
    requires |frags| > 0
    ensures NoGap(n, frags) <==>
      frags[0].index <= n && NoGap(if frags[0].index + 1 > n then frags[0].index + 1 else n, frags[1..])
  {
    var n' := if frags[0].index + 1 > n then frags[0].index + 1 else n;
    var rest := frags[1..];
    forall j | 1 <= j < |frags|
      ensures frags[j] == rest[j - 1] && SlotsAfter(n, frags[..j]) == SlotsAfter(n', rest[..j - 1])
    {
      assert frags[..j][0] == frags[0];
      assert frags[..j][1..] == rest[..j - 1];
    }
    assert frags[..0] == [];
    if frags[0].index <= n && NoGap(n', rest) {
      forall j | 0 <= j < |frags| ensures frags[j].index <= SlotsAfter(n, frags[..j]) {
        if j > 0 {
          assert rest[j - 1].index <= SlotsAfter(n', rest[..j - 1]);
        }
      }
    }
    if NoGap(n, frags) {
      forall j | 0 <= j < |rest| ensures rest[j].index <= SlotsAfter(n', rest[..j]) {
        assert frags[j + 1].index <= SlotsAfter(n, frags[..j + 1]);
      }
    }
  }

  /** Well-formed fragments are routed to the end iff their indices never
      skip a slot; then the slot count is `SlotsAfter`, and otherwise the
      stop is an index gap. */
  lemma {:induction false} RoutingSucceedsIffNoGap(calls: seq<ToolCall>, frags: seq<ToolCallDelta>)
    requires AllWellFormed(|calls|, frags)
    ensures RouteAll(calls, frags).Routed? <==> NoGap(|calls|, frags)
    ensures RouteAll(calls, frags).Routed? ==> |RouteAll(calls, frags).calls| == SlotsAfter(|calls|, frags)
    ensures RouteAll(calls, frags).Halted? ==> RouteAll(calls, frags).halt.IndexGap?
    decreases |frags|
  {
    if |frags| > 0 {
      var f, rest := frags[0], frags[1..];
      NoGapCons(|calls|, frags);
      if f.index <= |calls| {
        var c1 := Route(calls, f).calls;
        RoutingSucceedsIffNoGap(c1, rest);
      }
    }
  }

  /** The finished message's tool calls are the routing of all fragments,
      absent when there are none; a stream without a gap or fault completes. */
  lemma StreamToolCalls(cfg: OpenAILib.Config, o: Oracles, prompt: string, chunks: seq<Chunk>, elapsed: real)
    ensures var run := StreamResponse(cfg, o, prompt, chunks, elapsed);
      var routing := RouteAll([], Fragments(chunks));
      && (run.ending.Completed? <==> routing.Routed?)
      && (run.ending.Completed? ==>
            run.items[|chunks|].result.message.toolCalls ==
              (if |routing.calls| == 0 then None else Some(routing.calls)))
      && (run.ending.StoppedAtGap? <==> routing.Halted? && routing.halt.IndexGap?)
  {
    FeedRoutesAllFragments(Fresh, chunks);
  }

  /** A stream that carries no tool-call fragment at all finishes with the
      tool calls absent, not an empty list. */
  lemma NoFragmentsMeansAbsent(cfg: OpenAILib.Config, o: Oracles, prompt: string, chunks: seq<Chunk>, elapsed: real)
    requires Fragments(chunks) == []
    ensures var run := StreamResponse(cfg, o, prompt, chunks, elapsed);
      run.ending.Completed? && run.items[|chunks|].result.message.toolCalls.None?
  {
    StreamToolCalls(cfg, o, prompt, chunks, elapsed);
  }

  /** The stream stopped at chunk `consumed`: the chunks before it drained,
      and that chunk's step halted for the reason reported. */
  ghost predicate HaltsAfterDrainedPrefix(acc: Acc, chunks: seq<Chunk>) {
    var r := Feed(acc, chunks);
    r.Interrupted? ==>
      var before := Feed(acc, chunks[..r.consumed]);
      before.Drained? && ChunkStep(before.acc, chunks[r.consumed]) == Stop(r.halt)
  }

  /** A chunk processed without halting in front of a stream that halts
      after a drained prefix. */
  lemma HaltsLater(acc: Acc, chunks: seq<Chunk>, a: Acc)
    requires |chunks| > 0 && ChunkStep(acc, chunks[0]) == Next(a)
    requires HaltsAfterDrainedPrefix(a, chunks[1..])
    ensures HaltsAfterDrainedPrefix(acc, chunks)
  {
    var rest := chunks[1..];
    FeedCons(acc, chunks, a);
    var r := Feed(acc, chunks);
    if r.Interrupted? {
      var k := r.consumed - 1;
      var prefix := chunks[..r.consumed];
      assert prefix[0] == chunks[0] && prefix[1..] == rest[..k];
      FeedCons(acc, prefix, a);
      assert rest[k] == chunks[r.consumed];
    }
  }

  /** Where a stream stops: every chunk before the stop was processed in
      full, and the chunk at the stop is the one whose step halts. */
  lemma {:induction false} InterruptedAt(acc: Acc, chunks: seq<Chunk>)
    requires Feed(acc, chunks).Interrupted?
    ensures var r := Feed(acc, chunks);
      var before := Feed(acc, chunks[..r.consumed]);
      before.Drained? && ChunkStep(before.acc, chunks[r.consumed]) == Stop(r.halt)
    decreases |chunks|
  {
    match ChunkStep(acc, chunks[0])
    case Stop(h) =>
      assert chunks[..0] == [];
    case Next(a) =>
      FeedCons(acc, chunks, a);
      InterruptedAt(a, chunks[1..]);
      HaltsLater(acc, chunks, a);
  }

  /** The usage tally after a finished stream is the last non-null usage of
      any chunk, or all zeros; it plays no part in the result. */
  lemma StreamUsage(chunks: seq<Chunk>)
    ensures Feed(Fresh, chunks).Drained? ==>
      Finalise(Feed(Fresh, chunks).acc).usage == LastUsage(chunks).GetOr(ZeroUsage)
  {
  }

  /** Two streams whose chunks differ only in their usage fields. */
  ghost predicate SameButUsage(a: seq<Chunk>, b: seq<Chunk>) {
    |a| == |b| && forall i :: 0 <= i < |a| ==> a[i].choices == b[i].choices
  }

  lemma {:induction false} FeedIgnoresUsage(x: Acc, y: Acc, a: seq<Chunk>, b: seq<Chunk>)
    requires x.(usage := None) == y.(usage := None)
    requires SameButUsage(a, b)
    ensures Feed(x, a).Drained? <==> Feed(y, b).Drained?
    ensures Feed(x, a).Drained? ==> Feed(x, a).acc.(usage := None) == Feed(y, b).acc.(usage := None)
    ensures Feed(x, a).Interrupted? ==> Feed(x, a) == Feed(y, b)
    decreases |a|
  {
    if |a| > 0 {
      assert a[0].choices == b[0].choices;
      assert SameButUsage(a[1..], b[1..]) by {
        forall i | 0 <= i < |a[1..]| ensures a[1..][i].choices == b[1..][i].choices {
          assert a[1..][i] == a[i + 1] && b[1..][i] == b[i + 1];
        }
      }
      match ChunkStep(x, a[0])
      case Stop(h) =>
      case Next(x') =>
        var y' := ChunkStep(y, b[0]).acc;
        FeedIgnoresUsage(x', y', a[1..], b[1..]);
    }
  }

  /** The streamed usage never reaches the `LLMResult`: streams that differ
      only in usage end the same way with the same result. */
  lemma UsageNeverReachesResult(cfg: OpenAILib.Config, o: Oracles, prompt: string,
                                a: seq<Chunk>, b: seq<Chunk>, elapsed: real)
    requires SameButUsage(a, b)
    ensures var ra := StreamResponse(cfg, o, prompt, a, elapsed);
      var rb := StreamResponse(cfg, o, prompt, b, elapsed);
      && ra.ending == rb.ending
      && |ra.items| == |rb.items|
      && (ra.ending.Completed? ==> ra.items[|a|] == rb.items[|b|])
  {
    FeedIgnoresUsage(Fresh, Fresh, a, b);
  }

  /** Only the first choice of a chunk is read. */
  lemma FirstChoiceOnly(acc: Acc, first: ChunkChoice, others: seq<ChunkChoice>, usage: Option<Usage>)
    ensures ChunkStep(acc, Chunk([first] + others, usage)) == ChunkStep(acc, Chunk([first], usage))
  {
  }

  /** A chunk without choices only updates the usage tally. */
  lemma NoChoicesOnlyUsage(acc: Acc, usage: Option<Usage>)
    ensures ChunkStep(acc, Chunk([], usage)) == Next(if usage.Some? then acc.(usage := usage) else acc)
  {
  }

  /** The role of the finished message stays "assistant" whatever roles the
      deltas announce. */
  lemma RoleStaysAssistant(chunks: seq<Chunk>)
    ensures Feed(Fresh, chunks).Drained? ==> Finalise(Feed(Fresh, chunks).acc).message.role == Assistant
  {
  }

  function Fragment(index: int, id: Option<string>, name: Option<string>, args: string): ToolCallDelta {
    ToolCallDelta(index, id, Some(FunctionDelta(name, Some(args))))
  }

  /** Slots 0 and 1 opened, then slot 0 appended by a continuation fragment
      without id or name (well formed, as real streams send them): a
      fragment for slot 3 is a gap, one for slot 1 is accepted. */
  lemma GapExample()
    ensures var open0 := Fragment(0, Some("c0"), Some("ls"), "{");
      var open1 := Fragment(1, Some("c1"), Some("cat"), "{");
      var more0 := Fragment(0, None, None, "}");
      var start := RouteAll([], [open0, open1, more0]);
      && AllWellFormed(0, [open0, open1, more0])
      && start == Routed([ToolCall("c0", "ls", "{{}"), ToolCall("c1", "cat", "{{")])
      && RouteAll(start.calls, [Fragment(3, None, None, "x")]) == Halted(IndexGap(3, 2))
      && RouteAll(start.calls, [Fragment(1, None, None, "}")]) ==
           Routed([ToolCall("c0", "ls", "{{}"), ToolCall("c1", "cat", "{{}")])
  {
    var open0 := Fragment(0, Some("c0"), Some("ls"), "{");
    var open1 := Fragment(1, Some("c1"), Some("cat"), "{");
    var more0 := Fragment(0, None, None, "}");
    var t0 := ToolCall("c0", "ls", "{{");
    var t1 := ToolCall("c1", "cat", "{{");
    assert "{" + "{" == "{{" && "{{" + "}" == "{{}";
    var s1 := Route([], open0);
    assert [] + [t0] == [t0];
    assert s1 == Routed([t0]);
    var s2 := Route([t0], open1);
    assert s2 == Routed([t0, t1]);
    var s3 := Route([t0, t1], more0);
    assert [t0, t1][0 := t0.(arguments := "{{}")] == [ToolCall("c0", "ls", "{{}"), t1];
    assert s3 == Routed([ToolCall("c0", "ls", "{{}"), t1]);
    assert [open0, open1, more0][0] == open0;
    assert [more0][1..] == [];
    assert RouteAll([t0, t1], [more0]) == s3;
    assert RouteAll([t0], [open1, more0]) == s3;
    assert RouteAll([], [open0, open1, more0]) == s3;
    assert [open1, more0][1..] == [more0];
    assert AllWellFormed(2, [more0]) && AllWellFormed(1, [open1, more0]);
  }
}
