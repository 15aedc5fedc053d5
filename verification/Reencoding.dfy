/**
 * Passing an Anthropic stream through the proxy: events are decoded to chunks
 * (`internal/provider/anthropic/anthropic.go`) and encoded as events again
 * (`internal/anthropic/stream.go`), as the streaming handler does
 * (`internal/api/handler/chat.go`). The result says what the original said.
 */
module Reencoding {
  import opened Deployments
  import opened Messages
  import opened ChatMessages
  import opened StreamEncoding
  import opened StreamDecoding

  // ---------- What the decoder keeps in step ----------

  /** Every tool block has an id and a name. */
  ghost predicate NamesTools(e: Event)
  {
    e.BlockStart? && e.kind.ToolBlock? ==> e.kind.id != "" && e.kind.name != ""
  }

  /** The call at position `k` belongs to block `b`. */
  ghost predicate CallOf(calls: seq<Call>, blocks: seq<BlockView>, k: int, b: int)
  {
    && 0 <= k < |calls| && 0 <= b < |blocks| && blocks[b].ToolView?
    && calls[k] == Call(k, blocks[b].tool.id, blocks[b].tool.name, blocks[b].tool.json)
  }

  ghost predicate Ranked(indices: map<int, int>, calls: seq<Call>, blocks: seq<BlockView>)
  {
    && |indices| == |calls|
    && (forall b | b in indices :: CallOf(calls, blocks, indices[b], b))
    && (forall b | 0 <= b < |blocks| && blocks[b].ToolView? :: b in indices)
    && (forall b, c | b in indices && c in indices && b != c :: indices[b] != indices[c])
    && (forall k | 0 <= k < |calls| :: NamedCallAt(calls, k))
    && CallTools(calls) == ToolsOf(blocks)
  }

  ghost predicate NamedCallAt(calls: seq<Call>, k: nat)
    requires k < |calls|
  {
    calls[k].index == k && calls[k].id != "" && calls[k].name != ""
  }

  ghost predicate Counted(t: Memory, v: View)
  {
    t.inputTokens == v.startUsage.input && t.cacheRead == v.startUsage.cacheRead
    && t.cacheWrite == v.startUsage.cacheCreation
  }

  /** The chunks decoded so far add up to what the original stream has said so far. */
  ghost predicate Tracks(t: Memory, m: Message, v: View)
  {
    && (v.phase == Fresh ==> m == NO_MESSAGE && t == NO_MEMORY && v == NOTHING_READ)
    && (v.phase != Fresh ==> m.start == Some(NO_USAGE))
    && Counted(t, v)
    && m.text == TextOf(v.blocks)
    && Ranked(t.toolIndices, m.calls, v.blocks)
    && (v.phase == Open ==> m.finish == "")
    && (v.phase == Closing || v.phase == Done ==>
        m.finish == MapStopReason(v.stopReason) && m.stopSequence == v.stopSequence)
  }

  lemma {:induction false} CallToolsUpdate(calls: seq<Call>, i: nat, c: Call)
    requires i < |calls|
    ensures multiset{CallTool(calls[i])} <= CallTools(calls)
    ensures CallTools(calls[i := c]) == CallTools(calls) - multiset{CallTool(calls[i])} + multiset{CallTool(c)}
  {
    var front, x := calls[..|calls| - 1], calls[|calls| - 1];
    UpdateSplit(calls, i, c);
    CallToolsSnoc(front, x);
    if i == |front| {
      CallToolsSnoc(front, c);
      ReplaceLast(CallTools(front), multiset{CallTool(x)}, multiset{CallTool(c)});
    } else {
      CallToolsUpdate(front, i, c);
      CallToolsSnoc(front[i := c], x);
      Exchange(CallTools(front), multiset{CallTool(calls[i])}, multiset{CallTool(c)}, multiset{CallTool(x)});
    }
  }

  ghost function CallTool(c: Call): Tool
  {
    Tool(c.id, c.name, c.arguments)
  }

  lemma RankIsPosition(calls: seq<Call>, k: nat)
    requires forall i | 0 <= i < |calls| :: NamedCallAt(calls, i)
    ensures Position(calls, k) == if k < |calls| then k else |calls|
  {
    var p := Position(calls, k);
    if p < |calls| {
      assert NamedCallAt(calls, p);
    }
    if k < |calls| {
      assert NamedCallAt(calls, k);
    }
  }

  // ---------- One event ----------

  lemma OneDelta(m: Message, d: Delta)
    requires m.start.Some? && |d.toolCalls| <= 1
    ensures AddChunk(m, DeltaChunk(d)) ==
            if d.toolCalls == [] then Some(m.(text := m.text + d.content))
            else AddCall(m.(text := m.text + d.content), d.toolCalls[0])
  {
    var choice := Choice(0, Some(d), "", None);
    assert AddChoices(m, [choice], 0) == Some(m);
    assert AddChoices(m, [choice], 1) == AddChoice(m, choice);
    var m1 := m.(text := m.text + d.content);
    assert AddCalls(m1, d.toolCalls, 0) == Some(m1);
    if d.toolCalls != [] {
      assert AddCalls(m1, d.toolCalls, 1) == AddCall(m1, d.toolCalls[0]);
    }
  }

  lemma RankedAfterText(indices: map<int, int>, calls: seq<Call>, blocks: seq<BlockView>, i: nat, b: BlockView)
    requires Ranked(indices, calls, blocks)
    requires i < |blocks| && blocks[i].TextView? && b.TextView?
    ensures Ranked(indices, calls, blocks[i := b])
  {
    hide ToolsOf, CallTools;
    var after := blocks[i := b];
    ToolsOfUpdate(blocks, i, b);
    NoTool(ToolsOf(blocks));
    forall c | c in indices
      ensures CallOf(calls, after, indices[c], c)
    {
      assert CallOf(calls, blocks, indices[c], c);
    }
  }

  lemma RankedAfterClose(indices: map<int, int>, calls: seq<Call>, blocks: seq<BlockView>, i: nat, b: BlockView)
    requires Ranked(indices, calls, blocks)
    requires i < |blocks| && b == blocks[i].(open := false)
    ensures Ranked(indices, calls, blocks[i := b])
    ensures TextOf(blocks[i := b]) == TextOf(blocks)
  {
    hide ToolsOf, CallTools, TextOf;
    var after := blocks[i := b];
    ToolsOfUpdate(blocks, i, b);
    ReplaceSame(ToolsOf(blocks), ToolIn(b));
    forall k | 0 <= k < |blocks|
      ensures SameText(after[k], blocks[k])
    {
    }
    TextOfSame(after, blocks);
    forall c | c in indices
      ensures CallOf(calls, after, indices[c], c)
    {
      assert CallOf(calls, blocks, indices[c], c);
    }
  }

  lemma NoTool<T>(m: multiset<T>)
    ensures m - multiset{} + multiset{} == m
  {
  }

  lemma ReplaceSame<T>(m: multiset<T>, a: multiset<T>)
    requires a <= m
    ensures m - a + a == m
  {
  }

  lemma RankedAfterTextStart(indices: map<int, int>, calls: seq<Call>, blocks: seq<BlockView>)
    requires Ranked(indices, calls, blocks)
    ensures Ranked(indices, calls, blocks + [TextView("", true)])
  {
    var after := blocks + [TextView("", true)];
    TextOfSnoc(blocks, TextView("", true));
    forall c | c in indices
      ensures CallOf(calls, after, indices[c], c)
    {
      assert CallOf(calls, blocks, indices[c], c);
    }
  }

  lemma IndicesAreBlocks(indices: map<int, int>, calls: seq<Call>, blocks: seq<BlockView>)
    requires Ranked(indices, calls, blocks)
    ensures forall c | c in indices :: 0 <= c < |blocks| && 0 <= indices[c] < |calls|
  {
    forall c | c in indices
      ensures 0 <= c < |blocks| && 0 <= indices[c] < |calls|
    {
      assert CallOf(calls, blocks, indices[c], c);
    }
  }

  lemma RankedAfterToolStart(
    indices: map<int, int>, calls: seq<Call>, blocks: seq<BlockView>, id: string, name: string)
    requires Ranked(indices, calls, blocks)
    requires id != "" && name != ""
    ensures |blocks| !in indices
    ensures Ranked(
              indices[|blocks| := |calls|],
              calls + [Call(|calls|, id, name, "")],
              blocks + [ToolView(Tool(id, name, ""), true)])
  {
    hide ToolsOf, CallTools;
    var after := blocks + [ToolView(Tool(id, name, ""), true)];
    var more := calls + [Call(|calls|, id, name, "")];
    var ranks := indices[|blocks| := |calls|];
    TextOfSnoc(blocks, ToolView(Tool(id, name, ""), true));
    CallToolsSnoc(calls, Call(|calls|, id, name, ""));
    IndicesAreBlocks(indices, calls, blocks);
    forall c | c in ranks
      ensures CallOf(more, after, ranks[c], c)
    {
      assert c != |blocks| ==> CallOf(calls, blocks, indices[c], c);
    }
    forall k | 0 <= k < |more|
      ensures NamedCallAt(more, k)
    {
      assert k < |calls| ==> NamedCallAt(calls, k);
    }
  }

  lemma RankedAfterJson(
    indices: map<int, int>, calls: seq<Call>, blocks: seq<BlockView>, i: nat, more: string)
    requires Ranked(indices, calls, blocks)
    requires i < |blocks| && blocks[i].ToolView?
    ensures i in indices && 0 <= indices[i] < |calls|
    ensures Ranked(
              indices,
              calls[indices[i] := calls[indices[i]].(arguments := calls[indices[i]].arguments + more)],
              blocks[i := ToolView(blocks[i].tool.(json := blocks[i].tool.json + more), true)])
  {
    hide ToolsOf, CallTools;
    assert CallOf(calls, blocks, indices[i], i);
    var k: nat := indices[i];
    var call := calls[k].(arguments := calls[k].arguments + more);
    var b := ToolView(blocks[i].tool.(json := blocks[i].tool.json + more), true);
    var calls', blocks' := calls[k := call], blocks[i := b];
    ToolsOfUpdate(blocks, i, b);
    CallToolsUpdate(calls, k, call);
    forall c | c in indices
      ensures CallOf(calls', blocks', indices[c], c)
    {
      assert CallOf(calls, blocks, indices[c], c);
    }
    forall n | 0 <= n < |calls'|
      ensures NamedCallAt(calls', n)
    {
      assert NamedCallAt(calls, n);
    }
  }

  // ---------- Each kind of event ----------

  /** The decoder's answer to `e` continues the message as the stream's grammar continues the view. */
  ghost predicate Follows(t: Memory, m: Message, v: View, e: Event)
    requires Feed(v, e).Some?
  {
    var after := Translated(t, Printed(e));
    match after.1
    case None => Tracks(after.0, m, Feed(v, e).value)
    case Some(c) =>
      var next := AddChunk(m, c);
      next.Some? && Tracks(after.0, next.value, Feed(v, e).value)
  }

  lemma StartFollows(t: Memory, m: Message, v: View, e: Event)
    requires Tracks(t, m, v) && e.MessageStart? && Feed(v, e).Some?
    ensures Follows(t, m, v, e)
  {
    var started := Started(NO_MESSAGE, None);
    OneDelta(started, Delta("", []));
    assert AddChunk(NO_MESSAGE, DeltaChunk(Delta("", []))) == AddChunk(started, DeltaChunk(Delta("", [])));
  }

  lemma TextStartFollows(t: Memory, m: Message, v: View, e: Event)
    requires Tracks(t, m, v) && e.BlockStart? && e.kind.TextBlock? && Feed(v, e).Some?
    ensures Follows(t, m, v, e)
  {
    hide Ranked, AddChunk, AddCall, Position, TextOf, Translated, Printed;
    RankedAfterTextStart(t.toolIndices, m.calls, v.blocks);
    TextOfSnoc(v.blocks, TextView("", true));
    assert TextOf(v.blocks) + "" == TextOf(v.blocks);
    TextStartTranslated(t, e.index);
  }

  lemma TextStartTranslated(t: Memory, i: int)
    ensures Translated(t, Printed(BlockStart(i, TextBlock))) == (t, None)
  {
  }

  /** Text only ever arrives for the last text block, so that reading order is block order. */
  ghost predicate TextInOrder(v: View, e: Event)
  {
    e.BlockDelta? && e.delta.TextDelta? ==> NoTextAfter(v.blocks, e.index)
  }

  ghost predicate NoTextAfter(blocks: seq<BlockView>, i: int)
  {
    forall j | 0 <= j < |blocks| && i < j :: blocks[j].ToolView?
  }

  lemma {:induction false} LastTextExtended(blocks: seq<BlockView>, i: nat, more: string)
    requires i < |blocks| && blocks[i].TextView? && NoTextAfter(blocks, i)
    ensures TextOf(blocks[i := TextView(blocks[i].text + more, true)]) == TextOf(blocks) + more
  {
    var front, x := blocks[..|blocks| - 1], blocks[|blocks| - 1];
    var grown := TextView(blocks[i].text + more, true);
    UpdateSplit(blocks, i, grown);
    TextOfSnoc(front, x);
    if i == |front| {
      TextOfSnoc(front, grown);
      TextAppends(TextOf(front), x.text, more);
    } else {
      LastTextExtended(front, i, more);
      TextOfSnoc(front[i := grown], x);
      assert x.ToolView?;
      assert TextOf(front) + more + "" == TextOf(front) + more;
      assert TextOf(front) + "" == TextOf(front);
    }
  }

  lemma TextFollows(t: Memory, m: Message, v: View, e: Event)
    requires Tracks(t, m, v) && e.BlockDelta? && e.delta.TextDelta? && Feed(v, e).Some?
    requires TextInOrder(v, e)
    ensures Follows(t, m, v, e)
  {
    hide Ranked;
    var text := e.delta.text;
    var b := TextView(v.blocks[e.index].text + text, true);
    RankedAfterText(t.toolIndices, m.calls, v.blocks, e.index, b);
    if text == "" {
      assert v.blocks[e.index].text + text == v.blocks[e.index].text;
      assert v.blocks[e.index := b] == v.blocks;
    } else {
      OneDelta(m, Delta(text, []));
      LastTextExtended(v.blocks, e.index, text);
    }
  }

  lemma ToolStartFollows(t: Memory, m: Message, v: View, e: Event)
    requires Tracks(t, m, v) && e.BlockStart? && e.kind.ToolBlock? && Feed(v, e).Some?
    requires NamesTools(e)
    ensures Follows(t, m, v, e)
  {
    var rank := |m.calls|;
    var id, name := e.kind.id, e.kind.name;
    var d := ToolDelta(Some(rank), id, name, "");
    assert |t.toolIndices| == rank;
    RankIsPosition(m.calls, rank);
    ToolStartTranslated(t, e.index, id, name);
    hide Ranked, AddChunk, AddCall, Position, Translated, Printed;
    RankedAfterToolStart(t.toolIndices, m.calls, v.blocks, id, name);
    TextOfSnoc(v.blocks, ToolView(Tool(id, name, ""), true));
    assert TextOf(v.blocks) + "" == TextOf(v.blocks);
    OneToolDelta(m, d);
    NewCall(m, rank, id, name);
  }

  lemma ToolStartTranslated(t: Memory, i: int, id: string, name: string)
    ensures Translated(t, Printed(BlockStart(i, ToolBlock(id, name)))) ==
            (t.(toolIndices := t.toolIndices[i := |t.toolIndices|]),
             Some(DeltaChunk(Delta("", [ToolDelta(Some(|t.toolIndices|), id, name, "")]))))
  {
  }

  lemma OneToolDelta(m: Message, d: ToolDelta)
    requires m.start.Some?
    ensures AddChunk(m, DeltaChunk(Delta("", [d]))) == AddCall(m, d)
  {
    OneDelta(m, Delta("", [d]));
    assert m.text + "" == m.text;
  }

  lemma NewCall(m: Message, rank: nat, id: string, name: string)
    requires Position(m.calls, rank) == |m.calls|
    ensures AddCall(m, ToolDelta(Some(rank), id, name, "")) == Some(m.(calls := m.calls + [Call(rank, id, name, "")]))
  {
    assert "" + id == id && "" + name == name && "" + "" == "";
    assert CallAt(m.calls, rank) == Call(rank, "", "", "");
  }

  lemma ArgumentsGrow(m: Message, rank: nat, more: string)
    requires m.start.Some? && rank < |m.calls| && Position(m.calls, rank) == rank && NamedCallAt(m.calls, rank)
    ensures var c := m.calls[rank];
            AddChunk(m, DeltaChunk(Delta("", [ToolDelta(Some(rank), "", "", more)]))) ==
            Some(m.(calls := m.calls[rank := c.(arguments := c.arguments + more)]))
  {
    hide AddChunk, Position;
    OneToolDelta(m, ToolDelta(Some(rank), "", "", more));
    var c := m.calls[rank];
    assert c.id + "" == c.id && c.name + "" == c.name;
  }

  lemma JsonFollows(t: Memory, m: Message, v: View, e: Event)
    requires Tracks(t, m, v) && e.BlockDelta? && e.delta.JsonDelta? && Feed(v, e).Some?
    ensures Follows(t, m, v, e)
  {
    var i: nat := e.index;
    var more := e.delta.partial;
    RankedAfterJson(t.toolIndices, m.calls, v.blocks, i, more);
    var rank := t.toolIndices[i];
    RankIsPosition(m.calls, rank);
    assert NamedCallAt(m.calls, rank);
    TextAfterTool(v.blocks, i, ToolView(v.blocks[i].tool.(json := v.blocks[i].tool.json + more), true));
    ArgumentsGrow(m, rank, more);
    JsonTranslated(t, i, more);
    hide Ranked, AddChunk, AddCall, Position, TextOf, Translated, Printed;
  }

  lemma JsonTranslated(t: Memory, i: int, more: string)
    requires i in t.toolIndices
    ensures Translated(t, Printed(BlockDelta(i, JsonDelta(more)))) ==
            (t, Some(DeltaChunk(Delta("", [ToolDelta(Some(t.toolIndices[i]), "", "", more)]))))
  {
  }

  lemma CloseFollows(t: Memory, m: Message, v: View, e: Event)
    requires Tracks(t, m, v) && e.BlockStop? && Feed(v, e).Some?
    ensures Follows(t, m, v, e)
  {
    hide Ranked;
    RankedAfterClose(t.toolIndices, m.calls, v.blocks, e.index, v.blocks[e.index].(open := false));
  }

  lemma DeltaFollows(t: Memory, m: Message, v: View, e: Event)
    requires Tracks(t, m, v) && e.MessageDelta? && e.stopReason != "" && Feed(v, e).Some?
    ensures Follows(t, m, v, e)
    ensures Translated(t, Printed(e)).1.Some?
    ensures Translated(t, Printed(e)).1.value.usage == FinalUsage(t, e.usage)
  {
    hide Ranked;
    var choice := Choice(0, Some(Delta("", [])), MapStopReason(e.stopReason), e.stopSequence);
    assert MapStopReason(e.stopReason) != "";
    var ended := m.(finish := MapStopReason(e.stopReason), stopSequence := e.stopSequence);
    assert ended.text + "" == ended.text;
    assert AddCalls(ended, [], 0) == Some(ended);
    assert AddChoices(m, [choice], 0) == Some(m);
    assert AddChoices(m, [choice], 1) == AddChoice(m, choice) == Some(ended);
  }

  /** The decoder follows the stream, one event at a time. */
  lemma EveryEventFollows(t: Memory, m: Message, v: View, e: Event)
    requires Tracks(t, m, v) && Feed(v, e).Some? && !e.MessageStop?
    requires NamesTools(e) && TextInOrder(v, e) && (e.MessageDelta? ==> e.stopReason != "")
    ensures Follows(t, m, v, e)
    ensures var chunk := Translated(t, Printed(e)).1;
            if e.MessageDelta? then chunk.Some? && chunk.value.usage == FinalUsage(t, e.usage)
            else chunk.None? || chunk.value.usage == None
  {
    hide Tracks;
    match e
    case MessageStart(_) => StartFollows(t, m, v, e);
    case BlockStart(_, TextBlock) => TextStartFollows(t, m, v, e);
    case BlockStart(_, ToolBlock(_, _)) => ToolStartFollows(t, m, v, e);
    case BlockDelta(_, TextDelta(_)) => TextFollows(t, m, v, e);
    case BlockDelta(_, JsonDelta(_)) => JsonFollows(t, m, v, e);
    case BlockStop(_) => CloseFollows(t, m, v, e);
    case MessageDelta(_, _, _) => DeltaFollows(t, m, v, e);
    case Ping =>
  }

  // ---------- Whole streams ----------

  ghost predicate Fits(v: View, e: Event)
  {
    NamesTools(e) && TextInOrder(v, e) && (e.MessageDelta? ==> e.stopReason != "")
  }

  /**
   * A stream, possibly cut short, that follows the grammar, names its tools, sends text for the
   * last text block only and gives a stop reason when it ends.
   */
  ghost predicate Readable(events: seq<Event>)
  {
    && Replay(events).Some?
    && forall n | 0 <= n < |events| :: FitsAt(events, n)
  }

  ghost predicate FitsAt(events: seq<Event>, n: nat)
    requires n < |events|
  {
    Replay(events[..n]).Some? && Fits(Replay(events[..n]).value, events[n])
  }

  function PrintedAll(events: seq<Event>): seq<Upstream>
  {
    seq(|events|, i requires 0 <= i < |events| => Printed(events[i]))
  }

  /** The usage a client is told at the end of a stream, from the counts of the original one. */
  ghost function ReportedUsage(v: View): WireUsage
  {
    UsageFromChat(FinalUsage(
      Memory(v.startUsage.input, v.startUsage.cacheRead, v.startUsage.cacheCreation, map[]), v.usage))
  }

  /** `w` says what `v` says. */
  ghost predicate SaysTheSame(v: View, w: View)
  {
    && w.phase == v.phase == Done
    && TextOf(w.blocks) == TextOf(v.blocks)
    && ToolsOf(w.blocks) == ToolsOf(v.blocks)
    && w.stopReason == StopReason(MapStopReason(v.stopReason))
    && w.stopSequence == v.stopSequence
    && w.usage == Some(ReportedUsage(v))
  }

  ghost predicate UsableTools(isObject: string -> bool, v: View)
  {
    forall t | t in ToolsOf(v.blocks) :: ValidInput(isObject, t.json)
  }

  lemma NextEvent(events: seq<Event>, n: nat)
    requires n < |events| && Readable(events)
    ensures Replay(events[..n]).Some? && Fits(Replay(events[..n]).value, events[n])
    ensures Replay(events[..n + 1]) == Feed(Replay(events[..n]).value, events[n])
    ensures Feed(Replay(events[..n]).value, events[n]).Some?
  {
    assert FitsAt(events, n);
    assert events[..n + 1] == events[..n] + [events[n]];
    ReplaySnoc(events[..n], events[n]);
    if n + 1 < |events| {
      assert FitsAt(events, n + 1);
    } else {
      assert events[..n + 1] == events;
    }
  }

  /** Once a stream is done, nothing but pings follows. */
  lemma {:induction false} DoneStays(events: seq<Event>, n: nat)
    requires n <= |events| && Replay(events).Some?
    requires Replay(events[..n]).Some? && Replay(events[..n]).value.phase == Done
    ensures Replay(events) == Replay(events[..n])
    decreases |events| - n
  {
    if n == |events| {
      assert events[..n] == events;
    } else {
      assert events[..n + 1] == events[..n] + [events[n]];
      ReplaySnoc(events[..n], events[n]);
      PrefixReplays(events, n + 1);
      DoneStays(events, n + 1);
    }
  }

  lemma {:induction false} PrefixReplays(events: seq<Event>, n: nat)
    requires n <= |events| && Replay(events).Some?
    ensures Replay(events[..n]).Some?
    decreases |events| - n
  {
    if n == |events| {
      assert events[..n] == events;
    } else {
      PrefixReplays(events, n + 1);
      assert events[..n + 1] == events[..n] + [events[n]];
      ReplaySnoc(events[..n], events[n]);
    }
  }

  lemma {:induction false} ToolOfCall(calls: seq<Call>, i: nat)
    requires i < |calls|
    ensures CallTool(calls[i]) in CallTools(calls)
  {
    CallToolsUpdate(calls, i, calls[i]);
  }

  lemma {:induction false} CallOfTool(calls: seq<Call>, t: Tool) returns (i: nat)
    requires t in CallTools(calls)
    ensures i < |calls| && CallTool(calls[i]) == t
  {
    i := |calls| - 1;
    if CallTool(calls[i]) != t {
      i := CallOfTool(calls[..i], t);
    }
  }

  /** The message can be finished exactly when the tools of the original stream have usable input. */
  lemma CompleteIffUsable(isObject: string -> bool, t: Memory, m: Message, v: View)
    requires Tracks(t, m, v) && v.phase == Closing && v.stopReason != ""
    ensures Complete(isObject, m) <==> UsableTools(isObject, v)
  {
    if UsableTools(isObject, v) {
      forall i | 0 <= i < |m.calls|
        ensures CompleteCall(isObject, m.calls[i])
      {
        ToolOfCall(m.calls, i);
        assert NamedCallAt(m.calls, i);
      }
    }
    if Complete(isObject, m) {
      forall tool | tool in ToolsOf(v.blocks)
        ensures ValidInput(isObject, tool.json)
      {
        var i := CallOfTool(m.calls, tool);
        assert CompleteCall(isObject, m.calls[i]);
      }
    }
  }

  lemma FinishSaysTheSame(t: Memory, m: Message, v: View, usage: Option<Usage>, w: View)
    requires Tracks(t, m, v) && v.phase == Closing
    requires usage == FinalUsage(t, v.usage)
    requires Spells(w, m, usage)
    ensures SaysTheSame(v.(phase := Done), w)
  {
  }

  /**
   * The streaming handler: decode, encode, and finish at the end of the original stream, with the
   * last usage seen. For every readable original stream it succeeds exactly when that stream is
   * complete and its tools have usable input, and what it writes then says the same.
   */
  method Reencode(events: seq<Upstream>, isObject: string -> bool, ghost original: seq<Event>)
    returns (ok: bool, out: seq<Event>)
    requires Readable(original) && events == PrintedAll(original)
    ensures ok <==> Replay(original).value.phase == Done && UsableTools(isObject, Replay(original).value)
    ensures Replay(out).Some?
    ensures ok ==> SaysTheSame(Replay(original).value, Replay(out).value)
    ensures ok ==> EndsInOrder(out, |Replay(out).value.blocks|)
    ensures !ok ==> MessageStop !in out
  {
    hide Tracks, Feed, SaysTheSame, UsableTools, Fits, Spells, AddChunk, Translated, FinalUsage, UsageSoFar, Complete;
    hide EndsInOrder, InStep, StreamEncoder.Valid, StreamEncoder.Written;
    var decoder := new StreamDecoder();
    var encoder := new StreamEncoder(None, isObject);
    var usage: Option<Usage> := None;
    StartTracks();
    for n := 0 to |events|
      invariant fresh(decoder) && fresh(encoder)
      invariant encoder.Valid() && !encoder.finishing && !encoder.broken
      invariant encoder.limit == None && encoder.isObject == isObject
      invariant Replay(original[..n]).Some?
      invariant Tracks(decoder.State(), encoder.seen, Replay(original[..n]).value)
      invariant Replay(original[..n]).value.phase != Done
      invariant usage == UsageSoFar(decoder.State(), Replay(original[..n]).value)
    {
      ghost var t, m, v := decoder.State(), encoder.seen, Replay(original[..n]).value;
      NextEvent(original, n);
      if events[n].kind == "message_stop" {
        StopIsLast(original, n, isObject, t);
        CompleteIffUsable(isObject, t, m, v);
        ok := encoder.Finish(usage);
        out := encoder.out;
        if ok {
          FinishSaysTheSame(t, m, v, usage, Replay(out).value);
        }
        return;
      }
      EveryEventFollows(t, m, v, original[n]);
      PhaseAfter(t, v, original[n]);
      var chunk := decoder.Translate(events[n]);
      if chunk.Some? {
        if chunk.value.usage.Some? {
          usage := chunk.value.usage;
        }
        ok := encoder.WriteChunk(chunk);
        encoder.NotStopped();
        assert ok;
      }
    }
    assert original[..|events|] == original;
    encoder.NotStopped();
    return false, encoder.out;
  }

  /** The stop reasons that both protocol mappings know. */
  predicate SharedReason(reason: string)
  {
    || reason == "end_turn" || reason == "max_tokens" || reason == "tool_use"
    || reason == "stop_sequence" || reason == "pause_turn" || reason == "refusal"
  }

  /** The counts a client of the original stream was told, at its start and at its end. */
  ghost function OriginalUsage(v: View): WireUsage
  {
    v.startUsage.(output := match v.usage case None => 0 case Some(u) => u.output)
  }

  /**
   * The two things that a faithful rendering can still change. The stop reason survives exactly
   * when it is one of the shared ones. The final counts survive exactly when some input or output
   * was counted, or there was nothing to count: cache counts alone are dropped.
   */
  lemma WhatSurvives(v: View, w: View)
    requires SaysTheSame(v, w)
    ensures w.stopReason == v.stopReason <==> SharedReason(v.stopReason)
    ensures w.usage == Some(OriginalUsage(v)) <==>
            OriginalUsage(v).input > 0 || OriginalUsage(v).output > 0 || OriginalUsage(v) == NO_USAGE
  {
    hide TextOf, ToolsOf;
    ReasonSurvives(v.stopReason);
  }

  lemma ReasonSurvives(reason: string)
    ensures StopReason(MapStopReason(reason)) == reason <==> SharedReason(reason)
  {
  }

  lemma StartTracks()
    ensures Replay([]) == Some(NOTHING_READ) && Tracks(NO_MEMORY, NO_MESSAGE, NOTHING_READ)
    ensures UsageSoFar(NO_MEMORY, NOTHING_READ) == None
  {
  }

  /** The usage known so far: that of the message delta, once it has arrived. */
  ghost function UsageSoFar(t: Memory, v: View): Option<Usage>
  {
    if v.phase == Closing then FinalUsage(t, v.usage) else None
  }

  lemma StopIsLast(events: seq<Event>, n: nat, isObject: string -> bool, t: Memory)
    requires n < |events| && Readable(events) && Printed(events[n]).kind == "message_stop"
    ensures Replay(events[..n]).Some? && Replay(events[..n]).value.phase == Closing
    ensures Replay(events) == Some(Replay(events[..n]).value.(phase := Done))
    ensures Replay(events[..n]).value.stopReason != ""
    ensures UsableTools(isObject, Replay(events).value) == UsableTools(isObject, Replay(events[..n]).value)
    ensures UsageSoFar(t, Replay(events[..n]).value) == FinalUsage(t, Replay(events[..n]).value.usage)
  {
    NextEvent(events, n);
    DoneStays(events, n + 1);
    ClosingHasReason(events, n);
  }

  lemma {:induction false} ClosingHasReason(events: seq<Event>, n: nat)
    requires n <= |events| && Readable(events)
    ensures Replay(events[..n]).Some?
    ensures Replay(events[..n]).value.phase == Closing ==> Replay(events[..n]).value.stopReason != ""
  {
    hide Replay, Readable;
    if n > 0 {
      ClosingHasReason(events, n - 1);
      NextEvent(events, n - 1);
    } else {
      StartTracks();
      assert events[..n] == [];
    }
  }

  /** What an event other than the stop does to the phase and to the usage known so far. */
  lemma PhaseAfter(t: Memory, v: View, e: Event)
    requires Feed(v, e).Some? && Printed(e).kind != "message_stop" && v.phase != Done
    ensures !e.MessageStop? && Feed(v, e).value.phase != Done
    ensures var after := Translated(t, Printed(e)).0;
            UsageSoFar(after, Feed(v, e).value) ==
            if e.MessageDelta? then FinalUsage(t, e.usage) else UsageSoFar(t, v)
    ensures e.MessageDelta? ==> UsageSoFar(t, v) == None
  {
  }

  // ---------- The usage that a chat client is told ----------

  /** What the decoder remembers after these events. */
  function Remembered(events: seq<Event>): Memory
  {
    if events == [] then NO_MEMORY
    else Translated(Remembered(events[..|events| - 1]), Printed(events[|events| - 1])).0
  }

  /** The chunk that the decoder gives for one event of a stream. */
  function ChunkAt(events: seq<Event>, n: nat): Option<Chunk>
    requires n < |events|
  {
    Translated(Remembered(events[..n]), Printed(events[n])).1
  }

  lemma {:induction false} RemembersStart(events: seq<Event>)
    requires Replay(events).Some?
    ensures Counted(Remembered(events), Replay(events).value)
  {
    if events != [] {
      RemembersStart(events[..|events| - 1]);
    }
  }

  /**
   * Of a readable stream a chat client is told a usage once, when the message delta arrives, unless
   * neither input nor output was counted. The prompt and both cache counts are those of the stream's
   * start, the completion is the delta's output, and the total is prompt and completion together.
   */
  lemma UsageIsTold(events: seq<Event>, n: nat)
    requires Readable(events) && n < |events|
    ensures Replay(events[..n]).Some?
    ensures var start := Replay(events[..n]).value.startUsage; var chunk := ChunkAt(events, n);
            if events[n].MessageDelta? then
              var output := if events[n].usage.Some? then events[n].usage.value.output else 0;
              && chunk.Some?
              && (chunk.value.usage.Some? <==> start.input > 0 || output > 0)
              && (chunk.value.usage.Some? ==>
                    var told := chunk.value.usage.value;
                    && told.prompt == start.input && told.completion == output
                    && told.total == told.prompt + told.completion
                    && told.cacheRead == start.cacheRead && told.cacheWrite == start.cacheCreation)
            else chunk.Some? ==> chunk.value.usage == None
  {
    hide Replay, Feed, Remembered;
    NextEvent(events, n);
    RemembersStart(events[..n]);
  }

  /** The finish reasons that a chat client is told, and back: the names that the two protocols use. */
  lemma FinishReasons(events: seq<Event>, n: nat)
    requires Readable(events) && n < |events| && events[n].MessageDelta?
    ensures var chunk := ChunkAt(events, n); var reason := events[n].stopReason;
            && chunk.Some? && |chunk.value.choices| == 1 && chunk.value.choices[0].index == 0
            && chunk.value.choices[0].stopSequence == events[n].stopSequence
            && chunk.value.choices[0].finishReason ==
               match reason
               case "end_turn" => "stop"
               case "max_tokens" => "length"
               case "tool_use" => "tool_calls"
               case other => other
  {
    hide Replay, Feed, Remembered;
    NextEvent(events, n);
  }
}
