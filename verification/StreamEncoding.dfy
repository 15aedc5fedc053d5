/**
 * Chat completion chunks to Anthropic message events: `internal/anthropic/stream.go`.
 *
 * Events are written as soon as a chunk arrives. Text and tool blocks are left open until the
 * end, because tool arguments may arrive interleaved; `Finish` closes all of them.
 */
module StreamEncoding {
  import opened Deployments
  import opened Messages
  import opened ChatMessages

  datatype StreamTool = StreamTool(index: nat, id: string, name: string, arguments: string, started: bool)

  const NEW_TOOL := StreamTool(0, "", "", "", false)

  /** The encoder's bookkeeping. Tools are found by their position in `toolOrder`. */
  datatype Fields = Fields(
    started: bool,
    nextIndex: nat,
    textIndex: int,
    tools: map<int, nat>,
    toolOrder: seq<StreamTool>,
    finish: string,
    stopSequence: Option<string>)

  // ---------- How the bookkeeping, the events written and the message read agree ----------

  ghost predicate SameCall(t: StreamTool, c: Call)
  {
    t.id == c.id && t.name == c.name && t.arguments == c.arguments
  }

  ghost predicate CallsInStep(tools: map<int, nat>, order: seq<StreamTool>, calls: seq<Call>)
  {
    && |order| == |calls|
    && (forall i | 0 <= i < |calls| :: SameCall(order[i], calls[i]))
    && (forall k | k in tools :: tools[k] < |calls| && calls[tools[k]].index == k)
    && (forall i | 0 <= i < |calls| :: calls[i].index in tools && tools[calls[i].index] == i)
  }

  ghost predicate ToolInStep(t: StreamTool, blocks: seq<BlockView>)
  {
    if t.started then
      && t.index < |blocks|
      && blocks[t.index] == ToolView(Tool(t.id, t.name, t.arguments), true)
      && t.id != "" && t.name != ""
    else
      t.arguments == ""
  }

  ghost predicate ToolAt(order: seq<StreamTool>, blocks: seq<BlockView>, i: nat)
    requires i < |order|
  {
    ToolInStep(order[i], blocks)
  }

  /** Two tools that both have a block have different blocks. */
  ghost predicate Apart(order: seq<StreamTool>, i: nat, j: nat)
    requires i < |order| && j < |order|
  {
    order[i].started && order[j].started ==> order[i].index != order[j].index
  }

  ghost function StartedTools(order: seq<StreamTool>): multiset<Tool>
  {
    if order == [] then multiset{}
    else StartedTools(order[..|order| - 1]) + StartedTool(order[|order| - 1])
  }

  ghost function StartedTool(t: StreamTool): multiset<Tool>
  {
    if t.started then multiset{Tool(t.id, t.name, t.arguments)} else multiset{}
  }

  ghost predicate BlocksInStep(order: seq<StreamTool>, blocks: seq<BlockView>)
  {
    && (forall i | 0 <= i < |order| :: ToolAt(order, blocks, i))
    && (forall i, j | 0 <= i < j < |order| :: Apart(order, i, j))
    && ToolsOf(blocks) == StartedTools(order)
  }

  ghost predicate TextInStep(f: Fields, blocks: seq<BlockView>, text: string)
  {
    && f.nextIndex == |blocks|
    && -1 <= f.textIndex
    && (f.textIndex >= 0 ==> f.textIndex == |blocks| - 1 && blocks[f.textIndex].TextView?)
    && TextOf(blocks) == text
  }

  ghost predicate HeaderInStep(f: Fields, v: View, m: Message)
  {
    && v.phase == (if f.started then Open else Fresh)
    && (f.started <==> m.start.Some?)
    && (f.started ==> v.startUsage == m.start.value)
    && f.finish == m.finish && f.stopSequence == m.stopSequence
    && (m.finish != "" ==> f.started)
    && (v.blocks != [] ==> f.started)
  }

  ghost predicate InStep(f: Fields, v: View, m: Message)
  {
    && HeaderInStep(f, v, m)
    && TextInStep(f, v.blocks, m.text)
    && AllOpen(v.blocks)
    && CallsInStep(f.tools, f.toolOrder, m.calls)
    && BlocksInStep(f.toolOrder, v.blocks)
  }

  /** Before `Finish` a tool block is open exactly when some of its arguments have arrived. */
  ghost predicate StartedByArguments(order: seq<StreamTool>)
  {
    forall i | 0 <= i < |order| :: order[i].started <==> order[i].arguments != ""
  }

  lemma StartedToolsSnoc(order: seq<StreamTool>, t: StreamTool)
    ensures StartedTools(order + [t]) == StartedTools(order) + StartedTool(t)
  {
    assert (order + [t])[..|order|] == order;
  }

  lemma {:induction false} StartedToolsUpdate(order: seq<StreamTool>, i: nat, t: StreamTool)
    requires i < |order|
    ensures StartedTool(order[i]) <= StartedTools(order)
    ensures StartedTools(order[i := t]) == StartedTools(order) - StartedTool(order[i]) + StartedTool(t)
  {
    var front, x := order[..|order| - 1], order[|order| - 1];
    UpdateSplit(order, i, t);
    StartedToolsSnoc(front, x);
    if i == |front| {
      StartedToolsSnoc(front, t);
      ReplaceLast(StartedTools(front), StartedTool(x), StartedTool(t));
    } else {
      StartedToolsUpdate(front, i, t);
      StartedToolsSnoc(front[i := t], x);
      Exchange(StartedTools(front), StartedTool(order[i]), StartedTool(t), StartedTool(x));
    }
  }

  lemma BlocksAfterAppend(order: seq<StreamTool>, blocks: seq<BlockView>, b: BlockView)
    requires BlocksInStep(order, blocks) && b.TextView?
    ensures BlocksInStep(order, blocks + [b])
  {
    TextOfSnoc(blocks, b);
    forall i | 0 <= i < |order|
      ensures ToolAt(order, blocks + [b], i)
    {
      assert ToolAt(order, blocks, i);
    }
  }

  lemma BlocksAfterText(order: seq<StreamTool>, blocks: seq<BlockView>, at: nat, b: BlockView)
    requires at < |blocks| && blocks[at].TextView? && b.TextView?
    requires BlocksInStep(order, blocks)
    ensures BlocksInStep(order, blocks[at := b])
  {
    hide Apart, ToolsOf, StartedTools;
    var after := blocks[at := b];
    ToolsOfUpdate(blocks, at, b);
    forall i | 0 <= i < |order|
      ensures ToolAt(order, after, i)
    {
      assert ToolAt(order, blocks, i);
    }
  }

  lemma LastTextGrows(blocks: seq<BlockView>, more: string)
    requires blocks != [] && blocks[|blocks| - 1].TextView?
    ensures TextOf(blocks[|blocks| - 1 := TextView(blocks[|blocks| - 1].text + more, true)]) == TextOf(blocks) + more
  {
    var last: nat := |blocks| - 1;
    var grown := TextView(blocks[last].text + more, true);
    UpdateSplit(blocks, last, grown);
    TextOfSnoc(blocks[..last], blocks[last]);
    TextOfSnoc(blocks[..last], grown);
    TextAppends(TextOf(blocks[..last]), blocks[last].text, more);
  }

  lemma TextAppends(a: string, b: string, c: string)
    ensures a + b + c == a + (b + c)
  {
  }

  /** Noting a finish reason once the message has started. */
  lemma FinishNoted(f: Fields, v: View, m: Message, reason: string, sequence: Option<string>)
    requires InStep(f, v, m) && f.started
    ensures InStep(f.(finish := reason, stopSequence := sequence), v, m.(finish := reason, stopSequence := sequence))
  {
  }

  /** Opening a text block. */
  lemma TextStarts(f: Fields, v: View, m: Message)
    requires InStep(f, v, m) && f.started && f.textIndex < 0
    ensures Feed(v, BlockStart(f.nextIndex, TextBlock)).Some?
    ensures InStep(f.(textIndex := f.nextIndex, nextIndex := f.nextIndex + 1),
                   Feed(v, BlockStart(f.nextIndex, TextBlock)).value, m)
  {
    TextOfSnoc(v.blocks, TextView("", true));
    BlocksAfterAppend(f.toolOrder, v.blocks, TextView("", true));
  }

  /** Text added to the open text block, which is the last block. */
  lemma TextGrows(f: Fields, v: View, m: Message, text: string)
    requires InStep(f, v, m) && f.textIndex >= 0
    ensures Feed(v, BlockDelta(f.textIndex, TextDelta(text))).Some?
    ensures InStep(f, Feed(v, BlockDelta(f.textIndex, TextDelta(text))).value, m.(text := m.text + text))
  {
    LastTextGrows(v.blocks, text);
    BlocksAfterText(f.toolOrder, v.blocks, f.textIndex, TextView(v.blocks[f.textIndex].text + text, true));
  }

  // ---------- Tools ----------

  /** Appending a tool without a block. */
  lemma ToolAppended(order: seq<StreamTool>, blocks: seq<BlockView>)
    requires BlocksInStep(order, blocks)
    ensures BlocksInStep(order + [NEW_TOOL], blocks)
  {
    var more := order + [NEW_TOOL];
    StartedToolsSnoc(order, NEW_TOOL);
    forall i | 0 <= i < |more|
      ensures ToolAt(more, blocks, i)
    {
      assert i < |order| ==> ToolAt(order, blocks, i);
    }
    forall i, j | 0 <= i < j < |more|
      ensures Apart(more, i, j)
    {
      assert j < |order| ==> Apart(order, i, j);
    }
  }

  /** Changing one tool keeps the others in step if their blocks stay and no block gets two owners. */
  lemma ToolChanged(order: seq<StreamTool>, blocks: seq<BlockView>, p: nat, t: StreamTool, after: seq<BlockView>)
    requires BlocksInStep(order, blocks)
    requires p < |order| && ToolInStep(t, after)
    requires |blocks| <= |after|
    requires forall k | 0 <= k < |blocks| && !(t.started && k == t.index) :: after[k] == blocks[k]
    requires t.started ==> t.index >= |blocks| || (order[p].started && t.index == order[p].index)
    requires ToolsOf(after) == ToolsOf(blocks) - StartedTool(order[p]) + StartedTool(t)
    ensures BlocksInStep(order[p := t], after)
  {
    var changed := order[p := t];
    StartedToolsUpdate(order, p, t);
    forall i | 0 <= i < |order| && i != p
      ensures ToolAt(changed, after, i) && Apart(changed, i, p) && Apart(changed, p, i)
    {
      assert ToolAt(order, blocks, i);
      assert if i < p then Apart(order, i, p) else Apart(order, p, i);
    }
    forall i, j | 0 <= i < j < |order|
      ensures Apart(changed, i, j)
    {
      assert Apart(order, i, j);
    }
  }

  lemma ToolNamed(order: seq<StreamTool>, blocks: seq<BlockView>, p: nat, t: StreamTool)
    requires BlocksInStep(order, blocks)
    requires p < |order| && !order[p].started && !t.started && t.arguments == ""
    ensures BlocksInStep(order[p := t], blocks)
  {
    ToolChanged(order, blocks, p, t, blocks);
  }

  lemma ToolOpened(order: seq<StreamTool>, blocks: seq<BlockView>, p: nat, t: StreamTool)
    requires BlocksInStep(order, blocks)
    requires p < |order| && !order[p].started
    requires t == order[p].(index := |blocks|, started := true) && t.id != "" && t.name != ""
    ensures BlocksInStep(order[p := t], blocks + [ToolView(Tool(t.id, t.name, ""), true)])
  {
    var b := ToolView(Tool(t.id, t.name, ""), true);
    assert ToolAt(order, blocks, p);
    TextOfSnoc(blocks, b);
    ToolChanged(order, blocks, p, t, blocks + [b]);
  }

  lemma ToolFed(order: seq<StreamTool>, blocks: seq<BlockView>, p: nat, t: StreamTool)
    requires BlocksInStep(order, blocks)
    requires p < |order| && order[p].started && order[p].index < |blocks|
    requires t == order[p].(arguments := t.arguments)
    ensures BlocksInStep(order[p := t], blocks[t.index := ToolView(Tool(t.id, t.name, t.arguments), true)])
  {
    var b := ToolView(Tool(t.id, t.name, t.arguments), true);
    assert ToolAt(order, blocks, p);
    ToolsOfUpdate(blocks, t.index, b);
    ToolChanged(order, blocks, p, t, blocks[t.index := b]);
  }

  /** A tool seen for the first time is appended, unnamed and without a block. */
  lemma ToolAppears(f: Fields, v: View, m: Message, index: int)
    requires InStep(f, v, m) && index !in f.tools
    ensures Position(m.calls, index) == |m.calls|
    ensures InStep(f.(tools := f.tools[index := |f.toolOrder|], toolOrder := f.toolOrder + [NEW_TOOL]), v,
                   m.(calls := m.calls + [Call(index, "", "", "")]))
  {
    ToolAppended(f.toolOrder, v.blocks);
    CallsAfterAppend(f.tools, f.toolOrder, m.calls, index);
  }

  lemma CallsAfterAppend(tools: map<int, nat>, order: seq<StreamTool>, calls: seq<Call>, index: int)
    requires CallsInStep(tools, order, calls) && index !in tools
    ensures Position(calls, index) == |calls|
    ensures CallsInStep(tools[index := |order|], order + [NEW_TOOL], calls + [Call(index, "", "", "")])
  {
    assert forall i | 0 <= i < |calls| :: calls[i].index in tools;
  }

  lemma CallsAfterUpdate(
    tools: map<int, nat>, order: seq<StreamTool>, calls: seq<Call>, p: nat, t: StreamTool, c: Call)
    requires CallsInStep(tools, order, calls)
    requires p < |calls| && SameCall(t, c) && c.index == calls[p].index
    ensures CallsInStep(tools, order[p := t], calls[p := c])
  {
  }

  /** A known upstream index leads to the call that uses it. */
  lemma CallsLookup(tools: map<int, nat>, order: seq<StreamTool>, calls: seq<Call>, index: int)
    requires CallsInStep(tools, order, calls) && index in tools
    ensures Position(calls, index) == tools[index] < |calls|
  {
    var p := Position(calls, index);
    assert calls[tools[index]].index == index;
    assert p <= tools[index];
    assert tools[calls[p].index] == p;
  }

  lemma NewCall(calls: seq<Call>, index: int)
    requires Position(calls, index) == |calls|
    ensures CallAt(calls, index) == Call(index, "", "", "")
    ensures PutCall(calls, CallAt(calls, index)) == calls + [Call(index, "", "", "")]
    ensures SameCall(NEW_TOOL, CallAt(calls, index))
  {
    hide Position;
  }

  /** What is known after a tool has been appended. */
  lemma AppearedTool(f: Fields, v: View, m: Message, index: int)
    requires InStep(f, v, m) && index !in f.tools && StartedByArguments(f.toolOrder)
    ensures var p := |f.toolOrder|; var calls := m.calls + [Call(index, "", "", "")];
            && InStep(f.(tools := f.tools[index := p], toolOrder := f.toolOrder + [NEW_TOOL]), v, m.(calls := calls))
            && StartedByArguments(f.toolOrder + [NEW_TOOL])
            && p == Position(calls, index)
            && PutCall(m.calls, CallAt(m.calls, index)) == calls
            && SameCall(NEW_TOOL, CallAt(m.calls, index))
  {
    hide PutCall, CallAt, Position, TextInStep, HeaderInStep, AllOpen, BlocksInStep;
    ToolAppears(f, v, m, index);
    NewCall(m.calls, index);
    CallsLookup(f.tools[index := |f.toolOrder|], f.toolOrder + [NEW_TOOL], m.calls + [Call(index, "", "", "")], index);
  }

  lemma FoundTool(f: Fields, v: View, m: Message, index: int)
    requires InStep(f, v, m) && index in f.tools
    ensures Position(m.calls, index) == f.tools[index] < |f.toolOrder|
    ensures PutCall(m.calls, CallAt(m.calls, index)) == m.calls
    ensures SameCall(f.toolOrder[f.tools[index]], CallAt(m.calls, index))
  {
    KnownCall(f.tools, f.toolOrder, m.calls, index);
  }

  lemma KnownCall(tools: map<int, nat>, order: seq<StreamTool>, calls: seq<Call>, index: int)
    requires CallsInStep(tools, order, calls) && index in tools
    ensures Position(calls, index) == tools[index] < |order|
    ensures PutCall(calls, CallAt(calls, index)) == calls
    ensures SameCall(order[tools[index]], CallAt(calls, index))
  {
    CallsLookup(tools, order, calls, index);
    var p := tools[index];
    assert calls[p].index == index && calls[p := calls[p]] == calls;
    hide Position;
  }

  // ---------- The encoder ----------

  /** Whether `Finish` accepts the message: it has ended, and every tool is named and has usable input. */
  ghost predicate Complete(isObject: string -> bool, m: Message)
  {
    m.finish != "" && forall i | 0 <= i < |m.calls| :: CompleteCall(isObject, m.calls[i])
  }

  ghost predicate CompleteCall(isObject: string -> bool, c: Call)
  {
    ValidInput(isObject, c.arguments) && c.id != "" && c.name != ""
  }

  /** The first `n` events stop neither a block nor the message. */
  ghost predicate NothingStopped(events: seq<Event>, n: nat)
    requires n <= |events|
  {
    forall i | 0 <= i < n :: !events[i].BlockStop? && !events[i].MessageDelta? && !events[i].MessageStop?
  }

  /**
   * The events close every one of `n` blocks once, in order, at the very end, followed by the
   * final message delta and the stop.
   */
  ghost predicate EndsInOrder(events: seq<Event>, n: nat)
  {
    && |events| >= n + 2
    && NothingStopped(events, |events| - n - 2)
    && (forall i | 0 <= i < n :: events[|events| - n - 2 + i] == BlockStop(i))
    && events[|events| - 2].MessageDelta?
    && events[|events| - 1] == MessageStop
  }

  class StreamEncoder {
    var started: bool
    var nextIndex: nat
    var textIndex: int
    var tools: map<int, nat>
    var toolOrder: seq<StreamTool>
    var finish: string
    var stopSequence: Option<string>

    /** The events the writer has taken. A writer that fails once keeps failing. */
    var out: seq<Event>
    const limit: Option<nat>

    const isObject: string -> bool

    ghost var seen: Message
    ghost var broken: bool
    ghost var finishing: bool

    constructor (limit: Option<nat>, isObject: string -> bool)
      ensures Valid() && !broken && !finishing
      ensures out == [] && seen == NO_MESSAGE
      ensures this.limit == limit && this.isObject == isObject
    {
      started, nextIndex, textIndex := false, 0, -1;
      tools, toolOrder := map[], [];
      finish, stopSequence := "", None;
      out := [];
      this.limit, this.isObject := limit, isObject;
      seen, broken, finishing := NO_MESSAGE, false, false;
    }

    ghost function State(): Fields
      reads this
    {
      Fields(started, nextIndex, textIndex, tools, toolOrder, finish, stopSequence)
    }

    /** What a client has read so far. */
    ghost function Read(): View
      requires Replay(out).Some?
      reads this
    {
      Replay(out).value
    }

    /** The events follow the grammar and nothing has been stopped; a refused write means a full writer. */
    ghost predicate Written()
      reads this
    {
      && Replay(out).Some?
      && (Read().phase == Fresh || Read().phase == Open)
      && NothingStopped(out, |out|)
      && (limit.Some? ==> |out| <= limit.value)
      && (broken ==> limit == Some(|out|))
    }

    ghost predicate Valid()
      reads this
    {
      && Written()
      && (!broken ==> InStep(State(), Read(), seen))
      && (!broken && !finishing ==> StartedByArguments(toolOrder))
    }

    lemma NotStopped()
      requires Valid()
      ensures Replay(out).Some? && MessageStop !in out
      ensures broken ==> limit.Some?
    {
    }

    /** Writes one event; fails when the writer is full. */
    method Emit(e: Event) returns (ok: bool)
      requires Replay(out).Some? && Feed(Read(), e).Some?
      requires limit.Some? ==> |out| <= limit.value
      modifies this`out, this`broken
      ensures ok ==> out == old(out) + [e] && Replay(out) == Feed(old(Read()), e) && broken == old(broken)
      ensures !ok ==> out == old(out) && broken && limit == Some(|out|)
      ensures limit.Some? ==> |out| <= limit.value
    {
      if limit.Some? && |out| >= limit.value {
        broken := true;
        return false;
      }
      ReplaySnoc(out, e);
      out := out + [e];
      return true;
    }

    method Start(usage: Option<Usage>) returns (ok: bool)
      requires Valid() && !broken
      modifies this`started, this`out, this`broken, this`seen
      ensures Valid() && ok == !broken
      ensures ok ==> started && seen == Started(old(seen), usage)
    {
      hide InStep, Feed, Started, UsageFromChat;
      if started {
        AlreadyStarted(State(), Read(), seen, usage);
        return true;
      }
      MessageStarts(State(), Read(), seen, usage);
      started := true;
      var u := UsageFromChat(usage).(output := 0);
      seen := Started(seen, usage);
      ok := Emit(MessageStart(u));
    }

    /** Opens the block of the tool at position `p`; fails when its id or name is still missing. */
    method StartTool(p: nat) returns (ok: bool)
      requires Written() && !broken && InStep(State(), Read(), seen) && started
      requires p < |toolOrder|
      modifies this`nextIndex, this`textIndex, this`toolOrder, this`out, this`broken
      ensures Written() && (!broken ==> InStep(State(), Read(), seen))
      ensures |toolOrder| == |old(toolOrder)|
      ensures ok ==> !broken && toolOrder[p].started && toolOrder == old(toolOrder)[p := toolOrder[p]]
      ensures !ok && !broken ==> toolOrder == old(toolOrder)
      ensures !broken ==> (ok <==> (old(toolOrder[p]).id != "" && old(toolOrder[p]).name != ""))
    {
      hide InStep;
      var tool := toolOrder[p];
      if tool.started {
        StartedIsNamed(State(), Read(), seen, p);
        return true;
      }
      if tool.id == "" || tool.name == "" {
        return false;
      }
      ghost var before, view := State(), Read();
      var placed := tool.(index := nextIndex, started := true);
      nextIndex := nextIndex + 1;
      toolOrder := toolOrder[p := placed];
      textIndex := -1;
      ToolStarts(before, view, seen, p);
      ok := Emit(BlockStart(placed.index, ToolBlock(placed.id, placed.name)));
    }

    /** The position of the tool with an upstream index, which is new if the index is. */
    method FindTool(index: int) returns (p: nat)
      requires Valid() && !finishing && !broken
      modifies this`tools, this`toolOrder, this`seen
      ensures Valid() && p < |toolOrder| && p == Position(seen.calls, index)
      ensures seen == old(seen).(calls := PutCall(old(seen).calls, CallAt(old(seen).calls, index)))
      ensures SameCall(toolOrder[p], CallAt(old(seen).calls, index))
    {
      hide Position, CallAt, PutCall, Replay, InStep, StartedByArguments, SameCall;
      if index !in tools {
        AppearedTool(State(), Read(), seen, index);
        p := |toolOrder|;
        tools := tools[index := p];
        toolOrder := toolOrder + [NEW_TOOL];
        seen := seen.(calls := seen.calls + [Call(index, "", "", "")]);
      } else {
        p := tools[index];
        FoundTool(State(), Read(), seen, index);
      }
    }

    /** Adds to the id and name of a tool without a block. */
    method NameTool(p: nat, id: string, name: string)
      requires Valid() && !finishing && !broken
      requires p < |toolOrder| && !toolOrder[p].started
      modifies this`toolOrder, this`seen
      ensures Valid() && |toolOrder| == |old(toolOrder)|
      ensures toolOrder[p] == old(toolOrder[p]).(id := old(toolOrder[p]).id + id, name := old(toolOrder[p]).name + name)
      ensures |old(seen).calls| == |toolOrder|
      ensures var c := old(seen).calls[p];
              seen == old(seen).(calls := old(seen).calls[p := c.(id := c.id + id, name := c.name + name)])
    {
      var tool := toolOrder[p];
      var named := tool.(id := tool.id + id, name := tool.name + name);
      var c := seen.calls[p];
      var call := c.(id := c.id + id, name := c.name + name);
      assert ToolAt(toolOrder, Read().blocks, p);
      ToolNamed(toolOrder, Read().blocks, p, named);
      CallsAfterUpdate(tools, toolOrder, seen.calls, p, named, call);
      toolOrder := toolOrder[p := named];
      seen := seen.(calls := seen.calls[p := call]);
    }

    /** Adds argument text to a tool, opening its block first; fails when its id or name is missing. */
    method FeedTool(p: nat, arguments: string) returns (ok: bool)
      requires Valid() && !finishing && !broken && started
      requires p < |toolOrder| && arguments != ""
      modifies this`nextIndex, this`textIndex, this`toolOrder, this`out, this`broken, this`seen
      ensures Valid() && (ok ==> !broken)
      ensures |old(seen).calls| == |old(toolOrder)|
      ensures ok ==> seen == Fed(old(seen), p, arguments)
      ensures !broken ==> (ok <==> (old(seen).calls[p].id != "" && old(seen).calls[p].name != ""))
    {
      hide InStep, Fed;
      ghost var order := toolOrder;
      CallFacts(State(), Read(), seen, p);
      ok := StartTool(p);
      if !ok {
        return;
      }
      var tool := toolOrder[p];
      ToolGrows(State(), Read(), seen, p, arguments);
      ArgumentsStart(order, toolOrder, p, arguments);
      toolOrder := toolOrder[p := tool.(arguments := tool.arguments + arguments)];
      seen := Fed(seen, p, arguments);
      ok := Emit(BlockDelta(tool.index, JsonDelta(arguments)));
    }

    /** One tool delta of a chunk. */
    method WriteCall(d: ToolDelta) returns (ok: bool)
      requires Valid() && !finishing && !broken && started
      modifies this
      ensures Valid() && !finishing
      ensures ok ==> !broken && started && AddCall(old(seen), d) == Some(seen)
      ensures !ok && !broken ==> AddCall(old(seen), d) == None
    {
      hide InStep, AddCall;
      ghost var m := seen;
      var p := FindTool(DeltaIndex(d));
      ghost var found := seen;
      PutAtPosition(m.calls, found.calls, DeltaIndex(d));
      CallFacts(State(), Read(), seen, p);
      CallSteps(m, found, d, p);
      if toolOrder[p].started && (d.id != "" || d.name != "") {
        return false;
      }
      if !toolOrder[p].started {
        NameTool(p, d.id, d.name);
      } else {
        assert seen.calls[p].id + d.id == seen.calls[p].id;
        assert seen.calls[p].name + d.name == seen.calls[p].name;
        assert seen.calls[p := seen.calls[p]] == seen.calls;
      }
      assert seen == NamedCall(found, p, d.id, d.name);
      ok := true;
      if d.arguments != "" {
        ok := FeedTool(p, d.arguments);
      }
    }

    /** Text of a chunk, in a new text block when a tool block was opened since the last text. */
    method WriteText(text: string) returns (ok: bool)
      requires Valid() && !finishing && !broken && started
      modifies this`textIndex, this`nextIndex, this`out, this`broken, this`seen
      ensures Valid() && ok == !broken
      ensures ok ==> seen == old(seen).(text := old(seen).text + text)
    {
      hide InStep;
      if textIndex < 0 {
        TextStarts(State(), Read(), seen);
        textIndex := nextIndex;
        nextIndex := nextIndex + 1;
        ok := Emit(BlockStart(textIndex, TextBlock));
        if !ok {
          return;
        }
      }
      TextGrows(State(), Read(), seen, text);
      seen := seen.(text := seen.text + text);
      ok := Emit(BlockDelta(textIndex, TextDelta(text)));
    }

    method WriteCalls(calls: seq<ToolDelta>) returns (ok: bool)
      requires Valid() && !finishing && !broken && started
      modifies this
      ensures Valid() && !finishing
      ensures ok ==> !broken && started && AddCalls(old(seen), calls, |calls|) == Some(seen)
      ensures !ok && !broken ==> AddCalls(old(seen), calls, |calls|) == None
    {
      hide InStep, Written;
      for n := 0 to |calls|
        invariant Valid() && !finishing && !broken && started
        invariant AddCalls(old(seen), calls, n) == Some(seen)
      {
        ok := WriteCall(calls[n]);
        if !ok {
          if !broken {
            CallsStayRejected(old(seen), calls, n + 1, |calls|);
          }
          return;
        }
      }
      return true;
    }

    method WriteChoice(choice: Choice) returns (ok: bool)
      requires Valid() && !finishing && !broken && started
      modifies this
      ensures Valid() && !finishing
      ensures ok ==> !broken && started && AddChoice(old(seen), choice) == Some(seen)
      ensures !ok && !broken ==> AddChoice(old(seen), choice) == None
    {
      hide InStep;
      if choice.index != 0 {
        return true;
      }
      if choice.finishReason != "" {
        FinishNoted(State(), Read(), seen, choice.finishReason, choice.stopSequence);
        finish := choice.finishReason;
        stopSequence := choice.stopSequence;
        seen := seen.(finish := choice.finishReason, stopSequence := choice.stopSequence);
      }
      if choice.delta.None? {
        return true;
      }
      var delta := choice.delta.value;
      ghost var ended := seen;
      if delta.content != "" {
        ok := WriteText(delta.content);
        if !ok {
          return;
        }
      } else {
        assert seen.text + delta.content == seen.text;
      }
      assert seen == ended.(text := ended.text + delta.content);
      ok := WriteCalls(delta.toolCalls);
    }

    /**
     * Writes the events of one chunk. Unless the writer breaks, it succeeds exactly when the chunk
     * keeps the rules for tool identity, and then the message read so far is extended by the chunk.
     */
    method WriteChunk(chunk: Option<Chunk>) returns (ok: bool)
      requires Valid() && !finishing && !broken
      modifies this
      ensures Valid() && !finishing
      ensures ok ==> !broken && chunk.Some? && AddChunk(old(seen), chunk.value) == Some(seen)
      ensures !ok && !broken ==> chunk == None || AddChunk(old(seen), chunk.value) == None
    {
      if chunk.None? {
        return false;
      }
      ok := Start(chunk.value.usage);
      if !ok {
        return;
      }
      ghost var m := seen;
      var choices := chunk.value.choices;
      for n := 0 to |choices|
        invariant Valid() && !finishing && !broken && started
        invariant AddChoices(m, choices, n) == Some(seen)
      {
        ok := WriteChoice(choices[n]);
        if !ok {
          if !broken {
            ChoicesStayRejected(m, choices, n + 1, |choices|);
          }
          return;
        }
      }
      return true;
    }

    /** The first loop of `Finish`: every tool is checked and has a block. */
    method StartRemainingTools() returns (ok: bool)
      requires Valid() && !broken && started
      modifies this`nextIndex, this`textIndex, this`toolOrder, this`out, this`broken
      ensures Written()
      ensures ok ==> !broken && InStep(State(), Read(), seen)
      ensures ok ==> forall i | 0 <= i < |toolOrder| :: toolOrder[i].started
      ensures ok ==> forall i | 0 <= i < |seen.calls| :: CompleteCall(isObject, seen.calls[i])
      ensures !ok && !broken ==> exists i | 0 <= i < |seen.calls| :: !CompleteCall(isObject, seen.calls[i])
    {
      hide InStep, Replay, ValidInput;
      AsManyCalls(State(), Read(), seen);
      for n := 0 to |toolOrder|
        invariant Written() && !broken && started && InStep(State(), Read(), seen)
        invariant |toolOrder| == |old(toolOrder)| == |seen.calls|
        invariant forall i | 0 <= i < n :: toolOrder[i].started && CompleteCall(isObject, seen.calls[i])
      {
        CallFacts(State(), Read(), seen, n);
        if !ValidInput(isObject, toolOrder[n].arguments) {
          assert !CompleteCall(isObject, seen.calls[n]);
          return false;
        }
        ok := StartTool(n);
        if !ok {
          assert broken || !CompleteCall(isObject, seen.calls[n]);
          return;
        }
      }
      return true;
    }

    /** The second loop of `Finish`: every block is stopped, in order. */
    method StopBlocks() returns (ok: bool)
      requires Written() && !broken && started && InStep(State(), Read(), seen)
      modifies this`out, this`broken
      ensures Replay(out).Some? && MessageStop !in out
      ensures limit.Some? ==> |out| <= limit.value
      ensures ok == !broken
      ensures ok ==> Read() == old(Read()).(blocks := ClosedUpTo(old(Read()).blocks, |old(Read()).blocks|))
      ensures ok ==> out == old(out) + Stops(nextIndex)
      ensures !ok ==> limit.Some?
    {
      ghost var before := Read();
      NoneClosed(before.blocks);
      hide InStep, ClosedUpTo, Stops, Feed;
      NoStops();
      for index := 0 to nextIndex
        invariant Replay(out).Some? && !broken
        invariant limit.Some? ==> |out| <= limit.value
        invariant Read() == before.(blocks := ClosedUpTo(before.blocks, index))
        invariant out == old(out) + Stops(index)
      {
        CloseNext(before, index);
        ok := Emit(BlockStop(index));
        if !ok {
          return;
        }
      }
      return true;
    }

    /**
     * Ends the stream. With a writer that does not break it succeeds exactly for a complete message,
     * and then a client has read that message: its text, its tools, its stop reason and usage.
     * When it fails, no stop was written.
     */
    method Finish(usage: Option<Usage>) returns (ok: bool)
      requires Valid() && !finishing && !broken
      modifies this
      ensures finishing && Replay(out).Some?
      ensures !ok ==> MessageStop !in out
      ensures ok ==> Complete(isObject, old(seen))
      ensures Complete(isObject, old(seen)) && limit == None ==> ok
      ensures ok ==> Spells(Read(), old(seen), usage)
      ensures ok ==> EndsInOrder(out, |Read().blocks|)
    {
      hide InStep;
      Scalars(State(), Read(), seen);
      finishing := true;
      if finish == "" {
        return false;
      }
      ok := Start(usage);
      if !ok {
        return;
      }
      ok := StartRemainingTools();
      if !ok {
        return;
      }
      ok := StopMessage(usage);
    }

    /** The end of `Finish`: every block is stopped, then the message. */
    method StopMessage(usage: Option<Usage>) returns (ok: bool)
      requires Written() && !broken && started && InStep(State(), Read(), seen)
      requires forall i | 0 <= i < |toolOrder| :: toolOrder[i].started
      modifies this`out, this`broken
      ensures Replay(out).Some?
      ensures !ok ==> MessageStop !in out && limit.Some?
      ensures ok ==> Spells(Read(), seen, usage) && EndsInOrder(out, |Read().blocks|)
    {
      hide InStep, ClosedUpTo, Stops, EndsInOrder, CallTools, ToolsOf, TextOf;
      Scalars(State(), Read(), seen);
      ClosedSpells(State(), Read(), seen);
      ghost var body := out;
      ok := StopBlocks();
      if !ok {
        return;
      }
      var delta := MessageDelta(StopReason(finish), stopSequence, Some(UsageFromChat(usage)));
      ok := Emit(delta);
      if !ok {
        return;
      }
      ok := Emit(MessageStop);
      if ok {
        StoppedInOrder(body, nextIndex, delta, out);
      }
    }
  }

  lemma Scalars(f: Fields, v: View, m: Message)
    requires InStep(f, v, m)
    ensures f.finish == m.finish && f.stopSequence == m.stopSequence
    ensures f.started ==> v.phase == Open && m.start == Some(v.startUsage)
    ensures m.finish != "" ==> f.started && m.start.Some?
    ensures f.nextIndex == |v.blocks|
  {
  }

  ghost function Stops(n: nat): seq<Event>
  {
    seq(n, i => BlockStop(i))
  }

  /** The blocks with the first `n` closed and the others open. */
  ghost function ClosedUpTo(blocks: seq<BlockView>, n: nat): seq<BlockView>
  {
    seq(|blocks|, i requires 0 <= i < |blocks| => blocks[i].(open := i >= n))
  }

  lemma NoneClosed(blocks: seq<BlockView>)
    requires AllOpen(blocks)
    ensures ClosedUpTo(blocks, 0) == blocks
  {
  }

  lemma NoStops()
    ensures Stops(0) == []
  {
  }

  /** Stopping the next block of a message whose first blocks are stopped. */
  lemma CloseNext(v: View, n: nat)
    requires v.phase == Open && n < |v.blocks|
    ensures Feed(v.(blocks := ClosedUpTo(v.blocks, n)), BlockStop(n)) ==
            Some(v.(blocks := ClosedUpTo(v.blocks, n + 1)))
    ensures Stops(n) + [BlockStop(n)] == Stops(n + 1)
  {
    var closed := ClosedUpTo(v.blocks, n);
    assert closed[n := closed[n].(open := false)] == ClosedUpTo(v.blocks, n + 1);
  }

  /** What a client has read at the end is the message: text, tools, stop reason, stop sequence and usage. */
  ghost predicate Spells(v: View, m: Message, usage: Option<Usage>)
  {
    && v.phase == Done
    && AllClosed(v.blocks)
    && m.start == Some(v.startUsage)
    && TextOf(v.blocks) == m.text
    && ToolsOf(v.blocks) == CallTools(m.calls)
    && v.stopReason == StopReason(m.finish)
    && v.stopSequence == m.stopSequence
    && v.usage == Some(UsageFromChat(usage))
  }

  lemma StoppedInOrder(body: seq<Event>, n: nat, delta: Event, events: seq<Event>)
    requires NothingStopped(body, |body|) && delta.MessageDelta?
    requires events == body + Stops(n) + [delta] + [MessageStop]
    ensures EndsInOrder(events, n)
  {
  }

  lemma {:induction false} SameToolBlocks(a: seq<BlockView>, b: seq<BlockView>)
    requires |a| == |b|
    requires forall i | 0 <= i < |a| :: ToolIn(a[i]) == ToolIn(b[i])
    ensures ToolsOf(a) == ToolsOf(b)
  {
    if a != [] {
      SameToolBlocks(a[..|a| - 1], b[..|b| - 1]);
    }
  }

  lemma {:induction false} AllStarted(order: seq<StreamTool>, calls: seq<Call>)
    requires |order| == |calls|
    requires forall i | 0 <= i < |order| :: order[i].started && SameCall(order[i], calls[i])
    ensures StartedTools(order) == CallTools(calls)
  {
    if order != [] {
      AllStarted(order[..|order| - 1], calls[..|calls| - 1]);
      assert SameCall(order[|order| - 1], calls[|calls| - 1]);
    }
  }

  lemma ClosedSpells(f: Fields, v: View, m: Message)
    requires InStep(f, v, m)
    requires forall i | 0 <= i < |f.toolOrder| :: f.toolOrder[i].started
    ensures var closed := ClosedUpTo(v.blocks, |v.blocks|);
            && |closed| == |v.blocks| && AllClosed(closed)
            && TextOf(closed) == m.text && ToolsOf(closed) == CallTools(m.calls)
  {
    var closed := ClosedUpTo(v.blocks, |v.blocks|);
    forall i | 0 <= i < |closed|
      ensures SameText(closed[i], v.blocks[i]) && ToolIn(closed[i]) == ToolIn(v.blocks[i])
    {
    }
    TextOfSame(closed, v.blocks);
    SameToolBlocks(closed, v.blocks);
    AllStarted(f.toolOrder, m.calls);
  }

  ghost function NamedCall(m: Message, p: nat, id: string, name: string): Message
    requires p < |m.calls|
  {
    m.(calls := m.calls[p := m.calls[p].(id := m.calls[p].id + id, name := m.calls[p].name + name)])
  }

  /** Putting a call back where it was found, or appending it, and then changing it in place. */
  lemma PutAtPosition(calls: seq<Call>, found: seq<Call>, index: int)
    requires found == PutCall(calls, CallAt(calls, index))
    ensures Position(found, index) < |found| && found[Position(found, index)] == CallAt(calls, index)
    ensures forall c: Call | c.index == index :: PutCall(calls, c) == found[Position(found, index) := c]
  {
    var p := Position(calls, index);
    var q := Position(found, index);
    if p < |calls| {
      assert found == calls;
    } else {
      assert found == calls + [Call(index, "", "", "")];
      assert found[|calls|].index == index;
      assert q == |calls|;
    }
  }

  /** The steps of `WriteCall` taken together are `AddCall`. */
  lemma CallSteps(m: Message, found: Message, d: ToolDelta, p: nat)
    requires found == m.(calls := PutCall(m.calls, CallAt(m.calls, DeltaIndex(d))))
    requires p == Position(found.calls, DeltaIndex(d)) < |found.calls|
    ensures var named := NamedCall(found, p, d.id, d.name);
            var rejected := found.calls[p].arguments != "" && (d.id != "" || d.name != "");
            AddCall(m, d) ==
            if rejected then None
            else if d.arguments == "" then Some(named)
            else if named.calls[p].id == "" || named.calls[p].name == "" then None
            else Some(Fed(named, p, d.arguments))
  {
    PutAtPosition(m.calls, found.calls, DeltaIndex(d));
    var c := CallAt(m.calls, DeltaIndex(d));
    var named := c.(id := c.id + d.id, name := c.name + d.name);
    var final := named.(arguments := c.arguments + d.arguments);
    assert d.arguments == "" ==> c.arguments + d.arguments == c.arguments;
    assert PutCall(m.calls, final) == found.calls[p := final];
    assert found.calls[p := named][p := final] == found.calls[p := final];
  }

  /** A message in which the call at position `p` has more arguments. */
  ghost function Fed(m: Message, p: nat, more: string): Message
    requires p < |m.calls|
  {
    m.(calls := m.calls[p := m.calls[p].(arguments := m.calls[p].arguments + more)])
  }

  lemma ArgumentsStart(before: seq<StreamTool>, order: seq<StreamTool>, p: nat, more: string)
    requires StartedByArguments(before)
    requires p < |before| && |order| == |before| && order == before[p := order[p]] && order[p].started
    requires more != ""
    ensures StartedByArguments(order[p := order[p].(arguments := order[p].arguments + more)])
  {
  }

  lemma ToolGrows(f: Fields, v: View, m: Message, p: nat, more: string)
    requires InStep(f, v, m) && f.started
    requires p < |f.toolOrder| && f.toolOrder[p].started
    ensures var t := f.toolOrder[p];
            var e := BlockDelta(t.index, JsonDelta(more));
            && p < |m.calls|
            && Feed(v, e).Some?
            && InStep(f.(toolOrder := f.toolOrder[p := t.(arguments := t.arguments + more)]),
                      Feed(v, e).value, Fed(m, p, more))
  {
    var t := f.toolOrder[p].(arguments := f.toolOrder[p].arguments + more);
    var c := m.calls[p].(arguments := m.calls[p].arguments + more);
    assert ToolAt(f.toolOrder, v.blocks, p);
    CallsAfterUpdate(f.tools, f.toolOrder, m.calls, p, t, c);
    ToolFed(f.toolOrder, v.blocks, p, t);
    ToolTextGrows(f, v, m.text, t.index, more);
  }

  lemma ToolTextGrows(f: Fields, v: View, text: string, i: nat, more: string)
    requires v.phase == Open && i < |v.blocks| && v.blocks[i].ToolView? && AllOpen(v.blocks)
    requires TextInStep(f, v.blocks, text)
    ensures var t := v.blocks[i].tool;
            var b := ToolView(t.(json := t.json + more), true);
            && Feed(v, BlockDelta(i, JsonDelta(more))) == Some(v.(blocks := v.blocks[i := b]))
            && AllOpen(v.blocks[i := b])
            && TextInStep(f, v.blocks[i := b], text)
  {
    var t := v.blocks[i].tool;
    TextAfterTool(v.blocks, i, ToolView(t.(json := t.json + more), true));
  }

  lemma TextAfterTool(blocks: seq<BlockView>, i: nat, b: BlockView)
    requires i < |blocks| && blocks[i].ToolView? && b.ToolView?
    ensures TextOf(blocks[i := b]) == TextOf(blocks)
  {
    var after := blocks[i := b];
    forall k | 0 <= k < |blocks|
      ensures SameText(after[k], blocks[k])
    {
    }
    TextOfSame(after, blocks);
  }

  lemma AlreadyStarted(f: Fields, v: View, m: Message, usage: Option<Usage>)
    requires InStep(f, v, m) && f.started
    ensures Started(m, usage) == m
  {
  }

  lemma MessageStarts(f: Fields, v: View, m: Message, usage: Option<Usage>)
    requires InStep(f, v, m) && !f.started
    ensures var e := MessageStart(UsageFromChat(usage).(output := 0));
            && Feed(v, e).Some? && Feed(v, e).value.phase == Open
            && InStep(f.(started := true), Feed(v, e).value, Started(m, usage))
  {
  }

  lemma AsManyCalls(f: Fields, v: View, m: Message)
    requires InStep(f, v, m)
    ensures |f.toolOrder| == |m.calls|
  {
  }

  lemma CallFacts(f: Fields, v: View, m: Message, p: nat)
    requires InStep(f, v, m) && p < |f.toolOrder|
    ensures |f.toolOrder| == |m.calls| && SameCall(f.toolOrder[p], m.calls[p])
  {
  }

  lemma StartedIsNamed(f: Fields, v: View, m: Message, p: nat)
    requires InStep(f, v, m) && p < |f.toolOrder| && f.toolOrder[p].started
    ensures f.toolOrder[p].id != "" && f.toolOrder[p].name != ""
  {
    assert ToolAt(f.toolOrder, v.blocks, p);
  }

  lemma ToolStarts(f: Fields, v: View, m: Message, p: nat)
    requires InStep(f, v, m) && f.started
    requires p < |f.toolOrder| && !f.toolOrder[p].started
    requires f.toolOrder[p].id != "" && f.toolOrder[p].name != ""
    ensures var tool := f.toolOrder[p].(index := f.nextIndex, started := true);
            var e := BlockStart(f.nextIndex, ToolBlock(tool.id, tool.name));
            && Feed(v, e).Some?
            && InStep(f.(nextIndex := f.nextIndex + 1, toolOrder := f.toolOrder[p := tool], textIndex := -1),
                      Feed(v, e).value, m)
  {
    var tool := f.toolOrder[p].(index := f.nextIndex, started := true);
    assert ToolAt(f.toolOrder, v.blocks, p);
    TextOfSnoc(v.blocks, ToolView(Tool(tool.id, tool.name, ""), true));
    ToolOpened(f.toolOrder, v.blocks, p, tool);
    assert m.calls[p := m.calls[p]] == m.calls;
    CallsAfterUpdate(f.tools, f.toolOrder, m.calls, p, tool, m.calls[p]);
  }
}
