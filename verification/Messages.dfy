/**
 * The two streaming protocols the proxy translates between: chat completion chunks
 * (`internal/model/response.go`) and Anthropic message events, with the grammar that an
 * event stream must follow and the message it spells out.
 */
module Messages {
  import opened Deployments

  // ---------- Chat completion chunks ----------

  /** Token counts as the chat protocol carries them. */
  datatype Usage = Usage(prompt: int, completion: int, total: int, cacheRead: int, cacheWrite: int)

  datatype ToolDelta = ToolDelta(index: Option<int>, id: string, name: string, arguments: string)

  datatype Delta = Delta(content: string, toolCalls: seq<ToolDelta>)

  datatype Choice = Choice(index: int, delta: Option<Delta>, finishReason: string, stopSequence: Option<string>)

  datatype Chunk = Chunk(choices: seq<Choice>, usage: Option<Usage>)

  // ---------- Message events ----------

  /** Token counts as the messages protocol carries them. */
  datatype WireUsage = WireUsage(input: int, output: int, cacheRead: int, cacheCreation: int)

  datatype Tool = Tool(id: string, name: string, json: string)

  datatype BlockKind = TextBlock | ToolBlock(id: string, name: string)

  datatype BlockDelta = TextDelta(text: string) | JsonDelta(partial: string)

  datatype Event =
    | MessageStart(startUsage: WireUsage)
    | BlockStart(index: int, kind: BlockKind)
    | BlockDelta(index: int, delta: BlockDelta)
    | BlockStop(index: int)
    | MessageDelta(stopReason: string, stopSequence: Option<string>, usage: Option<WireUsage>)
    | MessageStop
    | Ping

  // ---------- The grammar of an event stream ----------

  datatype Phase = Fresh | Open | Closing | Done

  datatype BlockView = TextView(text: string, open: bool) | ToolView(tool: Tool, open: bool)

  /** What a client has read so far. */
  datatype View = View(
    phase: Phase,
    startUsage: WireUsage,
    blocks: seq<BlockView>,
    stopReason: string,
    stopSequence: Option<string>,
    usage: Option<WireUsage>)

  const NO_USAGE := WireUsage(0, 0, 0, 0)
  const NOTHING_READ := View(Fresh, NO_USAGE, [], "", None, None)

  ghost predicate AllClosed(blocks: seq<BlockView>)
  {
    forall i | 0 <= i < |blocks| :: !blocks[i].open
  }

  ghost predicate AllOpen(blocks: seq<BlockView>)
  {
    forall i | 0 <= i < |blocks| :: blocks[i].open
  }

  /** One event read by a client; `None` when the event is not allowed at this point. */
  ghost function Feed(v: View, e: Event): Option<View>
  {
    match e
    case MessageStart(u) =>
      if v.phase == Fresh then Some(v.(phase := Open, startUsage := u)) else None
    case BlockStart(i, kind) =>
      if v.phase == Open && i == |v.blocks| then
        var block := match kind
          case TextBlock => TextView("", true)
          case ToolBlock(id, name) => ToolView(Tool(id, name, ""), true);
        Some(v.(blocks := v.blocks + [block]))
      else None
    case BlockDelta(i, d) =>
      if v.phase == Open && 0 <= i < |v.blocks| && v.blocks[i].open then
        match (v.blocks[i], d) {
          case (TextView(t, _), TextDelta(more)) => Some(v.(blocks := v.blocks[i := TextView(t + more, true)]))
          case (ToolView(t, _), JsonDelta(more)) =>
            Some(v.(blocks := v.blocks[i := ToolView(t.(json := t.json + more), true)]))
          case _ => None
        }
      else None
    case BlockStop(i) =>
      if v.phase == Open && 0 <= i < |v.blocks| && v.blocks[i].open then
        Some(v.(blocks := v.blocks[i := v.blocks[i].(open := false)]))
      else None
    case MessageDelta(reason, sequence, u) =>
      if v.phase == Open && AllClosed(v.blocks) then
        Some(v.(phase := Closing, stopReason := reason, stopSequence := sequence, usage := u))
      else None
    case MessageStop =>
      if v.phase == Closing then Some(v.(phase := Done)) else None
    case Ping => Some(v)
  }

  /** What a client reads from a whole stream; `None` when the stream breaks the grammar. */
  ghost function Replay(events: seq<Event>): Option<View>
  {
    if events == [] then Some(NOTHING_READ)
    else
      match Replay(events[..|events| - 1])
      case None => None
      case Some(v) => Feed(v, events[|events| - 1])
  }

  lemma ReplaySnoc(events: seq<Event>, e: Event)
    ensures Replay(events + [e]) == match Replay(events) { case None => None case Some(v) => Feed(v, e) }
  {
    assert (events + [e])[..|events|] == events;
  }

  // ---------- What a stream says ----------

  /** The concatenated text of the text blocks, in block order. */
  ghost function TextOf(blocks: seq<BlockView>): string
  {
    if blocks == [] then ""
    else
      TextOf(blocks[..|blocks| - 1]) + match blocks[|blocks| - 1] { case TextView(t, _) => t case ToolView(_, _) => "" }
  }

  ghost function ToolIn(block: BlockView): multiset<Tool>
  {
    match block
    case TextView(_, _) => multiset{}
    case ToolView(t, _) => multiset{t}
  }

  /** The tools of the tool blocks, with repetitions but without order. */
  ghost function ToolsOf(blocks: seq<BlockView>): multiset<Tool>
  {
    if blocks == [] then multiset{}
    else ToolsOf(blocks[..|blocks| - 1]) + ToolIn(blocks[|blocks| - 1])
  }

  lemma TextOfSnoc(blocks: seq<BlockView>, b: BlockView)
    ensures TextOf(blocks + [b]) == TextOf(blocks) + match b { case TextView(t, _) => t case ToolView(_, _) => "" }
    ensures ToolsOf(blocks + [b]) == ToolsOf(blocks) + ToolIn(b)
  {
    assert (blocks + [b])[..|blocks|] == blocks;
  }

  lemma Exchange<T>(m: multiset<T>, a: multiset<T>, b: multiset<T>, rest: multiset<T>)
    requires a <= m
    ensures a <= m + rest
    ensures m - a + b + rest == m + rest - a + b
  {
  }

  lemma ReplaceLast<T>(m: multiset<T>, a: multiset<T>, b: multiset<T>)
    ensures a <= m + a && m + a - a + b == m + b
  {
  }

  lemma UpdateSplit<T>(s: seq<T>, i: nat, x: T)
    requires i < |s|
    ensures s == s[..|s| - 1] + [s[|s| - 1]]
    ensures i == |s| - 1 ==> s[i := x] == s[..|s| - 1] + [x]
    ensures i < |s| - 1 ==> s[i := x] == s[..|s| - 1][i := x] + [s[|s| - 1]]
  {
  }

  lemma {:induction false} ToolsOfUpdate(blocks: seq<BlockView>, i: nat, b: BlockView)
    requires i < |blocks|
    ensures ToolIn(blocks[i]) <= ToolsOf(blocks)
    ensures ToolsOf(blocks[i := b]) == ToolsOf(blocks) - ToolIn(blocks[i]) + ToolIn(b)
  {
    var front, x := blocks[..|blocks| - 1], blocks[|blocks| - 1];
    UpdateSplit(blocks, i, b);
    TextOfSnoc(front, x);
    if i == |front| {
      TextOfSnoc(front, b);
      ReplaceLast(ToolsOf(front), ToolIn(x), ToolIn(b));
    } else {
      ToolsOfUpdate(front, i, b);
      TextOfSnoc(front[i := b], x);
      Exchange(ToolsOf(front), ToolIn(blocks[i]), ToolIn(b), ToolIn(x));
    }
  }

  /** Two lists of blocks that differ in a tool block, or only in which blocks are open, have the same text. */
  lemma {:induction false} TextOfSame(a: seq<BlockView>, b: seq<BlockView>)
    requires |a| == |b|
    requires forall i | 0 <= i < |a| :: SameText(a[i], b[i])
    ensures TextOf(a) == TextOf(b)
  {
    if a != [] {
      var last := |a| - 1;
      forall i | 0 <= i < last
        ensures SameText(a[..last][i], b[..last][i])
      {
        assert SameText(a[i], b[i]);
      }
      TextOfSame(a[..last], b[..last]);
      assert SameText(a[last], b[last]);
    }
  }

  ghost predicate SameText(a: BlockView, b: BlockView)
  {
    match (a, b)
    case (TextView(s, _), TextView(t, _)) => s == t
    case (ToolView(_, _), ToolView(_, _)) => true
    case _ => false
  }
}
