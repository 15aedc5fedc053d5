/**
 * Chat completion messages: what a sequence of chunks adds up to, and the conversion of a
 * finished chat completion to an Anthropic message (`internal/anthropic/response.go`).
 */
module ChatMessages {
  import opened Deployments
  import opened Messages

  function UsageFromChat(u: Option<Usage>): WireUsage
  {
    match u
    case None => NO_USAGE
    case Some(u) => WireUsage(u.prompt, u.completion, u.cacheRead, u.cacheWrite)
  }

  function StopReason(reason: string): string
  {
    if reason == "length" then "max_tokens"
    else if reason == "tool_calls" || reason == "function_call" then "tool_use"
    else if reason == "stop_sequence" || reason == "pause_turn" || reason == "refusal" then reason
    else if reason == "content_filter" then "refusal"
    else "end_turn"
  }

  /**
   * Whether tool arguments are usable as tool input. Empty arguments stand for `{}`; which other
   * texts spell a JSON object is left to `isObject`.
   */
  predicate ValidInput(isObject: string -> bool, arguments: string)
  {
    arguments == "" || isObject(arguments)
  }

  function ToolInput(arguments: string): string
  {
    if arguments == "" then "{}" else arguments
  }

  // ---------- Accumulating chunks ----------

  datatype Call = Call(index: int, id: string, name: string, arguments: string)

  /** The choice-0 message that a sequence of chunks spells out, and the usage known at its start. */
  datatype Message = Message(
    start: Option<WireUsage>,
    text: string,
    calls: seq<Call>,
    finish: string,
    stopSequence: Option<string>)

  const NO_MESSAGE := Message(None, "", [], "", None)

  /** The position of the call that uses an upstream index, or the number of calls when there is none. */
  ghost function Position(calls: seq<Call>, index: int): (p: nat)
    ensures p <= |calls|
    ensures p < |calls| ==> calls[p].index == index
    ensures forall i | 0 <= i < p :: calls[i].index != index
  {
    if calls == [] then 0
    else
      var p := Position(calls[..|calls| - 1], index);
      if p < |calls| - 1 || calls[p].index == index then p else p + 1
  }

  function DeltaIndex(d: ToolDelta): int
  {
    match d.index case None => 0 case Some(i) => i
  }

  ghost function CallAt(calls: seq<Call>, index: int): Call
  {
    var p := Position(calls, index);
    if p < |calls| then calls[p] else Call(index, "", "", "")
  }

  ghost function PutCall(calls: seq<Call>, c: Call): seq<Call>
  {
    var p := Position(calls, c.index);
    if p < |calls| then calls[p := c] else calls + [c]
  }

  /**
   * One tool delta. A call's id and name must both be known before its first argument text and
   * must not change after it.
   */
  ghost function AddCall(m: Message, d: ToolDelta): Option<Message>
  {
    var c := CallAt(m.calls, DeltaIndex(d));
    var named := c.(id := c.id + d.id, name := c.name + d.name);
    if c.arguments != "" && (d.id != "" || d.name != "") then None
    else if d.arguments != "" && (named.id == "" || named.name == "") then None
    else Some(m.(calls := PutCall(m.calls, named.(arguments := c.arguments + d.arguments))))
  }

  ghost function AddCalls(m: Message, ds: seq<ToolDelta>, n: nat): Option<Message>
    requires n <= |ds|
  {
    if n == 0 then Some(m)
    else match AddCalls(m, ds, n - 1) case None => None case Some(m') => AddCall(m', ds[n - 1])
  }

  ghost function AddChoice(m: Message, c: Choice): Option<Message>
  {
    if c.index != 0 then Some(m)
    else
      var m1 := if c.finishReason != "" then m.(finish := c.finishReason, stopSequence := c.stopSequence) else m;
      match c.delta
      case None => Some(m1)
      case Some(d) => AddCalls(m1.(text := m1.text + d.content), d.toolCalls, |d.toolCalls|)
  }

  ghost function AddChoices(m: Message, cs: seq<Choice>, n: nat): Option<Message>
    requires n <= |cs|
  {
    if n == 0 then Some(m)
    else match AddChoices(m, cs, n - 1) case None => None case Some(m') => AddChoice(m', cs[n - 1])
  }

  ghost function Started(m: Message, usage: Option<Usage>): Message
  {
    if m.start.Some? then m else m.(start := Some(UsageFromChat(usage).(output := 0)))
  }

  /** One chunk; `None` when it breaks the rules for tool identity. */
  ghost function AddChunk(m: Message, c: Chunk): Option<Message>
  {
    AddChoices(Started(m, c.usage), c.choices, |c.choices|)
  }

  lemma {:induction false} CallsStayRejected(m: Message, ds: seq<ToolDelta>, n: nat, k: nat)
    requires n <= k <= |ds|
    requires AddCalls(m, ds, n) == None
    ensures AddCalls(m, ds, k) == None
  {
    if n < k {
      CallsStayRejected(m, ds, n, k - 1);
    }
  }

  lemma {:induction false} ChoicesStayRejected(m: Message, cs: seq<Choice>, n: nat, k: nat)
    requires n <= k <= |cs|
    requires AddChoices(m, cs, n) == None
    ensures AddChoices(m, cs, k) == None
  {
    if n < k {
      ChoicesStayRejected(m, cs, n, k - 1);
    }
  }

  /** The tools of a message, without order. */
  ghost function CallTools(calls: seq<Call>): multiset<Tool>
  {
    if calls == [] then multiset{}
    else
      var c := calls[|calls| - 1];
      CallTools(calls[..|calls| - 1]) + multiset{Tool(c.id, c.name, c.arguments)}
  }

  lemma CallToolsSnoc(calls: seq<Call>, c: Call)
    ensures CallTools(calls + [c]) == CallTools(calls) + multiset{Tool(c.id, c.name, c.arguments)}
  {
    assert (calls + [c])[..|calls|] == calls;
  }
}
