/**
 * A finished chat completion as an Anthropic message (`internal/anthropic/response.go`), and
 * its agreement with the stream of events that the encoder writes for the same message.
 */
module ChatResponse {
  import opened Deployments
  import opened Messages
  import opened ChatMessages
  import opened StreamEncoding

  datatype ContentPart = ContentPart(kind: string, text: string)

  /** The content of a chat message; `Unsupported` is anything but text or a list of typed parts. */
  datatype ChatContent = Absent | Plain(text: string) | Parts(parts: seq<ContentPart>) | Unsupported

  datatype ToolCall = ToolCall(id: string, name: string, arguments: string)

  datatype ChatMessage = ChatMessage(content: ChatContent, toolCalls: seq<ToolCall>)

  datatype ChatChoice = ChatChoice(message: Option<ChatMessage>, finishReason: string, stopSequence: Option<string>)

  datatype Completion = Completion(choices: seq<ChatChoice>, usage: Option<Usage>)

  datatype Content = Text(text: string) | ToolUse(tool: Tool)

  datatype Response = Response(
    content: seq<Content>,
    stopReason: string,
    stopSequence: Option<string>,
    usage: WireUsage)

  // ---------- Specification ----------

  /** The texts of the content, or nothing when some part is not text. */
  function Texts(c: ChatContent): Option<seq<string>>
  {
    match c
    case Absent => Some([])
    case Plain(text) => Some(if text != "" then [text] else [])
    case Parts(parts) =>
      if forall p | p in parts :: p.kind == "text" then Some(seq(|parts|, i requires 0 <= i < |parts| => parts[i].text))
      else None
    case Unsupported => None
  }

  predicate UsableCall(isObject: string -> bool, c: ToolCall)
  {
    c.id != "" && c.name != "" && ValidInput(isObject, c.arguments)
  }

  function ToolUses(calls: seq<ToolCall>): seq<Content>
  {
    seq(|calls|, i requires 0 <= i < |calls| =>
      ToolUse(Tool(calls[i].id, calls[i].name, ToolInput(calls[i].arguments))))
  }

  function TextBlocks(texts: seq<string>): seq<Content>
  {
    seq(|texts|, i requires 0 <= i < |texts| => Text(texts[i]))
  }

  /** The message for the first choice: its texts, then its tools. */
  function Converted(isObject: string -> bool, chat: Option<Completion>): Option<Response>
  {
    if chat.None? || chat.value.choices == [] || chat.value.choices[0].message.None? then None
    else
      var choice := chat.value.choices[0];
      var message := choice.message.value;
      var texts := Texts(message.content);
      if texts.None? || exists c | c in message.toolCalls :: !UsableCall(isObject, c) then None
      else
        var reason := StopReason(choice.finishReason);
        Some(Response(
          TextBlocks(texts.value) + ToolUses(message.toolCalls),
          reason,
          if reason == "stop_sequence" then choice.stopSequence else None,
          UsageFromChat(chat.value.usage)))
  }

  method FromChat(isObject: string -> bool, chat: Option<Completion>) returns (response: Option<Response>)
    ensures response == Converted(isObject, chat)
  {
    if chat.None? || chat.value.choices == [] || chat.value.choices[0].message.None? {
      return None;
    }
    var choice := chat.value.choices[0];
    var message := choice.message.value;
    var content: seq<Content> := [];
    match message.content {
      case Plain(text) =>
        if text != "" {
          content := content + [Text(text)];
        }
      case Absent =>
      case Unsupported =>
        return None;
      case Parts(parts) =>
        for n := 0 to |parts|
          invariant forall k | 0 <= k < n :: parts[k].kind == "text"
          invariant content == seq(n, i requires 0 <= i < n => Text(parts[i].text))
        {
          if parts[n].kind != "text" {
            return None;
          }
          content := content + [Text(parts[n].text)];
        }
    }
    assert Texts(message.content).Some? && content == TextBlocks(Texts(message.content).value);
    var calls := message.toolCalls;
    for n := 0 to |calls|
      invariant forall k | 0 <= k < n :: UsableCall(isObject, calls[k])
      invariant content == TextBlocks(Texts(message.content).value) + ToolUses(calls[..n])
    {
      if calls[n].id == "" || calls[n].name == "" || !ValidInput(isObject, calls[n].arguments) {
        assert !UsableCall(isObject, calls[n]);
        return None;
      }
      content := content + [ToolUse(Tool(calls[n].id, calls[n].name, ToolInput(calls[n].arguments)))];
      assert ToolUses(calls[..n + 1]) == ToolUses(calls[..n]) + [content[|content| - 1]];
    }
    assert calls[..|calls|] == calls;
    var reason := StopReason(choice.finishReason);
    return Some(Response(
      content, reason, if reason == "stop_sequence" then choice.stopSequence else None,
      UsageFromChat(chat.value.usage)));
  }

  // ---------- Streaming agrees with not streaming ----------

  function AsToolCalls(calls: seq<Call>): seq<ToolCall>
  {
    seq(|calls|, i requires 0 <= i < |calls| => ToolCall(calls[i].id, calls[i].name, calls[i].arguments))
  }

  /** The completion a provider would return for the same message without streaming. */
  function Unstreamed(m: Message, usage: Option<Usage>): Completion
  {
    var message := ChatMessage(Plain(m.text), AsToolCalls(m.calls));
    Completion([ChatChoice(Some(message), m.finish, m.stopSequence)], usage)
  }

  ghost function ResponseText(content: seq<Content>): string
  {
    if content == [] then ""
    else
      ResponseText(content[..|content| - 1]) +
      match content[|content| - 1] { case Text(t) => t case ToolUse(_) => "" }
  }

  ghost function ResponseTools(content: seq<Content>): multiset<Tool>
  {
    if content == [] then multiset{}
    else
      ResponseTools(content[..|content| - 1]) +
      match content[|content| - 1] { case Text(_) => multiset{} case ToolUse(t) => multiset{t} }
  }

  function AsInput(t: Tool): Tool
  {
    t.(json := ToolInput(t.json))
  }

  /** The tools with empty arguments read as `{}`. */
  ghost function Inputs(ts: multiset<Tool>): multiset<Tool>
    decreases |ts|
  {
    if ts == multiset{} then multiset{}
    else
      var t :| t in ts;
      multiset{AsInput(t)} + Inputs(ts - multiset{t})
  }

  lemma Commute<T>(a: multiset<T>, b: multiset<T>, rest: multiset<T>)
    ensures a + (b + rest) == b + (a + rest)
  {
  }

  lemma TakeTwo<T>(ts: multiset<T>, t: T, u: T)
    requires t in ts && u in ts && t != u
    ensures t in ts - multiset{u} && u in ts - multiset{t}
    ensures ts - multiset{u} - multiset{t} == ts - multiset{t} - multiset{u}
  {
  }

  lemma {:induction false} InputsTake(ts: multiset<Tool>, t: Tool)
    requires t in ts
    ensures Inputs(ts) == multiset{AsInput(t)} + Inputs(ts - multiset{t})
    decreases |ts|
  {
    var u :| u in ts && Inputs(ts) == multiset{AsInput(u)} + Inputs(ts - multiset{u});
    if u != t {
      TakeTwo(ts, t, u);
      InputsTake(ts - multiset{u}, t);
      InputsTake(ts - multiset{t}, u);
      Commute(multiset{AsInput(u)}, multiset{AsInput(t)}, Inputs(ts - multiset{u} - multiset{t}));
    }
  }

  lemma InputsAdd(ts: multiset<Tool>, t: Tool)
    ensures Inputs(ts + multiset{t}) == Inputs(ts) + multiset{AsInput(t)}
  {
    InputsTake(ts + multiset{t}, t);
    assert ts + multiset{t} - multiset{t} == ts;
  }

  lemma ResponseSnoc(content: seq<Content>, c: Content)
    ensures ResponseText(content + [c]) == ResponseText(content) + match c { case Text(t) => t case ToolUse(_) => "" }
    ensures ResponseTools(content + [c])
         == ResponseTools(content) + match c { case Text(_) => multiset{} case ToolUse(t) => multiset{t} }
  {
    assert (content + [c])[..|content|] == content;
  }

  lemma ToolUsesSnoc(front: seq<Call>, c: Call)
    ensures ToolUses(AsToolCalls(front + [c]))
         == ToolUses(AsToolCalls(front)) + [ToolUse(AsInput(Tool(c.id, c.name, c.arguments)))]
  {
  }

  lemma {:induction false} ToolUsesSay(prefix: seq<Content>, calls: seq<Call>)
    requires ResponseTools(prefix) == multiset{}
    ensures ResponseText(prefix + ToolUses(AsToolCalls(calls))) == ResponseText(prefix)
    ensures ResponseTools(prefix + ToolUses(AsToolCalls(calls))) == Inputs(CallTools(calls))
  {
    var uses := ToolUses(AsToolCalls(calls));
    if calls == [] {
      assert prefix + uses == prefix;
    } else {
      var front, c := calls[..|calls| - 1], calls[|calls| - 1];
      var t := Tool(c.id, c.name, c.arguments);
      assert calls == front + [c];
      ToolUsesSay(prefix, front);
      ToolUsesSnoc(front, c);
      PlusSnoc(prefix, ToolUses(AsToolCalls(front)), ToolUse(AsInput(t)));
      ResponseSnoc(prefix + ToolUses(AsToolCalls(front)), ToolUse(AsInput(t)));
      CallToolsSnoc(front, c);
      InputsAdd(CallTools(front), t);
    }
  }

  lemma PlusSnoc<T>(a: seq<T>, b: seq<T>, x: T)
    ensures a + (b + [x]) == a + b + [x]
  {
  }

  lemma ConvertedUnstreamed(isObject: string -> bool, m: Message, usage: Option<Usage>)
    requires Complete(isObject, m)
    ensures Texts(Plain(m.text)).Some?
    ensures Converted(isObject, Some(Unstreamed(m, usage))) ==
            Some(Response(
              TextBlocks(Texts(Plain(m.text)).value) + ToolUses(AsToolCalls(m.calls)),
              StopReason(m.finish),
              if StopReason(m.finish) == "stop_sequence" then m.stopSequence else None,
              UsageFromChat(usage)))
  {
    var calls := AsToolCalls(m.calls);
    forall c | c in calls
      ensures UsableCall(isObject, c)
    {
      var i :| 0 <= i < |calls| && calls[i] == c;
      assert CompleteCall(isObject, m.calls[i]);
    }
  }

  /**
   * Whenever a client has read a complete message from a stream, converting the unstreamed
   * completion succeeds as well and says the same: text, tools, stop reason and usage. The stop
   * sequences agree exactly when the stop reason is `stop_sequence` or there is none to report.
   */
  lemma {:induction false} StreamingAgrees(isObject: string -> bool, v: View, m: Message, usage: Option<Usage>)
    requires Complete(isObject, m) && Spells(v, m, usage)
    ensures var r := Converted(isObject, Some(Unstreamed(m, usage)));
            && r.Some?
            && ResponseText(r.value.content) == TextOf(v.blocks)
            && ResponseTools(r.value.content) == Inputs(ToolsOf(v.blocks))
            && r.value.stopReason == v.stopReason
            && Some(r.value.usage) == v.usage
            && (r.value.stopSequence == v.stopSequence <==>
                v.stopReason == "stop_sequence" || v.stopSequence == None)
  {
    ConvertedUnstreamed(isObject, m, usage);
    hide Converted, Unstreamed, Complete, TextBlocks, Texts, ToolUses, AsToolCalls, StopReason, UsageFromChat;
    PlainText(m.text);
    ToolUsesSay(TextBlocks(Texts(Plain(m.text)).value), m.calls);
  }

  lemma PlainText(text: string)
    ensures var texts := TextBlocks(Texts(Plain(text)).value);
            ResponseText(texts) == text && ResponseTools(texts) == multiset{}
  {
    if text != "" {
      OneText(text);
      assert TextBlocks([text]) == [Text(text)];
    }
  }

  lemma OneText(text: string)
    ensures ResponseText([Text(text)]) == text && ResponseTools([Text(text)]) == multiset{}
  {
    hide *;
    ResponseSnoc([], Text(text));
    assert [] + [Text(text)] == [Text(text)];
    NoText();
  }

  lemma NoText()
    ensures ResponseText([]) == "" && ResponseTools([]) == multiset{}
  {
  }

  // ---------- What a response says ----------

  /** A completion that can be answered: a first message of texts only, and every call identified. */
  predicate Answerable(isObject: string -> bool, c: Completion)
  {
    && c.choices != []
    && c.choices[0].message.Some?
    && (match c.choices[0].message.value.content
        case Absent => true
        case Plain(_) => true
        case Parts(parts) => forall i | 0 <= i < |parts| :: parts[i].kind == "text"
        case Unsupported => false)
    && forall i | 0 <= i < |c.choices[0].message.value.toolCalls| ::
         var call := c.choices[0].message.value.toolCalls[i];
         call.id != "" && call.name != "" && (call.arguments == "" || isObject(call.arguments))
  }

  lemma AnswerableIff(isObject: string -> bool, c: Completion)
    ensures Converted(isObject, Some(c)).Some? <==> Answerable(isObject, c)
  {
    if c.choices != [] && c.choices[0].message.Some? {
      var calls := c.choices[0].message.value.toolCalls;
      assert (forall i | 0 <= i < |calls| :: UsableCall(isObject, calls[i])) <==>
             !exists call | call in calls :: !UsableCall(isObject, call);
    }
  }

  /** The texts of a message, in order; an empty plain text is none. */
  predicate TextsAre(m: ChatMessage, texts: seq<Content>)
  {
    match m.content
    case Absent => texts == []
    case Plain(text) => texts == if text == "" then [] else [Text(text)]
    case Parts(parts) => |texts| == |parts| && forall i | 0 <= i < |parts| :: texts[i] == Text(parts[i].text)
    case Unsupported => false
  }

  /** The calls of a message, in order; empty arguments are an empty object. */
  predicate ToolsAre(m: ChatMessage, tools: seq<Content>)
  {
    && |tools| == |m.toolCalls|
    && forall i | 0 <= i < |tools| ::
         && tools[i].ToolUse?
         && tools[i].tool.id == m.toolCalls[i].id
         && tools[i].tool.name == m.toolCalls[i].name
         && (m.toolCalls[i].arguments != "" ==> tools[i].tool.json == m.toolCalls[i].arguments)
         && (m.toolCalls[i].arguments == "" ==> tools[i].tool.json == "{}")
  }

  /** Which reasons to finish each stop reason stands for. */
  predicate ReasonIs(stop: string, finish: string)
  {
    && (stop == "max_tokens" <==> finish == "length")
    && (stop == "tool_use" <==> finish in {"tool_calls", "function_call"})
    && (stop == "refusal" <==> finish in {"refusal", "content_filter"})
    && (stop == "stop_sequence" <==> finish == "stop_sequence")
    && (stop == "pause_turn" <==> finish == "pause_turn")
    && stop in {"max_tokens", "tool_use", "refusal", "stop_sequence", "pause_turn", "end_turn"}
  }

  lemma ReasonIsFound(finish: string)
    ensures ReasonIs(StopReason(finish), finish)
  {
  }

  /** A response carries exactly the texts, calls, ending and counts of the first choice. */
  lemma ResponseCarries(isObject: string -> bool, c: Completion, texts: seq<Content>, tools: seq<Content>)
    requires Answerable(isObject, c)
    requires TextsAre(c.choices[0].message.value, texts) && ToolsAre(c.choices[0].message.value, tools)
    ensures var r := Converted(isObject, Some(c));
            && r.Some?
            && r.value.content == texts + tools
            && ReasonIs(r.value.stopReason, c.choices[0].finishReason)
            && (r.value.stopSequence ==
                if c.choices[0].finishReason == "stop_sequence" then c.choices[0].stopSequence else None)
            && (c.usage.None? ==> r.value.usage == WireUsage(0, 0, 0, 0))
            && (c.usage.Some? ==>
                && r.value.usage.input == c.usage.value.prompt
                && r.value.usage.output == c.usage.value.completion
                && r.value.usage.cacheRead == c.usage.value.cacheRead
                && r.value.usage.cacheCreation == c.usage.value.cacheWrite)
  {
    AnswerableIff(isObject, c);
    ReasonIsFound(c.choices[0].finishReason);
    var m := c.choices[0].message.value;
    assert TextBlocks(Texts(m.content).value) == texts;
    assert ToolUses(m.toolCalls) == tools;
  }
}
