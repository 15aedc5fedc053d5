/**
 * What a stream of chat completion chunks says, read off its choices as a whole instead of chunk by
 * chunk: which streams break the rules for tool calls, and what message the others spell out.
 */
module ChunkReading {
  import opened Deployments
  import opened Messages
  import opened ChatMessages

  /** The message after all chunks; `None` once one of them breaks the rules. */
  ghost function Read(cs: seq<Chunk>): Option<Message>
  {
    if cs == [] then Some(NO_MESSAGE)
    else match Read(cs[..|cs| - 1]) case None => None case Some(m) => AddChunk(m, cs[|cs| - 1])
  }

  // ---------- The choices of a stream ----------

  /** All choices, in order. */
  function Choices(cs: seq<Chunk>): seq<Choice>
  {
    if cs == [] then [] else Choices(cs[..|cs| - 1]) + cs[|cs| - 1].choices
  }

  /** The text of the first choice. */
  function Words(xs: seq<Choice>): string
  {
    if xs == [] then ""
    else
      var c := xs[|xs| - 1];
      Words(xs[..|xs| - 1]) + if c.index == 0 && c.delta.Some? then c.delta.value.content else ""
  }

  function ToolDeltas(c: Choice): seq<ToolDelta>
  {
    if c.index == 0 && c.delta.Some? then c.delta.value.toolCalls else []
  }

  /** The tool deltas of the first choice, in order. */
  function Deltas(xs: seq<Choice>): seq<ToolDelta>
  {
    if xs == [] then [] else Deltas(xs[..|xs| - 1]) + ToolDeltas(xs[|xs| - 1])
  }

  /** The last choice that gives the first choice a reason to finish. */
  function Ending(xs: seq<Choice>): Option<Choice>
  {
    if xs == [] then None
    else if xs[|xs| - 1].index == 0 && xs[|xs| - 1].finishReason != "" then Some(xs[|xs| - 1])
    else Ending(xs[..|xs| - 1])
  }

  // ---------- The tool calls of a stream ----------

  /** A delta without an index belongs to call 0. */
  predicate Concerns(d: ToolDelta, x: int)
  {
    d.index == Some(x) || (d.index == None && x == 0)
  }

  datatype Part = Id | Name | Arguments

  function PartOf(d: ToolDelta, part: Part): string
  {
    match part case Id => d.id case Name => d.name case Arguments => d.arguments
  }

  /** Everything the deltas say about one part of one call. */
  function Said(ds: seq<ToolDelta>, x: int, part: Part): string
  {
    if ds == [] then ""
    else
      var last := ds[|ds| - 1];
      Said(ds[..|ds| - 1], x, part) + if Concerns(last, x) then PartOf(last, part) else ""
  }

  /** Where a call is first mentioned. */
  function FirstMention(ds: seq<ToolDelta>, x: int): (p: nat)
    ensures p <= |ds|
    ensures p < |ds| ==> Concerns(ds[p], x)
    ensures forall i | 0 <= i < p :: !Concerns(ds[i], x)
  {
    if ds == [] then 0
    else
      var p := FirstMention(ds[..|ds| - 1], x);
      if p < |ds| - 1 || Concerns(ds[p], x) then p else p + 1
  }

  /** Id and name are complete before the first argument text, and do not change after it. */
  predicate Proper(ds: seq<ToolDelta>, j: nat, x: int)
    requires j < |ds|
  {
    Concerns(ds[j], x) ==>
      && (Said(ds[..j], x, Arguments) != "" ==> ds[j].id == "" && ds[j].name == "")
      && (ds[j].arguments != "" ==> Said(ds[..j + 1], x, Id) != "" && Said(ds[..j + 1], x, Name) != "")
  }

  ghost predicate Permitted(ds: seq<ToolDelta>)
  {
    forall j, x | 0 <= j < |ds| :: Proper(ds, j, x)
  }

  /** One call for each index mentioned, by first mention, with all that is said about it. */
  ghost predicate CallsAre(calls: seq<Call>, ds: seq<ToolDelta>)
  {
    && (forall i | 0 <= i < |calls| :: Whole(calls[i], ds))
    && (forall j, x | 0 <= j < |ds| && Concerns(ds[j], x) :: Called(calls, x))
    && Rising(Mentions(calls, ds))
  }

  ghost function Mentions(calls: seq<Call>, ds: seq<ToolDelta>): (ps: seq<nat>)
    ensures |ps| == |calls| && forall i | 0 <= i < |ps| :: ps[i] == FirstMention(ds, calls[i].index)
  {
    seq(|calls|, i requires 0 <= i < |calls| => FirstMention(ds, calls[i].index))
  }

  ghost predicate Rising(ps: seq<nat>)
  {
    forall i, j | 0 <= i < j < |ps| :: ps[i] < ps[j]
  }

  ghost predicate Whole(c: Call, ds: seq<ToolDelta>)
  {
    && FirstMention(ds, c.index) < |ds|
    && c.id == Said(ds, c.index, Id)
    && c.name == Said(ds, c.index, Name)
    && c.arguments == Said(ds, c.index, Arguments)
  }

  ghost predicate Called(calls: seq<Call>, x: int)
  {
    exists i | 0 <= i < |calls| :: calls[i].index == x
  }

  /** The message that choices spell out, if they keep to the rules. */
  ghost predicate Spelt(m: Option<Message>, xs: seq<Choice>)
  {
    && (m.Some? <==> Permitted(Deltas(xs)))
    && (m.Some? ==>
          && m.value.text == Words(xs)
          && m.value.finish == (if Ending(xs).Some? then Ending(xs).value.finishReason else "")
          && m.value.stopSequence == (if Ending(xs).Some? then Ending(xs).value.stopSequence else None)
          && CallsAre(m.value.calls, Deltas(xs)))
  }

  // ---------- One delta ----------

  lemma SaidSnoc(ds: seq<ToolDelta>, d: ToolDelta, x: int, part: Part)
    ensures Said(ds + [d], x, part) == Said(ds, x, part) + if Concerns(d, x) then PartOf(d, part) else ""
  {
    assert (ds + [d])[..|ds|] == ds;
  }

  lemma MentionSnoc(ds: seq<ToolDelta>, d: ToolDelta, x: int)
    ensures FirstMention(ds + [d], x) ==
            if FirstMention(ds, x) < |ds| || Concerns(d, x) then FirstMention(ds, x) else |ds| + 1
  {
    assert (ds + [d])[..|ds|] == ds;
  }

  lemma {:induction false} NothingSaid(ds: seq<ToolDelta>, x: int, part: Part)
    requires FirstMention(ds, x) == |ds|
    ensures Said(ds, x, part) == ""
  {
    if ds != [] {
      NothingSaid(ds[..|ds| - 1], x, part);
    }
  }

  lemma PermittedSnoc(ds: seq<ToolDelta>, d: ToolDelta, x: int)
    requires Concerns(d, x)
    ensures Permitted(ds + [d]) <==>
            && Permitted(ds)
            && (Said(ds, x, Arguments) != "" ==> d.id == "" && d.name == "")
            && (d.arguments != "" ==> Said(ds, x, Id) + d.id != "" && Said(ds, x, Name) + d.name != "")
  {
    var all := ds + [d];
    SaidSnoc(ds, d, x, Id);
    SaidSnoc(ds, d, x, Name);
    assert all[..|ds|] == ds && all[..|ds| + 1] == all;
    forall j, y | 0 <= j < |ds| ensures Proper(all, j, y) <==> Proper(ds, j, y) {
      assert all[..j] == ds[..j] && all[..j + 1] == ds[..j + 1];
    }
    if Permitted(all) {
      assert Proper(all, |ds|, x);
      forall j, y | 0 <= j < |ds| ensures Proper(ds, j, y) {
        assert Proper(all, j, y);
      }
    }
    hide Said;
  }

  lemma WholeCalls(calls: seq<Call>, ds: seq<ToolDelta>, d: ToolDelta, c: Call)
    requires Whole(c, ds) && !Concerns(d, c.index)
    ensures Whole(c, ds + [d]) && FirstMention(ds + [d], c.index) == FirstMention(ds, c.index)
  {
    hide Said, FirstMention, Concerns;
    SaidSnoc(ds, d, c.index, Id);
    SaidSnoc(ds, d, c.index, Name);
    SaidSnoc(ds, d, c.index, Arguments);
    MentionSnoc(ds, d, c.index);
  }

  /** What one more delta makes of its call. */
  function Grown(c: Call, d: ToolDelta): Call
  {
    Call(c.index, c.id + d.id, c.name + d.name, c.arguments + d.arguments)
  }

  lemma GrownIsWhole(ds: seq<ToolDelta>, d: ToolDelta, c: Call)
    requires Concerns(d, c.index)
    requires Whole(c, ds) || (FirstMention(ds, c.index) == |ds| && c == Call(c.index, "", "", ""))
    ensures Whole(Grown(c, d), ds + [d]) && FirstMention(ds + [d], c.index) == FirstMention(ds, c.index)
  {
    hide Said, FirstMention, Concerns;
    SaidSnoc(ds, d, c.index, Id);
    SaidSnoc(ds, d, c.index, Name);
    SaidSnoc(ds, d, c.index, Arguments);
    MentionSnoc(ds, d, c.index);
    if !Whole(c, ds) {
      NothingSaid(ds, c.index, Id);
      NothingSaid(ds, c.index, Name);
      NothingSaid(ds, c.index, Arguments);
    }
  }

  lemma CallFound(calls: seq<Call>, ds: seq<ToolDelta>, x: int)
    requires CallsAre(calls, ds)
    ensures var p := Position(calls, x);
            if p < |calls| then Whole(calls[p], ds) && calls[p].index == x else FirstMention(ds, x) == |ds|
    ensures forall i | 0 <= i < |calls| && calls[i].index == x :: i == Position(calls, x)
  {
    hide Said;
    var p := Position(calls, x);
    var f := FirstMention(ds, x);
    assert f < |ds| ==> Called(calls, x);
  }

  lemma CallsGrow(calls: seq<Call>, ds: seq<ToolDelta>, d: ToolDelta, x: int)
    requires CallsAre(calls, ds) && Concerns(d, x)
    ensures CallsAre(PutCall(calls, Grown(CallAt(calls, x), d)), ds + [d])
  {
    hide Said, FirstMention, Whole;
    var p := Position(calls, x);
    var c := CallAt(calls, x);
    var more := PutCall(calls, Grown(c, d));
    CallFound(calls, ds, x);
    GrownIsWhole(ds, d, c);
    forall i | 0 <= i < |calls| && i != p
      ensures Whole(calls[i], ds + [d]) && FirstMention(ds + [d], calls[i].index) == FirstMention(ds, calls[i].index)
    {
      WholeCalls(calls, ds, d, calls[i]);
    }
    forall i | 0 <= i < |calls|
      ensures FirstMention(ds, calls[i].index) < |ds|
    {
      MentionedCall(calls[i], ds);
    }
    StillCalled(calls, more, ds, d, x);
    assert Mentions(more, ds + [d]) == Mentions(calls, ds) + if p < |calls| then [] else [|ds|];
    StillRising(Mentions(calls, ds), Mentions(more, ds + [d]), |ds|);
  }

  lemma MentionedCall(c: Call, ds: seq<ToolDelta>)
    requires Whole(c, ds)
    ensures FirstMention(ds, c.index) < |ds|
  {
  }

  lemma StillCalled(calls: seq<Call>, more: seq<Call>, ds: seq<ToolDelta>, d: ToolDelta, x: int)
    requires CallsAre(calls, ds) && Concerns(d, x)
    requires more == PutCall(calls, Grown(CallAt(calls, x), d))
    ensures forall j, y | 0 <= j < |ds + [d]| && Concerns((ds + [d])[j], y) :: Called(more, y)
  {
    hide Said, FirstMention, Whole;
    var p := Position(calls, x);
    assert more[p].index == x;
    forall j, y | 0 <= j < |ds + [d]| && Concerns((ds + [d])[j], y) ensures Called(more, y) {
      if j < |ds| {
        assert Concerns(ds[j], y) && Called(calls, y);
        var i :| 0 <= i < |calls| && calls[i].index == y;
        assert more[i].index == y;
      }
    }
  }

  lemma StillRising(before: seq<nat>, after: seq<nat>, n: nat)
    requires Rising(before) && forall i | 0 <= i < |before| :: before[i] < n
    requires after == before || after == before + [n]
    ensures Rising(after)
  {
  }

  /** One more delta: refused exactly when it breaks the rules, and otherwise added to its call. */
  lemma OneMoreDelta(m: Message, ds: seq<ToolDelta>, d: ToolDelta)
    requires Permitted(ds) && CallsAre(m.calls, ds)
    ensures var next := AddCall(m, d);
            && (next.Some? <==> Permitted(ds + [d]))
            && (next.Some? ==> next.value == m.(calls := next.value.calls) && CallsAre(next.value.calls, ds + [d]))
  {
    hide Permitted, CallsAre, Said, FirstMention;
    var x := if d.index.Some? then d.index.value else 0;
    var c := CallAt(m.calls, x);
    PermittedSnoc(ds, d, x);
    CallFound(m.calls, ds, x);
    if Position(m.calls, x) == |m.calls| {
      NothingSaid(ds, x, Id);
      NothingSaid(ds, x, Name);
      NothingSaid(ds, x, Arguments);
    }
    CallsGrow(m.calls, ds, d, x);
  }

  // ---------- Whole choices and chunks ----------

  lemma {:induction false} PermittedPrefix(ds: seq<ToolDelta>, more: seq<ToolDelta>)
    requires !Permitted(ds)
    ensures !Permitted(ds + more)
  {
    hide Said;
    var j, x :| 0 <= j < |ds| && !Proper(ds, j, x);
    assert (ds + more)[..j] == ds[..j] && (ds + more)[..j + 1] == ds[..j + 1];
    assert !Proper(ds + more, j, x);
  }

  lemma {:induction false} MoreDeltas(m: Message, ds: seq<ToolDelta>, more: seq<ToolDelta>, n: nat)
    requires Permitted(ds) && CallsAre(m.calls, ds) && n <= |more|
    ensures var next := AddCalls(m, more, n);
            && (next.Some? <==> Permitted(ds + more[..n]))
            && (next.Some? ==>
                  next.value == m.(calls := next.value.calls) && CallsAre(next.value.calls, ds + more[..n]))
  {
    hide Permitted, CallsAre, AddCall;
    if n == 0 {
      assert ds + more[..n] == ds;
    } else {
      MoreDeltas(m, ds, more, n - 1);
      var before := AddCalls(m, more, n - 1);
      assert ds + more[..n] == ds + more[..n - 1] + [more[n - 1]];
      if before.Some? {
        OneMoreDelta(before.value, ds + more[..n - 1], more[n - 1]);
      } else {
        PermittedPrefix(ds + more[..n - 1], [more[n - 1]]);
      }
    }
  }

  lemma ChoiceSnoc(xs: seq<Choice>, c: Choice)
    ensures Words(xs + [c]) == Words(xs) + if c.index == 0 && c.delta.Some? then c.delta.value.content else ""
    ensures Deltas(xs + [c]) == Deltas(xs) + ToolDeltas(c)
    ensures Ending(xs + [c]) == if c.index == 0 && c.finishReason != "" then Some(c) else Ending(xs)
  {
    assert (xs + [c])[..|xs|] == xs;
  }

  lemma OneMoreChoice(m: Option<Message>, xs: seq<Choice>, c: Choice)
    requires Spelt(m, xs)
    ensures Spelt(if m.Some? then AddChoice(m.value, c) else None, xs + [c])
  {
    hide Permitted, CallsAre, Words, Deltas, Ending, AddCalls;
    ChoiceSnoc(xs, c);
    if m.None? {
      PermittedPrefix(Deltas(xs), ToolDeltas(c));
    } else if c.index == 0 && c.delta.Some? {
      var ds := c.delta.value.toolCalls;
      var m1 := if c.finishReason != "" then m.value.(finish := c.finishReason, stopSequence := c.stopSequence)
                else m.value;
      MoreDeltas(m1.(text := m1.text + c.delta.value.content), Deltas(xs), ds, |ds|);
      assert ds[..|ds|] == ds;
    } else {
      assert Deltas(xs) + [] == Deltas(xs) && Words(xs) + "" == Words(xs);
    }
  }

  lemma {:induction false} MoreChoices(m: Message, xs: seq<Choice>, more: seq<Choice>, n: nat)
    requires Spelt(Some(m), xs) && n <= |more|
    ensures Spelt(AddChoices(m, more, n), xs + more[..n])
  {
    hide Spelt, AddChoice;
    if n == 0 {
      assert xs + more[..n] == xs;
    } else {
      MoreChoices(m, xs, more, n - 1);
      OneMoreChoice(AddChoices(m, more, n - 1), xs + more[..n - 1], more[n - 1]);
      assert xs + more[..n] == xs + more[..n - 1] + [more[n - 1]];
    }
  }

  lemma {:induction false} StaysRefused(xs: seq<Choice>, more: seq<Choice>)
    requires Spelt(None, xs)
    ensures Spelt(None, xs + more)
    decreases |more|
  {
    hide Spelt;
    if more == [] {
      assert xs + more == xs;
    } else {
      OneMoreChoice(None, xs, more[0]);
      StaysRefused(xs + [more[0]], more[1..]);
      assert xs + more == xs + [more[0]] + more[1..];
    }
  }

  lemma NothingSpelt()
    ensures Spelt(Some(NO_MESSAGE), [])
  {
  }

  lemma StartIsNotSpelt(m: Message, usage: Option<Usage>, xs: seq<Choice>)
    requires Spelt(Some(m), xs)
    ensures Spelt(Some(Started(m, usage)), xs)
  {
    hide Permitted, CallsAre, Words, Deltas, Ending, UsageFromChat;
  }

  /**
   * Reading any stream of chunks: it is refused exactly when some tool delta of the first choice
   * breaks the rules, and otherwise gives the texts of that choice joined, the last reason to finish,
   * and for each tool index, in the order of first mention, all that was said about it joined.
   */
  lemma {:induction false} ChunksSpell(cs: seq<Chunk>)
    ensures Spelt(Read(cs), Choices(cs))
  {
    hide Spelt, AddChoices;
    if cs == [] {
      NothingSpelt();
    } else {
      var front, last := cs[..|cs| - 1], cs[|cs| - 1];
      ChunksSpell(front);
      if Read(front).None? {
        StaysRefused(Choices(front), last.choices);
      } else {
        var m := Read(front).value;
        StartIsNotSpelt(m, last.usage, Choices(front));
        MoreChoices(Started(m, last.usage), Choices(front), last.choices, |last.choices|);
        assert last.choices[..|last.choices|] == last.choices;
      }
    }
  }

  lemma {:induction false} ChoicesKeepStart(m: Message, cs: seq<Choice>, n: nat)
    requires n <= |cs|
    ensures AddChoices(m, cs, n).Some? ==> AddChoices(m, cs, n).value.start == m.start
  {
    hide AddCalls;
    if n > 0 {
      ChoicesKeepStart(m, cs, n - 1);
      if AddChoices(m, cs, n - 1).Some? && cs[n - 1].delta.Some? {
        var m0, c := AddChoices(m, cs, n - 1).value, cs[n - 1];
        var m1 := if c.finishReason != "" then m0.(finish := c.finishReason, stopSequence := c.stopSequence) else m0;
        var ds := c.delta.value.toolCalls;
        CallsKeepStart(m1.(text := m1.text + c.delta.value.content), ds, |ds|);
      }
    }
  }

  lemma {:induction false} CallsKeepStart(m: Message, ds: seq<ToolDelta>, n: nat)
    requires n <= |ds|
    ensures AddCalls(m, ds, n).Some? ==> AddCalls(m, ds, n).value.start == m.start
  {
    if n > 0 {
      CallsKeepStart(m, ds, n - 1);
    }
  }

  /** The usage at the start is what the first chunk knows of the input, with no output yet. */
  lemma {:induction false} StartIsFirst(cs: seq<Chunk>)
    requires cs != [] && Read(cs).Some?
    ensures Read(cs).value.start ==
            Some(match cs[0].usage
                 case None => WireUsage(0, 0, 0, 0)
                 case Some(u) => WireUsage(u.prompt, 0, u.cacheRead, u.cacheWrite))
  {
    hide AddChoices;
    var front, last := cs[..|cs| - 1], cs[|cs| - 1];
    ChoicesKeepStart(Started(Read(front).value, last.usage), last.choices, |last.choices|);
    if front != [] {
      StartIsFirst(front);
    }
  }
}
