/**
 * Anthropic message events to chat completion chunks: `translateStreamEvent` and `mapStopReason`
 * of `internal/provider/anthropic/anthropic.go`.
 */
module StreamDecoding {
  import opened Deployments
  import opened Messages

  // ---------- Events as they arrive ----------

  datatype UpstreamBlock = UpstreamBlock(kind: string, id: string, name: string)

  datatype UpstreamDelta = UpstreamDelta(
    kind: string,
    text: string,
    stopReason: string,
    stopSequence: Option<string>,
    partialJson: string)

  /** A decoded event. `message` is the usage inside the message of a `message_start`. */
  datatype Upstream = Upstream(
    kind: string,
    index: int,
    block: Option<UpstreamBlock>,
    delta: Option<UpstreamDelta>,
    message: Option<WireUsage>,
    usage: Option<WireUsage>)

  const NO_DELTA := UpstreamDelta("", "", "", None, "")

  /** The wire shape of an event. */
  function Printed(e: Event): Upstream
  {
    match e
    case MessageStart(u) => Upstream("message_start", 0, None, None, Some(u), None)
    case BlockStart(i, TextBlock) =>
      Upstream("content_block_start", i, Some(UpstreamBlock("text", "", "")), None, None, None)
    case BlockStart(i, ToolBlock(id, name)) =>
      Upstream("content_block_start", i, Some(UpstreamBlock("tool_use", id, name)), None, None, None)
    case BlockDelta(i, TextDelta(text)) =>
      Upstream("content_block_delta", i, None, Some(NO_DELTA.(kind := "text_delta", text := text)), None, None)
    case BlockDelta(i, JsonDelta(partial)) =>
      Upstream("content_block_delta", i, None, Some(NO_DELTA.(kind := "input_json_delta", partialJson := partial)),
               None, None)
    case BlockStop(i) => Upstream("content_block_stop", i, None, None, None, None)
    case MessageDelta(reason, sequence, u) =>
      Upstream("message_delta", 0, None, Some(NO_DELTA.(stopReason := reason, stopSequence := sequence)), None, u)
    case MessageStop => Upstream("message_stop", 0, None, None, None, None)
    case Ping => Upstream("ping", 0, None, None, None, None)
  }

  // ---------- Translation ----------

  /** Token counts kept from `message_start`, and the tool rank of each tool block. */
  datatype Memory = Memory(inputTokens: int, cacheRead: int, cacheWrite: int, toolIndices: map<int, int>)

  const NO_MEMORY := Memory(0, 0, 0, map[])

  function MapStopReason(reason: string): string
  {
    if reason == "end_turn" then "stop"
    else if reason == "max_tokens" then "length"
    else if reason == "tool_use" then "tool_calls"
    else reason
  }

  function DeltaChunk(d: Delta): Chunk
  {
    Chunk([Choice(0, Some(d), "", None)], None)
  }

  function ToolChunk(index: int, id: string, name: string, arguments: string): Chunk
  {
    DeltaChunk(Delta("", [ToolDelta(Some(index), id, name, arguments)]))
  }

  predicate StartsTool(e: Upstream)
  {
    e.kind == "content_block_start" && e.block.Some? && e.block.value.kind == "tool_use"
  }

  function ToolIndices(indices: map<int, int>, e: Upstream): map<int, int>
  {
    if StartsTool(e) then indices[e.index := |indices|] else indices
  }

  /** The usage reported at the end, once the counts kept from the start are added. */
  function FinalUsage(m: Memory, usage: Option<WireUsage>): Option<Usage>
  {
    var output := match usage case None => 0 case Some(u) => u.output;
    if output > 0 || m.inputTokens > 0 then
      Some(Usage(m.inputTokens, output, m.inputTokens + output, m.cacheRead, m.cacheWrite))
    else None
  }

  /** One event as a function on what is remembered. */
  function Translated(m: Memory, e: Upstream): (Memory, Option<Chunk>)
  {
    var indices := ToolIndices(m.toolIndices, e);
    var remembered := m.(toolIndices := indices);
    var toolIndex := if e.index in indices then indices[e.index] else e.index;
    if StartsTool(e) then
      (remembered, Some(ToolChunk(toolIndex, e.block.value.id, e.block.value.name, "")))
    else if e.kind == "content_block_delta" && e.delta.Some? then
      if e.delta.value.kind == "input_json_delta" then
        (remembered, Some(ToolChunk(toolIndex, "", "", e.delta.value.partialJson)))
      else if e.delta.value.text != "" then
        (remembered, Some(DeltaChunk(Delta(e.delta.value.text, []))))
      else (remembered, None)
    else if e.kind == "message_start" then
      (match e.message
       case None => remembered
       case Some(u) => Memory(u.input, u.cacheRead, u.cacheCreation, indices),
       Some(DeltaChunk(Delta("", []))))
    else if e.kind == "message_delta" && e.delta.Some? && e.delta.value.stopReason != "" then
      (remembered,
       Some(Chunk([Choice(0, Some(Delta("", [])), MapStopReason(e.delta.value.stopReason), e.delta.value.stopSequence)],
                  FinalUsage(m, e.usage))))
    else (remembered, None)
  }

  class StreamDecoder {
    var inputTokens: int
    var cacheReadTokens: int
    var cacheWriteTokens: int
    var toolIndices: map<int, int>

    constructor ()
      ensures State() == NO_MEMORY
    {
      inputTokens, cacheReadTokens, cacheWriteTokens := 0, 0, 0;
      toolIndices := map[];
    }

    ghost function State(): Memory
      reads this
    {
      Memory(inputTokens, cacheReadTokens, cacheWriteTokens, toolIndices)
    }

    method Translate(e: Upstream) returns (chunk: Option<Chunk>)
      modifies this
      ensures (State(), chunk) == Translated(old(State()), e)
    {
      var toolIndex := e.index;
      if e.kind == "content_block_start" && e.block.Some? && e.block.value.kind == "tool_use" {
        toolIndices := toolIndices[e.index := |toolIndices|];
      }
      if e.index in toolIndices {
        toolIndex := toolIndices[e.index];
      }
      if e.kind == "content_block_start" {
        if e.block.Some? && e.block.value.kind == "tool_use" {
          return Some(ToolChunk(toolIndex, e.block.value.id, e.block.value.name, ""));
        }
      } else if e.kind == "content_block_delta" {
        if e.delta.Some? && e.delta.value.kind == "input_json_delta" {
          return Some(ToolChunk(toolIndex, "", "", e.delta.value.partialJson));
        }
        if e.delta.Some? && e.delta.value.text != "" {
          return Some(DeltaChunk(Delta(e.delta.value.text, [])));
        }
      } else if e.kind == "message_start" {
        if e.message.Some? {
          inputTokens := e.message.value.input;
          cacheReadTokens := e.message.value.cacheRead;
          cacheWriteTokens := e.message.value.cacheCreation;
        }
        return Some(DeltaChunk(Delta("", [])));
      } else if e.kind == "message_delta" {
        if e.delta.Some? && e.delta.value.stopReason != "" {
          var outputTokens := 0;
          if e.usage.Some? {
            outputTokens := e.usage.value.output;
          }
          var usage := None;
          if outputTokens > 0 || inputTokens > 0 {
            usage := Some(Usage(
              inputTokens, outputTokens, inputTokens + outputTokens, cacheReadTokens, cacheWriteTokens));
          }
          return Some(Chunk(
            [Choice(0, Some(Delta("", [])), MapStopReason(e.delta.value.stopReason), e.delta.value.stopSequence)],
            usage));
        }
      }
      return None;
    }
  }
}
