/** The chat-chunk to Anthropic-event translation, step by step on values. */
module MessagesBridge {
  import opened Wrappers
  import opened ChatChunks
  import opened AnthropicEvents
  import opened ArgumentAssembly
  import opened ToolSegments
  import opened ToolBuffer

  datatype Kind = Thinking | Text

  datatype State = State(
    openKind: Option<Kind>,
    openIndex: int,
    buffer: Buffer,
    lastToolIndex: Option<int>,
    finish: string,
    started: bool)

  const INITIAL := State(None, -1, Empty(0), None, "", false)

  datatype Machine = Machine(st: State, out: seq<Event>)

  function BlockOf(kind: Kind): Block {
    if kind == Text then TEXT_BLOCK else THINKING_BLOCK
  }

  function DeltaOf(kind: Kind, payload: string): Delta {
    Delta(if kind == Text then "text_delta" else "thinking_delta", payload, "")
  }

  function ArgumentsDelta(part: string): Delta {
    Delta("input_json_delta", part, "")
  }

  /** `_close_block` when a block is open. */
  function CloseBlock(m: Machine): Machine {
    if m.st.openKind.None? then m
    else Machine(m.st.(openKind := None), m.out + [BlockStop(m.st.openIndex, "")])
  }

  function OpenBlock(m: Machine, kind: Kind): Machine {
    Machine(m.st.(openKind := Some(kind), openIndex := m.st.openIndex + 1),
            m.out + [BlockStart(m.st.openIndex + 1, BlockOf(kind), "")])
  }

  function ArgumentDeltas(index: int, parts: seq<string>): seq<Event> {
    seq(|parts|, i requires 0 <= i < |parts| => BlockDelta(index, ArgumentsDelta(parts[i]), ""))
  }

  /** One buffered call as a whole block. */
  function CallEvents(index: int, c: Call): seq<Event> {
    [BlockStart(index, ToolBlock(c.id, c.name), "")] + ArgumentDeltas(index, c.parts) + [BlockStop(index, "")]
  }

  /** The buffered calls as consecutive blocks after `index`. */
  function CallsEvents(index: int, pending: seq<Call>): seq<Event> {
    if pending == [] then []
    else CallsEvents(index, pending[..|pending| - 1]) + CallEvents(index + |pending|, pending[|pending| - 1])
  }

  /** `_flush_tool_calls`. */
  function Flush(m: Machine): Machine {
    if m.st.buffer.pending == [] then m
    else
      var m1 := CloseBlock(m);
      var pending := m.st.buffer.pending;
      Machine(m1.st.(openIndex := m1.st.openIndex + |pending|, buffer := Empty(m.st.buffer.minted)),
              m1.out + CallsEvents(m1.st.openIndex, pending))
  }

  /** A piece of reasoning or text: flush the calls, switch blocks if needed, emit the delta. */
  function OnPiece(m: Machine, kind: Kind, payload: string): Machine {
    var m1 := Flush(m);
    var m2 := if m1.st.openKind == Some(kind) then m1 else OpenBlock(CloseBlock(m1), kind);
    Machine(m2.st, m2.out + [BlockDelta(m2.st.openIndex, DeltaOf(kind, payload), "")])
  }

  /** An entry without an index belongs to the most recent call, or to index 0. */
  function Resolve(d: ToolDelta, last: Option<int>): Fragment {
    Fragment(if d.index.Some? then d.index.value else last.GetOr(0), d.id, d.name, d.args)
  }

  function OnTool(complete: JsonTest, m: Machine, d: ToolDelta): Machine
    requires Valid(m.st.buffer)
  {
    var f := Resolve(d, m.st.lastToolIndex);
    m.(st := m.st.(buffer := Record(complete, m.st.buffer, f), lastToolIndex := Some(f.index)))
  }

  function OnTools(complete: JsonTest, m: Machine, ds: seq<ToolDelta>): (r: Machine)
    requires Valid(m.st.buffer)
    ensures Valid(r.st.buffer)
  {
    if ds == [] then m else OnTool(complete, OnTools(complete, m, ds[..|ds| - 1]), ds[|ds| - 1])
  }

  function Start(m: Machine): Machine {
    if m.st.started then m else Machine(m.st.(started := true), m.out + [MessageStart("")])
  }

  function OnPieceIf(m: Machine, kind: Kind, payload: string): (r: Machine)
    ensures Valid(m.st.buffer) ==> Valid(r.st.buffer)
  {
    if payload != "" then OnPiece(m, kind, payload) else m
  }

  /** The reasoning and text of one chunk. */
  function OnPieces(m: Machine, reasoning: string, content: string): Machine {
    OnPieceIf(OnPieceIf(Start(m), Thinking, reasoning), Text, content)
  }

  function SetFinish(m: Machine, finish: string): Machine {
    if finish != "" then m.(st := m.st.(finish := finish)) else m
  }

  /** One chunk that is not an upstream error. */
  function OnChunk(complete: JsonTest, m: Machine, c: Chunk): (r: Machine)
    requires Valid(m.st.buffer)
    ensures Valid(r.st.buffer)
  {
    if !c.Choice? then m
    else
      SetFinish(OnTools(complete, OnPieces(m, c.reasoning, c.content), c.tools), c.finish)
  }

  function OnChunks(complete: JsonTest, chunks: seq<Chunk>): (r: Machine)
    ensures Valid(r.st.buffer)
  {
    if chunks == [] then Machine(INITIAL, [])
    else OnChunk(complete, OnChunks(complete, chunks[..|chunks| - 1]), chunks[|chunks| - 1])
  }

  function StopReason(finish: string): string {
    if finish == "tool_calls" || finish == "function_call" then "tool_use"
    else if finish == "length" then "max_tokens"
    else "end_turn"
  }

  function EndNormally(m: Machine): seq<Event> {
    var m1 := CloseBlock(Flush(Start(m)));
    m1.out + [MessageDelta(StopReason(m1.st.finish), ""), MessageStop("")]
  }

  /** The whole output: an upstream error ends it at once. */
  function Convert(complete: JsonTest, chunks: seq<Chunk>): seq<Event> {
    var before := BeforeError(chunks);
    var m := OnChunks(complete, before);
    if |before| < |chunks| then m.out + [Error("")] else EndNormally(m)
  }
}
