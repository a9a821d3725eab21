/** The chat-chunk to Responses-event translation, step by step on values.

    A `Batch` is what one of the bridge's helpers computes: the new state and the events it
    returns. A `Machine` is a run so far: the state and every event yielded, each with the
    state the generator is suspended in at that yield. */
module ResponsesBridge {
  import opened Wrappers
  import opened Sequences
  import opened ChatChunks
  import opened ResponsesEvents

  datatype Options = Options(emitReasoning: bool, lengthAsCompleted: bool)

  /** An open reasoning or message item. */
  datatype OpenText = OpenText(id: nat, oi: nat, channel: Channel, buf: seq<string>)

  /** An open function call; `upstreamId` is "" until the upstream names the call. */
  datatype OpenCall = OpenCall(id: nat, oi: nat, callId: CallId, upstreamId: string, name: string, buf: seq<string>)

  datatype State = State(
    seqNo: nat,
    nextOi: nat,
    output: seq<(nat, Item)>,
    finish: string,
    reasoning: Option<OpenText>,
    text: Option<OpenText>,
    tools: map<int, OpenCall>,
    toolOrder: seq<int>,
    holder: Holder,
    minted: nat)

  const INITIAL := State(0, 0, [], "", None, None, map[], [], Unset, 0)

  datatype Batch = Batch(st: State, events: seq<Event>)

  datatype Yield = Yield(event: Event, at: State)

  datatype Machine = Machine(st: State, trace: seq<Yield>)

  function FinishToStatus(finish: string, lengthAsCompleted: bool): Status {
    if finish == "length" then (if lengthAsCompleted then Completed else Incomplete)
    else if finish == "content_filter" then Incomplete
    else Completed
  }

  function ItemStatus(st: State, o: Options): Status {
    FinishToStatus(st.finish, o.lengthAsCompleted)
  }

  /** Number the payloads consecutively from the state's counter. */
  function Bump(st: State, payloads: seq<Payload>): Batch {
    Batch(st.(seqNo := st.seqNo + |payloads|),
          seq(|payloads|, i requires 0 <= i < |payloads| => Event(st.seqNo + i, payloads[i])))
  }

  function CloseReasoning(st: State, o: Options): Batch {
    match st.reasoning
    case None => Batch(st, [])
    case Some(r) =>
      var full := Join(r.buf);
      var item := ReasoningItem(r.id, ItemStatus(st, o), full);
      Bump(st.(output := st.output + [(r.oi, item)], reasoning := None),
           [TextDone(r.oi, r.id, ReasoningText, full), PartDone(r.oi, r.id, ReasoningText, full), ItemDone(r.oi, item)])
  }

  function OpenMessage(st: State, channel: Channel): Batch {
    var t := OpenText(st.minted, st.nextOi, channel, []);
    Bump(st.(text := Some(t), nextOi := st.nextOi + 1, minted := st.minted + 1),
         [ItemAdded(t.oi, t.id, MessageShell), PartAdded(t.oi, t.id, channel)])
  }

  function CloseText(st: State, o: Options): Batch {
    match st.text
    case None => Batch(st, [])
    case Some(t) =>
      var full := Join(t.buf);
      var item := MessageItem(t.id, ItemStatus(st, o), t.channel, full);
      Bump(st.(output := st.output + [(t.oi, item)], text := None),
           [TextDone(t.oi, t.id, t.channel, full), PartDone(t.oi, t.id, t.channel, full), ItemDone(t.oi, item)])
  }

  function CloseCall(st: State, o: Options, idx: int): Batch {
    if idx !in st.tools then Batch(st, [])
    else
      var t := st.tools[idx];
      var args := Join(t.buf);
      var item := CallItem(t.id, ItemStatus(st, o), t.callId, t.name, args);
      Bump(st.(output := st.output + [(t.oi, item)], tools := st.tools - {idx}),
           [TextDone(t.oi, t.id, Arguments, args), ItemDone(t.oi, item)])
  }

  /** Close the calls listed in `order`, collecting all events. */
  function CloseCalls(st: State, o: Options, order: seq<int>): Batch {
    if order == [] then Batch(st, [])
    else
      var before := CloseCalls(st, o, order[..|order| - 1]);
      var last := CloseCall(before.st, o, order[|order| - 1]);
      Batch(last.st, before.events + last.events)
  }

  function CloseAllCalls(st: State, o: Options): Batch {
    CloseCalls(st, o, st.toolOrder)
  }

  // ---- What the `finally` block rebuilds ---------------------------------

  datatype Piece = ReasoningPiece | MessagePiece(channel: Channel, text: string) | CallPiece(call: ToolCall)

  function PieceOf(item: Item): Piece {
    match item
    case ReasoningItem(_, _, _) => ReasoningPiece
    case MessageItem(_, _, channel, text) => MessagePiece(channel, text)
    case CallItem(_, _, callId, name, args) => CallPiece(ToolCall(callId, name, args))
  }

  function ClosedPairs(output: seq<(nat, Item)>): seq<(nat, Piece)> {
    seq(|output|, i requires 0 <= i < |output| => (output[i].0, PieceOf(output[i].1)))
  }

  function TextPairs(text: Option<OpenText>): seq<(nat, Piece)> {
    match text
    case None => []
    case Some(t) => [(t.oi, MessagePiece(t.channel, Join(t.buf)))]
  }

  function CallPair(t: OpenCall): (nat, Piece) {
    (t.oi, CallPiece(ToolCall(t.callId, t.name, Join(t.buf))))
  }

  function CallPairs(tools: map<int, OpenCall>, order: seq<int>): seq<(nat, Piece)> {
    if order == [] then []
    else
      var idx := order[|order| - 1];
      CallPairs(tools, order[..|order| - 1]) + (if idx in tools then [CallPair(tools[idx])] else [])
  }

  function Pairs(st: State): seq<(nat, Piece)> {
    ClosedPairs(st.output) + TextPairs(st.text) + CallPairs(st.tools, FirstOccurrences(st.toolOrder))
  }

  /** The pieces filed under one output index, in their order. */
  function At<T>(pairs: seq<(nat, T)>, oi: nat): seq<T> {
    if pairs == [] then []
    else
      var last := pairs[|pairs| - 1];
      At(pairs[..|pairs| - 1], oi) + (if last.0 == oi then [last.1] else [])
  }

  /** A stable sort by output index, for indices below `n`. */
  function SortByIndex<T>(pairs: seq<(nat, T)>, n: nat): seq<T> {
    if n == 0 then [] else SortByIndex(pairs, n - 1) + At(pairs, n - 1)
  }

  /** What a piece adds to the text of a channel, and to the calls. */
  function SaidBy(p: Piece, channel: Channel): string {
    if p.MessagePiece? && p.channel == channel then p.text else ""
  }

  function CalledBy(p: Piece): seq<ToolCall> {
    if p.CallPiece? then [p.call] else []
  }

  function PieceText(pieces: seq<Piece>, channel: Channel): string {
    if pieces == [] then ""
    else PieceText(pieces[..|pieces| - 1], channel) + SaidBy(pieces[|pieces| - 1], channel)
  }

  function PieceCalls(pieces: seq<Piece>): seq<ToolCall> {
    if pieces == [] then [] else PieceCalls(pieces[..|pieces| - 1]) + CalledBy(pieces[|pieces| - 1])
  }

  function FinalizeHolder(holder: Holder, pieces: seq<Piece>): Holder {
    var output := PieceText(pieces, OutputText);
    var content := if output != "" then output else PieceText(pieces, RefusalText);
    var calls := PieceCalls(pieces);
    if content != "" || calls != [] then Stored(content, calls) else holder
  }

  /** The holder after the generator is closed while suspended in `st`. */
  function HolderIfClosed(st: State): Holder {
    if st.holder.Unset? then FinalizeHolder(Unset, SortByIndex(Pairs(st), st.nextOi)) else st.holder
  }

  // ---- The run -------------------------------------------------------------

  function Suspended(events: seq<Event>, st: State): seq<Yield> {
    seq(|events|, i requires 0 <= i < |events| => Yield(events[i], st))
  }

  /** Yield everything a helper returned; its state change came first. */
  function Deliver(m: Machine, b: Batch): Machine {
    Machine(b.st, m.trace + Suspended(b.events, b.st))
  }

  function OpenReasoning(m: Machine): Machine {
    var r := OpenText(m.st.minted, m.st.nextOi, ReasoningText, []);
    var st1 := m.st.(reasoning := Some(r), nextOi := m.st.nextOi + 1, minted := m.st.minted + 1);
    var m1 := Deliver(m, Bump(st1, [ItemAdded(r.oi, r.id, ReasoningShell)]));
    Deliver(m1, Bump(m1.st, [PartAdded(r.oi, r.id, ReasoningText)]))
  }

  function NothingOpen(st: State): bool {
    st.reasoning.None? && st.text.None? && st.tools == map[]
  }

  function OnReasoning(m: Machine, piece: string): Machine {
    var m1 := if NothingOpen(m.st) then OpenReasoning(m) else m;
    match m1.st.reasoning
    case None => m1
    case Some(r) =>
      Deliver(m1, Bump(m1.st.(reasoning := Some(r.(buf := r.buf + [piece]))),
                       [Delta(r.oi, r.id, ReasoningText, piece)]))
  }

  function AppendText(m: Machine, piece: string): Machine {
    match m.st.text
    case None => m
    case Some(t) =>
      Deliver(m, Bump(m.st.(text := Some(t.(buf := t.buf + [piece]))), [Delta(t.oi, t.id, t.channel, piece)]))
  }

  /** Close reasoning, then every open call. */
  function CloseOthers(m: Machine, o: Options): Machine {
    var m1 := Deliver(m, CloseReasoning(m.st, o));
    Deliver(m1, CloseAllCalls(m1.st, o))
  }

  /** Have a message of this kind open. */
  function HaveMessage(m: Machine, o: Options, channel: Channel): Machine {
    if m.st.text.None? then Deliver(m, OpenMessage(m.st, channel))
    else if m.st.text.value.channel != channel then
      var m1 := Deliver(m, CloseText(m.st, o));
      Deliver(m1, OpenMessage(m1.st, channel))
    else m
  }

  function OnMessage(m: Machine, o: Options, channel: Channel, piece: string): Machine {
    AppendText(HaveMessage(CloseOthers(m, o), o, channel), piece)
  }

  function OpenNewCall(m: Machine, idx: int, d: ToolDelta): Machine {
    var callId := if d.id != "" then Given(d.id) else Minted(m.st.minted + 1);
    var t := OpenCall(m.st.minted, m.st.nextOi, callId, d.id, d.name, []);
    Deliver(m, Bump(m.st.(tools := m.st.tools[idx := t], toolOrder := m.st.toolOrder + [idx],
                          nextOi := m.st.nextOi + 1, minted := m.st.minted + 2),
                    [ItemAdded(t.oi, t.id, CallShell(callId, d.name))]))
  }

  predicate IsNewCall(tools: map<int, OpenCall>, idx: int, id: string) {
    idx in tools && tools[idx].upstreamId != "" && id != "" && id != tools[idx].upstreamId
  }

  /** Metadata on a later fragment: the first real id and the first name stick. */
  function Learn(t: OpenCall, d: ToolDelta): OpenCall {
    t.(upstreamId := if t.upstreamId == "" then d.id else t.upstreamId,
       name := if t.name == "" then d.name else t.name)
  }

  function AppendArgs(m: Machine, idx: int, args: string): Machine
    requires idx in m.st.tools
  {
    if args == "" then m
    else
      var t := m.st.tools[idx];
      Deliver(m, Bump(m.st.(tools := m.st.tools[idx := t.(buf := t.buf + [args])]),
                      [Delta(t.oi, t.id, Arguments, args)]))
  }

  function OnTool(m: Machine, o: Options, d: ToolDelta): Machine {
    if d.index.None? then m
    else
      var idx := d.index.value;
      if idx !in m.st.tools || IsNewCall(m.st.tools, idx, d.id) then
        var m1 := if idx in m.st.tools then Deliver(m, CloseCall(m.st, o, idx)) else m;
        var m2 := Deliver(m1, CloseReasoning(m1.st, o));
        var m3 := Deliver(m2, CloseText(m2.st, o));
        AppendArgs(OpenNewCall(m3, idx, d), idx, d.args)
      else
        AppendArgs(m.(st := m.st.(tools := m.st.tools[idx := Learn(m.st.tools[idx], d)])), idx, d.args)
  }

  function OnTools(m: Machine, o: Options, ds: seq<ToolDelta>): Machine {
    if ds == [] then m else OnTool(OnTools(m, o, ds[..|ds| - 1]), o, ds[|ds| - 1])
  }

  function AtReasoning(m: Machine, o: Options, c: Chunk): Machine
    requires c.Choice?
  {
    if o.emitReasoning && c.reasoning != "" then OnReasoning(m, c.reasoning) else m
  }

  function AtContent(m: Machine, o: Options, c: Chunk): Machine
    requires c.Choice?
  {
    if c.content != "" then OnMessage(m, o, OutputText, c.content) else m
  }

  function AtRefusal(m: Machine, o: Options, c: Chunk): Machine
    requires c.Choice?
  {
    if c.refusal != "" then OnMessage(m, o, RefusalText, c.refusal) else m
  }

  /** One chunk that is not an upstream error. */
  function OnChunk(m: Machine, o: Options, c: Chunk): Machine {
    if !c.Choice? then m
    else
      var m4 := OnTools(AtRefusal(AtContent(AtReasoning(m, o, c), o, c), o, c), o, c.tools);
      m4.(st := m4.st.(finish := if c.finish != "" then c.finish else m4.st.finish))
  }

  function OnChunks(m: Machine, o: Options, chunks: seq<Chunk>): Machine {
    if chunks == [] then m else OnChunk(OnChunks(m, o, chunks[..|chunks| - 1]), o, chunks[|chunks| - 1])
  }

  function Preamble(): Machine {
    var m := Deliver(Machine(INITIAL, []), Bump(INITIAL, [Created]));
    Deliver(m, Bump(m.st, [Started]))
  }

  /** The final pass closes the calls one by one, yielding in between. */
  function CloseCallsInTurn(m: Machine, o: Options, order: seq<int>): Machine {
    if order == [] then m
    else
      var before := CloseCallsInTurn(m, o, order[..|order| - 1]);
      Deliver(before, CloseCall(before.st, o, order[|order| - 1]))
  }

  function CloseEverything(m: Machine, o: Options): Machine {
    var m1 := Deliver(m, CloseReasoning(m.st, o));
    var m2 := Deliver(m1, CloseText(m1.st, o));
    CloseCallsInTurn(m2, o, m2.st.toolOrder)
  }

  function PiecesOf(items: seq<Item>): seq<Piece> {
    seq(|items|, i requires 0 <= i < |items| => PieceOf(items[i]))
  }

  /** Everything filed so far, in order of output index. */
  function FiledItems(st: State): seq<Item> {
    SortByIndex(st.output, st.nextOi)
  }

  function Filled(st: State): State {
    st.(holder := FinalizeHolder(st.holder, PiecesOf(FiledItems(st))))
  }

  /** A stream that ends normally: the holder is filled before the terminal event. */
  function EndNormally(m: Machine, o: Options): Machine {
    var m1 := CloseEverything(m, o);
    Deliver(m1, Bump(Filled(m1.st), [Terminal(ItemStatus(m1.st, o), FiledItems(m1.st))]))
  }

  function EndInError(m: Machine): Machine {
    Deliver(m, Bump(m.st.(holder := Blocked), [Failed(FiledItems(m.st))]))
  }

  /** Everything the generator yields when it is run to its end. */
  function Convert(chunks: seq<Chunk>, o: Options): Machine {
    var before := BeforeError(chunks);
    var m := OnChunks(Preamble(), o, before);
    if |before| < |chunks| then EndInError(m) else EndNormally(m, o)
  }

  function EventsOf(trace: seq<Yield>): seq<Event> {
    seq(|trace|, i requires 0 <= i < |trace| => trace[i].event)
  }
}
