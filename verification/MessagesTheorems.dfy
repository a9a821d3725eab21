/** The Anthropic bridge against its reference, for every sequence of chunks. */
module MessagesTheorems {
  import opened Wrappers
  import opened Sequences
  import opened ChatChunks
  import opened AnthropicEvents
  import opened AnthropicGrammar
  import opened ArgumentAssembly
  import opened ToolSegments
  import opened ToolBuffer
  import opened MessagesBridge
  import opened MessagesReference
  import SS = StreamSanitizer

  // ---- What a shown block says ---------------------------------------------------------------

  function Deltas(kind: Kind, pieces: seq<string>): seq<Delta> {
    seq(|pieces|, i requires 0 <= i < |pieces| =>
      Delta(if kind == Thinking then "thinking_delta" else "text_delta", pieces[i], ""))
  }

  function RunBlock(kind: Kind): Block {
    Block(if kind == Thinking then "thinking" else "text", Plain)
  }

  function ArgumentsShown(parts: seq<string>): seq<Delta> {
    seq(|parts|, i requires 0 <= i < |parts| => Delta("input_json_delta", parts[i], ""))
  }

  /** A shown tool block carries the id, name and assembled arguments of its fragments. */
  predicate ShowsCall(complete: JsonTest, s: Shown, fs: seq<Fragment>) {
    && s.block.kind == "tool_use" && s.block.body.Tool?
    && s.block.body.name == NameOf(fs)
    && (if IdOf(fs) != "" then s.block.body.id == Given(IdOf(fs)) else s.block.body.id.Minted?)
    && s.deltas == ArgumentsShown(Assemble(complete, ArgsOf(fs)))
  }

  predicate Shows(complete: JsonTest, s: Shown, b: RefBlock) {
    match b
    case Run(kind, pieces) => s.block == RunBlock(kind) && s.deltas == Deltas(kind, pieces)
    case ToolCall(fs) => ShowsCall(complete, s, fs)
  }

  predicate ShowsAll(complete: JsonTest, shown: seq<Shown>, blocks: seq<RefBlock>) {
    |shown| == |blocks| && forall i :: 0 <= i < |blocks| ==> Shows(complete, shown[i], blocks[i])
  }

  /** The machine has shown the reference's blocks and buffers its pending fragments. */
  ghost predicate Tied(complete: JsonTest, m: Machine, r: RefState) {
    var v := WatchFrom(NOTHING, m.out);
    && v.Some? && v.value.phase == (if m.st.started then Inside else Before)
    && ShowsAll(complete, v.value.blocks, r.blocks)
    && m.st.openIndex == |v.value.blocks| - 1
    && (v.value.open <==> m.st.openKind.Some?)
    && m.st.openKind == LastKind(r.blocks)
    && Refines(complete, m.st.buffer, r.segment)
    && (!m.st.started ==> r == NO_BLOCKS)
  }

  // ---- Flushing -----------------------------------------------------------------------------

  lemma {:induction false} AssembledPartsNotEmpty(complete: JsonTest, fragments: seq<string>)
    ensures forall i :: 0 <= i < |Assemble(complete, fragments)| ==> Assemble(complete, fragments)[i] != ""
  {
    if fragments == [] {
    } else {
      AssembledPartsNotEmpty(complete, fragments[..|fragments| - 1]);
    }
  }

  lemma {:induction false} WatchArguments(v: View, block: Block, parts: seq<string>)
    requires v.phase == Inside && v.open && v.blocks != [] && v.blocks[|v.blocks| - 1] == Shown(block, [])
    requires block.kind == "tool_use" && forall i :: 0 <= i < |parts| ==> parts[i] != ""
    ensures WatchFrom(v, ArgumentDeltas(|v.blocks| - 1, parts))
            == Some(v.(blocks := v.blocks[|v.blocks| - 1 := Shown(block, ArgumentsShown(parts))]))
  {
    var k := |v.blocks| - 1;
    var events := ArgumentDeltas(k, parts);
    if parts == [] {
      assert v.blocks[k := Shown(block, [])] == v.blocks;
      assert events == [];
      assert v.(blocks := v.blocks[k := Shown(block, ArgumentsShown(parts))]) == v;
    } else {
      var front, last := parts[..|parts| - 1], parts[|parts| - 1];
      WatchArguments(v, block, front);
      assert events[..|events| - 1] == ArgumentDeltas(k, front);
      var u := v.(blocks := v.blocks[k := Shown(block, ArgumentsShown(front))]);
      assert ArgumentsShown(front) + [ArgumentsDelta(last)] == ArgumentsShown(parts);
      assert AddDelta(u.blocks, ArgumentsDelta(last)) == v.blocks[k := Shown(block, ArgumentsShown(parts))];
    }
  }

  function ShownCall(c: Call): Shown {
    Shown(ToolBlock(c.id, c.name), ArgumentsShown(c.parts))
  }

  predicate NoEmptyPart(c: Call) {
    forall i :: 0 <= i < |c.parts| ==> c.parts[i] != ""
  }

  lemma WatchCall(v: View, c: Call)
    requires v.phase == Inside && !v.open && NoEmptyPart(c)
    ensures WatchFrom(v, CallEvents(|v.blocks|, c)) == Some(v.(blocks := v.blocks + [ShownCall(c)]))
  {
    var k, block := |v.blocks|, ToolBlock(c.id, c.name);
    var start, args := [BlockStart(k, block, "")], ArgumentDeltas(k, c.parts);
    var u := v.(blocks := v.blocks + [Shown(block, [])], open := true);
    WatchSnoc(v, [], start[0]);
    assert [] + start == start;
    assert WatchFrom(v, start) == Some(u);
    WatchArguments(u, block, c.parts);
    assert u.blocks[k := ShownCall(c)] == v.blocks + [ShownCall(c)];
    WatchFromAppend(v, start, args);
    WatchSnoc(v, start + args, BlockStop(k, ""));
  }

  function ShownCalls(pending: seq<Call>): seq<Shown> {
    seq(|pending|, i requires 0 <= i < |pending| => ShownCall(pending[i]))
  }

  /** The view once the first `n` calls are shown. */
  function ViewAfter(v: View, pending: seq<Call>, n: nat): View {
    v.(blocks := v.blocks + ShownCalls(pending[..if n <= |pending| then n else |pending|]))
  }

  /** The events of the call at `n`. */
  function BatchAt(index: int, pending: seq<Call>, n: nat): seq<Event> {
    if n < |pending| then CallEvents(index + 1 + n, pending[n]) else []
  }

  function ViewsAfter(v: View, pending: seq<Call>): nat -> View {
    (n: nat) => ViewAfter(v, pending, n)
  }

  function BatchesAt(index: int, pending: seq<Call>): nat -> seq<Event> {
    (n: nat) => BatchAt(index, pending, n)
  }

  lemma {:induction false} CallsInBatches(index: int, pending: seq<Call>, n: nat)
    requires n <= |pending|
    ensures CallsEvents(index, pending[..n]) == InOrder(BatchesAt(index, pending), n)
  {
    if n == 0 {
    } else {
      CallsInBatches(index, pending, n - 1);
      assert pending[..n][..n - 1] == pending[..n - 1];
    }
  }

  /** What is watched batch by batch is watched as a whole. */
  lemma {:induction false} WatchInOrder(view: nat -> View, batch: nat -> seq<Event>, n: nat)
    requires forall j: nat {:trigger batch(j)} :: j < n ==> WatchFrom(view(j), batch(j)) == Some(view(j + 1))
    ensures WatchFrom(view(0), InOrder(batch, n)) == Some(view(n))
  {
    if n == 0 {
    } else {
      WatchInOrder(view, batch, n - 1);
      WatchFromAppend(view(0), InOrder(batch, n - 1), batch(n - 1));
    }
  }

  lemma NextView(v: View, pending: seq<Call>, n: nat)
    requires n < |pending|
    ensures var u := ViewAfter(v, pending, n);
            |u.blocks| == |v.blocks| + n
            && ViewAfter(v, pending, n + 1) == u.(blocks := u.blocks + [ShownCall(pending[n])])
  {
    assert ShownCalls(pending[..n + 1]) == ShownCalls(pending[..n]) + [ShownCall(pending[n])];
  }

  lemma WatchNthCall(v: View, pending: seq<Call>, n: nat)
    requires v.phase == Inside && !v.open && n < |pending| && NoEmptyPart(pending[n])
    ensures WatchFrom(ViewAfter(v, pending, n), BatchAt(|v.blocks| - 1, pending, n))
            == Some(ViewAfter(v, pending, n + 1))
  {
    NextView(v, pending, n);
    WatchCall(ViewAfter(v, pending, n), pending[n]);
  }

  lemma WatchCalls(v: View, pending: seq<Call>)
    requires v.phase == Inside && !v.open
    requires forall j :: 0 <= j < |pending| ==> NoEmptyPart(pending[j])
    ensures WatchFrom(v, CallsEvents(|v.blocks| - 1, pending)) == Some(v.(blocks := v.blocks + ShownCalls(pending)))
  {
    var n, k := |pending|, |v.blocks| - 1;
    forall j: nat | j < n
      ensures WatchFrom(ViewAfter(v, pending, j), BatchAt(k, pending, j)) == Some(ViewAfter(v, pending, j + 1)) {
      WatchNthCall(v, pending, j);
    }
    WatchInOrder(ViewsAfter(v, pending), BatchesAt(k, pending), n);
    CallsInBatches(k, pending, n);
    assert pending[..n] == pending && v.blocks + ShownCalls(pending[..0]) == v.blocks;
  }

  // ---- One step at a time ---------------------------------------------------------------------

  lemma EmptySegment(complete: JsonTest, minted: nat)
    ensures Refines(complete, Empty(minted), []) && CallsOf([]) == []
  {
  }

  lemma PendingShown(complete: JsonTest, b: Buffer, segment: seq<Fragment>)
    requires Refines(complete, b, segment)
    ensures ShowsAll(complete, ShownCalls(b.pending), CallsOf(segment))
    ensures forall j :: 0 <= j < |b.pending| ==> NoEmptyPart(b.pending[j])
  {
    forall j | 0 <= j < |b.pending|
      ensures Shows(complete, ShownCalls(b.pending)[j], CallsOf(segment)[j])
      ensures NoEmptyPart(b.pending[j])
    {
      assert Represents(complete, b.pending[j], Pick(segment, CallKeys(segment)[j]));
      AssembledPartsNotEmpty(complete, ArgsOf(Pick(segment, CallKeys(segment)[j])));
    }
  }

  lemma ShowsAllAppend(complete: JsonTest, a: seq<Shown>, x: seq<RefBlock>, b: seq<Shown>, y: seq<RefBlock>)
    requires ShowsAll(complete, a, x) && ShowsAll(complete, b, y)
    ensures ShowsAll(complete, a + b, x + y)
  {
  }

  /** Calls are pending exactly when the segment holds fragments. */
  lemma PendingIffFragments(complete: JsonTest, b: Buffer, segment: seq<Fragment>)
    requires Refines(complete, b, segment)
    ensures b.pending == [] <==> CallsOf(segment) == []
    ensures b.pending == [] ==> segment == []
  {
    if segment != [] { CallKeysNotEmpty(segment); }
  }

  lemma {:induction false} CallKeysNotEmpty(segment: seq<Fragment>)
    requires segment != []
    ensures CallKeys(segment) != []
  {
    FirstOccurrencesDistinct(Keys(segment));
    assert Keys(segment)[|Keys(segment)| - 1] in CallKeys(segment);
  }

  lemma CloseBlockWatched(m: Machine, v: View)
    requires WatchFrom(NOTHING, m.out) == Some(v) && v.phase == Inside && (v.open <==> m.st.openKind.Some?)
    requires m.st.openIndex == |v.blocks| - 1
    ensures WatchFrom(NOTHING, CloseBlock(m).out) == Some(v.(open := false))
  {
    if m.st.openKind.Some? { WatchSnoc(NOTHING, m.out, BlockStop(m.st.openIndex, "")); }
  }

  lemma FlushTied(complete: JsonTest, m: Machine, r: RefState)
    requires Tied(complete, m, r) && m.st.started
    ensures Tied(complete, Flush(m), RefState(r.blocks + CallsOf(r.segment), []))
  {
    PendingIffFragments(complete, m.st.buffer, r.segment);
    EmptySegment(complete, m.st.buffer.minted);
    var pending, calls := m.st.buffer.pending, CallsOf(r.segment);
    if pending == [] {
      assert r.blocks + calls == r.blocks;
    } else {
      var v := WatchFrom(NOTHING, m.out).value;
      var m1, u := CloseBlock(m), v.(open := false);
      CloseBlockWatched(m, v);
      PendingShown(complete, m.st.buffer, r.segment);
      WatchCalls(u, pending);
      WatchFromAppend(NOTHING, m1.out, CallsEvents(m1.st.openIndex, pending));
      ShowsAllAppend(complete, v.blocks, r.blocks, ShownCalls(pending), calls);
      assert (r.blocks + calls)[|r.blocks + calls| - 1] == calls[|calls| - 1];
    }
  }

  lemma AddPieceKeepsLast(blocks: seq<RefBlock>, kind: Kind, payload: string)
    ensures LastKind(AddPiece(blocks, kind, payload)) == Some(kind)
  {
  }

  lemma ExtendedRunShown(complete: JsonTest, shown: seq<Shown>, blocks: seq<RefBlock>, kind: Kind, payload: string)
    requires ShowsAll(complete, shown, blocks) && LastKind(blocks) == Some(kind)
    ensures shown[|shown| - 1].block == BlockOf(kind)
    ensures ShowsAll(complete, AddDelta(shown, DeltaOf(kind, payload)), AddPiece(blocks, kind, payload))
  {
    var k := |blocks| - 1;
    var pieces := blocks[k].pieces;
    assert Shows(complete, shown[k], blocks[k]);
    assert Deltas(kind, pieces) + [DeltaOf(kind, payload)] == Deltas(kind, pieces + [payload]);
    forall i | 0 <= i < k
      ensures Shows(complete, AddDelta(shown, DeltaOf(kind, payload))[i], AddPiece(blocks, kind, payload)[i])
    {
      assert Shows(complete, shown[i], blocks[i]);
    }
  }

  /** Extending the open run by a delta. */
  lemma DeltaTied(complete: JsonTest, m: Machine, r: RefState, kind: Kind, payload: string)
    requires Tied(complete, m, r) && m.st.started && m.st.openKind == Some(kind) && payload != "" && r.segment == []
    ensures Tied(complete, m.(out := m.out + [BlockDelta(m.st.openIndex, DeltaOf(kind, payload), "")]),
                 RefState(AddPiece(r.blocks, kind, payload), []))
  {
    var v := WatchFrom(NOTHING, m.out).value;
    ExtendedRunShown(complete, v.blocks, r.blocks, kind, payload);
    WatchSnoc(NOTHING, m.out, BlockDelta(m.st.openIndex, DeltaOf(kind, payload), ""));
    AddPieceKeepsLast(r.blocks, kind, payload);
  }

  lemma SwitchWatched(m: Machine, v: View, kind: Kind, payload: string)
    requires WatchFrom(NOTHING, m.out) == Some(v) && v.phase == Inside && (v.open <==> m.st.openKind.Some?)
    requires m.st.openIndex == |v.blocks| - 1 && payload != ""
    requires v.blocks != [] ==> v.blocks[|v.blocks| - 1].block.kind != BlockOf(kind).kind
    ensures var m2 := OpenBlock(CloseBlock(m), kind);
            && m2.st == m.st.(openKind := Some(kind), openIndex := m.st.openIndex + 1)
            && WatchFrom(NOTHING, m2.out + [BlockDelta(m2.st.openIndex, DeltaOf(kind, payload), "")])
               == Some(View(Inside, v.blocks + [Shown(BlockOf(kind), [DeltaOf(kind, payload)])], true))
  {
    var m1, m2 := CloseBlock(m), OpenBlock(CloseBlock(m), kind);
    CloseBlockWatched(m, v);
    WatchSnoc(NOTHING, m1.out, BlockStart(m1.st.openIndex + 1, BlockOf(kind), ""));
    var u := View(Inside, v.blocks + [Shown(BlockOf(kind), [])], true);
    assert WatchFrom(NOTHING, m2.out) == Some(u);
    WatchSnoc(NOTHING, m2.out, BlockDelta(m2.st.openIndex, DeltaOf(kind, payload), ""));
    assert [] + [DeltaOf(kind, payload)] == [DeltaOf(kind, payload)];
    assert AddDelta(u.blocks, DeltaOf(kind, payload)) == v.blocks + [Shown(BlockOf(kind), [DeltaOf(kind, payload)])];
  }

  /** A block whose last run is of another kind, or a call, has another type. */
  lemma LastBlockDiffers(complete: JsonTest, shown: seq<Shown>, blocks: seq<RefBlock>, kind: Kind)
    requires ShowsAll(complete, shown, blocks) && blocks != [] && LastKind(blocks) != Some(kind)
    ensures shown[|shown| - 1].block.kind != BlockOf(kind).kind
  {
    assert Shows(complete, shown[|shown| - 1], blocks[|shown| - 1]);
  }

  lemma NewRunShown(complete: JsonTest, shown: seq<Shown>, blocks: seq<RefBlock>, kind: Kind, payload: string)
    requires ShowsAll(complete, shown, blocks) && LastKind(blocks) != Some(kind)
    ensures ShowsAll(complete, shown + [Shown(BlockOf(kind), [DeltaOf(kind, payload)])],
                     AddPiece(blocks, kind, payload))
  {
    assert Deltas(kind, [payload]) == [DeltaOf(kind, payload)];
    ShowsAllAppend(complete, shown, blocks, [Shown(BlockOf(kind), [DeltaOf(kind, payload)])], [Run(kind, [payload])]);
  }

  /** Starting a new run: close what is open, open the block, send the first delta. */
  lemma SwitchTied(complete: JsonTest, m: Machine, r: RefState, kind: Kind, payload: string)
    requires Tied(complete, m, r) && m.st.started && m.st.openKind != Some(kind) && payload != "" && r.segment == []
    ensures var m2 := OpenBlock(CloseBlock(m), kind);
            Tied(complete, m2.(out := m2.out + [BlockDelta(m2.st.openIndex, DeltaOf(kind, payload), "")]),
                 RefState(AddPiece(r.blocks, kind, payload), []))
  {
    var v := WatchFrom(NOTHING, m.out).value;
    if v.blocks != [] { LastBlockDiffers(complete, v.blocks, r.blocks, kind); }
    SwitchWatched(m, v, kind, payload);
    NewRunShown(complete, v.blocks, r.blocks, kind, payload);
    AddPieceKeepsLast(r.blocks, kind, payload);
  }

  lemma OnPieceTied(complete: JsonTest, m: Machine, r: RefState, kind: Kind, payload: string)
    requires Tied(complete, m, r) && m.st.started && payload != ""
    ensures Tied(complete, OnPiece(m, kind, payload), Absorb(r, Piece(kind, payload)))
  {
    FlushTied(complete, m, r);
    var m1, r1 := Flush(m), RefState(r.blocks + CallsOf(r.segment), []);
    if m1.st.openKind == Some(kind) {
      DeltaTied(complete, m1, r1, kind, payload);
    } else {
      SwitchTied(complete, m1, r1, kind, payload);
    }
  }

  lemma OnPieceIfTied(complete: JsonTest, m: Machine, r: RefState, kind: Kind, payload: string)
    requires Tied(complete, m, r) && m.st.started
    ensures Tied(complete, OnPieceIf(m, kind, payload), AbsorbAll(r, PieceAtoms(kind, payload)))
    ensures OnPieceIf(m, kind, payload).st.started
    ensures OnPieceIf(m, kind, payload).st.lastToolIndex == m.st.lastToolIndex
    ensures OnPieceIf(m, kind, payload).st.finish == m.st.finish
  {
    if payload != "" {
      OnPieceTied(complete, m, r, kind, payload);
      AbsorbSnoc(r, [], Piece(kind, payload));
      assert [] + [Piece(kind, payload)] == [Piece(kind, payload)];
    }
  }

  /** The index for an entry without one. */
  function IndexSoFar(m: Machine): int {
    m.st.lastToolIndex.GetOr(0)
  }

  lemma OnToolTied(complete: JsonTest, m: Machine, r: RefState, d: ToolDelta)
    requires Tied(complete, m, r) && m.st.started
    ensures Tied(complete, OnTool(complete, m, d),
                 Absorb(r, ToolAtom(Fragment(LastIndex([d], IndexSoFar(m)), d.id, d.name, d.args))))
    ensures IndexSoFar(OnTool(complete, m, d)) == LastIndex([d], IndexSoFar(m))
  {
    RecordRefines(complete, m.st.buffer, r.segment, Resolve(d, m.st.lastToolIndex));
  }

  lemma {:induction false} OnToolsTied(complete: JsonTest, m: Machine, r: RefState, ds: seq<ToolDelta>)
    requires Tied(complete, m, r) && m.st.started
    ensures Tied(complete, OnTools(complete, m, ds), AbsorbAll(r, ToolAtoms(ds, IndexSoFar(m))))
    ensures OnTools(complete, m, ds).st.started
    ensures IndexSoFar(OnTools(complete, m, ds)) == LastIndex(ds, IndexSoFar(m))
    ensures OnTools(complete, m, ds).st.finish == m.st.finish
  {
    if ds == [] {
    } else {
      var front, d := ds[..|ds| - 1], ds[|ds| - 1];
      OnToolsTied(complete, m, r, front);
      var m1, r1 := OnTools(complete, m, front), AbsorbAll(r, ToolAtoms(front, IndexSoFar(m)));
      OnToolTied(complete, m1, r1, d);
      var f := Fragment(LastIndex(ds, IndexSoFar(m)), d.id, d.name, d.args);
      AbsorbSnoc(r, ToolAtoms(front, IndexSoFar(m)), ToolAtom(f));
    }
  }

  lemma StartTied(complete: JsonTest, m: Machine, r: RefState)
    requires Tied(complete, m, r)
    ensures Tied(complete, Start(m), r)
  {
    if !m.st.started { WatchSnoc(NOTHING, m.out, MessageStart("")); }
  }

  lemma OnChunkTied(complete: JsonTest, m: Machine, r: RefState, c: Chunk)
    requires Tied(complete, m, r)
    ensures Tied(complete, OnChunk(complete, m, c), AbsorbAll(r, ChunkAtoms(c, IndexSoFar(m))))
    ensures IndexSoFar(OnChunk(complete, m, c))
            == (if c.Choice? then LastIndex(c.tools, IndexSoFar(m)) else IndexSoFar(m))
    ensures OnChunk(complete, m, c).st.finish == (if c.Choice? && c.finish != "" then c.finish else m.st.finish)
  {
    if c.Choice? {
      var a, b, t := PieceAtoms(Thinking, c.reasoning), PieceAtoms(Text, c.content),
          ToolAtoms(c.tools, IndexSoFar(m));
      StartTied(complete, m, r);
      var m1, m2 := OnPieceIf(Start(m), Thinking, c.reasoning),
          OnPieceIf(OnPieceIf(Start(m), Thinking, c.reasoning), Text, c.content);
      OnPieceIfTied(complete, Start(m), r, Thinking, c.reasoning);
      OnPieceIfTied(complete, m1, AbsorbAll(r, a), Text, c.content);
      AbsorbAppend(r, a, b);
      OnToolsTied(complete, m2, AbsorbAll(r, a + b), c.tools);
      AbsorbAppend(r, a + b, t);
    }
  }

  lemma {:induction false} OnChunksTied(complete: JsonTest, chunks: seq<Chunk>)
    ensures Tied(complete, OnChunks(complete, chunks), AbsorbAll(NO_BLOCKS, AtomsOf(chunks)))
    ensures IndexSoFar(OnChunks(complete, chunks)) == LastIndexOf(chunks)
    ensures OnChunks(complete, chunks).st.finish == FinishOf(chunks)
  {
    if chunks == [] {
      EmptySegment(complete, 0);
    } else {
      var front, c := chunks[..|chunks| - 1], chunks[|chunks| - 1];
      OnChunksTied(complete, front);
      OnChunkTied(complete, OnChunks(complete, front), AbsorbAll(NO_BLOCKS, AtomsOf(front)), c);
      AbsorbAppend(NO_BLOCKS, AtomsOf(front), ChunkAtoms(c, LastIndexOf(front)));
    }
  }

  // ---- Main results ------------------------------------------------------------------------------

  lemma ClosingWatched(m: Machine, v: View)
    requires WatchFrom(NOTHING, m.out) == Some(v) && v.phase == Inside && (v.open <==> m.st.openKind.Some?)
    requires m.st.openIndex == |v.blocks| - 1
    ensures WatchFrom(NOTHING, CloseBlock(m).out + [MessageDelta(StopReason(m.st.finish), ""), MessageStop("")])
            == Some(View(Ended, v.blocks, false))
  {
    CloseBlockWatched(m, v);
    var out := CloseBlock(m).out;
    var e0, e1 := MessageDelta(StopReason(m.st.finish), ""), MessageStop("");
    WatchSnoc(NOTHING, out, e0);
    WatchSnoc(NOTHING, out + [e0], e1);
    assert out + [e0, e1] == out + [e0] + [e1];
  }

  /** What is shown once the buffer is flushed at the end. */
  lemma FlushedAtEnd(complete: JsonTest, m: Machine, r: RefState) returns (m1: Machine, v: View)
    requires Tied(complete, m, r)
    ensures m1 == Flush(Start(m)) && m1.st.finish == m.st.finish
    ensures WatchFrom(NOTHING, m1.out) == Some(v) && v.phase == Inside && (v.open <==> m1.st.openKind.Some?)
    ensures m1.st.openIndex == |v.blocks| - 1 && ShowsAll(complete, v.blocks, r.blocks + CallsOf(r.segment))
  {
    StartTied(complete, m, r);
    FlushTied(complete, Start(m), r);
    m1 := Flush(Start(m));
    v := WatchFrom(NOTHING, m1.out).value;
  }

  lemma EndNormallyWatched(complete: JsonTest, m: Machine, r: RefState)
    requires Tied(complete, m, r)
    ensures var v := WatchFrom(NOTHING, EndNormally(m));
            && v.Some? && v.value.phase == Ended && !v.value.open
            && ShowsAll(complete, v.value.blocks, r.blocks + CallsOf(r.segment))
    ensures |EndNormally(m)| >= 2 && EndNormally(m)[|EndNormally(m)| - 2] == MessageDelta(StopReason(m.st.finish), "")
  {
    var m1, v := FlushedAtEnd(complete, m, r);
    ClosingWatched(m1, v);
  }

  /** Every output follows the grammar, and its blocks are the reference's: every run of reasoning
      or text with its pieces in order, every tool call with exactly its own fragments, each group
      of calls before the run that follows it. */
  lemma StreamShowsReference(complete: JsonTest, chunks: seq<Chunk>)
    requires !HasError(chunks)
    ensures var v := WatchFrom(NOTHING, Convert(complete, chunks));
            && v.Some? && v.value.phase == Ended && !v.value.open
            && ShowsAll(complete, v.value.blocks, Blocks(AtomsOf(chunks)))
    ensures MessageDelta(StopReason(FinishOf(chunks)), "") in Convert(complete, chunks)
  {
    BeforeErrorIsPrefix(chunks);
    assert BeforeError(chunks) == chunks;
    OnChunksTied(complete, chunks);
    EndNormallyWatched(complete, OnChunks(complete, chunks), AbsorbAll(NO_BLOCKS, AtomsOf(chunks)));
  }

  /** The stop reason a client has to get for a finish reason. */
  predicate StopsFor(reason: string, finish: string) {
    && (reason == "tool_use" <==> finish == "tool_calls" || finish == "function_call")
    && (reason == "max_tokens" <==> finish == "length")
    && (reason == "end_turn" <==> finish != "tool_calls" && finish != "function_call" && finish != "length")
  }

  lemma StopReasonStops(finish: string)
    ensures StopsFor(StopReason(finish), finish)
  {
  }

  /** Where an accepted stream has its `message_delta`: nowhere while it runs or after an error, last right
      after it, last but one at the end. */
  lemma {:induction false} OneMessageDelta(events: seq<Event>)
    requires WatchFrom(NOTHING, events).Some?
    ensures var phase := WatchFrom(NOTHING, events).value.phase;
            && (phase == Closing ==> events != []) && (phase == Ended ==> |events| >= 2)
            && forall k :: 0 <= k < |events| ==>
                 (events[k].MessageDelta? <==> (phase == Closing && k == |events| - 1)
                                               || (phase == Ended && k == |events| - 2))
  {
    if events == [] {
    } else {
      var front := events[..|events| - 1];
      OneMessageDelta(front);
      assert forall k :: 0 <= k < |front| ==> front[k] == events[k];
    }
  }

  lemma EndHasReason(complete: JsonTest, chunks: seq<Chunk>)
    requires !HasError(chunks)
    ensures var out := Convert(complete, chunks);
            |out| >= 2 && out[|out| - 2] == MessageDelta(StopReason(FinishOf(chunks)), "")
  {
    BeforeErrorIsPrefix(chunks);
    assert BeforeError(chunks) == chunks;
    OnChunksTied(complete, chunks);
    EndNormallyWatched(complete, OnChunks(complete, chunks), AbsorbAll(NO_BLOCKS, AtomsOf(chunks)));
  }

  /** A complete stream has exactly one `message_delta`, before its last event, and its stop reason is the
      one the last finish reason of the chunks stands for. */
  lemma StopReasonTold(complete: JsonTest, chunks: seq<Chunk>)
    requires !HasError(chunks)
    ensures var out := Convert(complete, chunks);
            && |out| >= 2
            && (forall k :: 0 <= k < |out| ==> (out[k].MessageDelta? <==> k == |out| - 2))
            && StopsFor(out[|out| - 2].stopReason, FinishOf(chunks)) && out[|out| - 2].extra == ""
  {
    StreamShowsReference(complete, chunks);
    OneMessageDelta(Convert(complete, chunks));
    EndHasReason(complete, chunks);
    StopReasonStops(FinishOf(chunks));
  }

  lemma ConvertError(complete: JsonTest, chunks: seq<Chunk>)
    requires HasError(chunks)
    ensures Convert(complete, chunks) == OnChunks(complete, BeforeError(chunks)).out + [Error("")]
  {
    BeforeErrorIsPrefix(chunks);
  }

  /** An error event after a running stream. */
  lemma ErrorWatched(complete: JsonTest, out: seq<Event>, v: View, blocks: seq<RefBlock>)
    requires WatchFrom(NOTHING, out) == Some(v) && (v.phase == Before || v.phase == Inside)
    requires ShowsAll(complete, v.blocks, blocks)
    ensures var all := out + [Error("")];
            && all != [] && all[|all| - 1] == Error("")
            && WatchFrom(NOTHING, all).Some? && WatchFrom(NOTHING, all).value.phase == Failed
            && WatchFrom(NOTHING, all[..|all| - 1]).Some?
            && ShowsAll(complete, WatchFrom(NOTHING, all).value.blocks, blocks)
  {
    WatchSnoc(NOTHING, out, Error(""));
    assert (out + [Error("")])[..|out|] == out;
  }

  /** What is shown of the chunks so far, nothing being flushed. */
  lemma ShownSoFar(complete: JsonTest, chunks: seq<Chunk>) returns (out: seq<Event>, v: View)
    ensures out == OnChunks(complete, chunks).out && WatchFrom(NOTHING, out) == Some(v)
    ensures v.phase == Before || v.phase == Inside
    ensures ShowsAll(complete, v.blocks, AbsorbAll(NO_BLOCKS, AtomsOf(chunks)).blocks)
  {
    OnChunksTied(complete, chunks);
    out := OnChunks(complete, chunks).out;
    v := WatchFrom(NOTHING, out).value;
  }

  /** An upstream error cuts the stream off: what came before is a prefix of a grammatical stream
      that shows the chunks before the error, and one error event follows. */
  lemma ErrorEndsStream(complete: JsonTest, chunks: seq<Chunk>)
    requires HasError(chunks)
    ensures var out := Convert(complete, chunks);
            && out != [] && out[|out| - 1] == Error("")
            && WatchFrom(NOTHING, out).Some? && WatchFrom(NOTHING, out).value.phase == Failed
            && WatchFrom(NOTHING, out[..|out| - 1]).Some?
            && ShowsAll(complete, WatchFrom(NOTHING, out).value.blocks,
                        AbsorbAll(NO_BLOCKS, AtomsOf(BeforeError(chunks))).blocks)
  {
    var out, v := ShownSoFar(complete, BeforeError(chunks));
    ErrorWatched(complete, out, v, AbsorbAll(NO_BLOCKS, AtomsOf(BeforeError(chunks))).blocks);
    ConvertError(complete, chunks);
  }

  /** A stream broken off by an upstream error has none. */
  lemma NoStopReasonAfterError(complete: JsonTest, chunks: seq<Chunk>)
    requires HasError(chunks)
    ensures forall k :: 0 <= k < |Convert(complete, chunks)| ==> !Convert(complete, chunks)[k].MessageDelta?
  {
    ErrorEndsStream(complete, chunks);
    OneMessageDelta(Convert(complete, chunks));
  }

  /** The sanitizer behind the bridge never changes what the bridge emits. */
  lemma SanitizerIsIdentityOnBridge(complete: JsonTest, chunks: seq<Chunk>)
    ensures SS.Sanitize(Convert(complete, chunks)) == Convert(complete, chunks)
  {
    if HasError(chunks) { ErrorEndsStream(complete, chunks); } else { StreamShowsReference(complete, chunks); }
    SanitizerLeavesGrammarAlone(Convert(complete, chunks));
  }
}
