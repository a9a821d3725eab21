/** The ids of tool blocks: those the bridge makes up are all different. */
module MessagesIds {
  import opened Wrappers
  import opened Sequences
  import opened ChatChunks
  import opened AnthropicEvents
  import opened ArgumentAssembly
  import opened ToolSegments
  import opened ToolBuffer
  import opened MessagesBridge

  /** The id of a tool block, as it starts. */
  function IdsIn(e: Event): seq<CallId> {
    if e.BlockStart? && e.block.body.Tool? then [e.block.body.id] else []
  }

  function ToolIds(events: seq<Event>): seq<CallId> {
    FlatMap(IdsIn, events)
  }

  function PendingIds(pending: seq<Call>): seq<CallId> {
    seq(|pending|, i requires 0 <= i < |pending| => pending[i].id)
  }

  predicate Apart(a: CallId, b: CallId) {
    a.Minted? && b.Minted? ==> a.serial != b.serial
  }

  predicate AllApart(ids: seq<CallId>) {
    forall i, j :: 0 <= i < j < |ids| ==> Apart(ids[i], ids[j])
  }

  predicate AllBelow(ids: seq<CallId>, n: nat) {
    forall i :: 0 <= i < |ids| && ids[i].Minted? ==> ids[i].serial < n
  }

  /** The ids told and those waiting in the buffer. */
  function AllIds(out: seq<Event>, pending: seq<Call>): seq<CallId> {
    ToolIds(out) + PendingIds(pending)
  }

  predicate Fresh(ids: seq<CallId>, minted: nat) {
    AllApart(ids) && AllBelow(ids, minted)
  }

  predicate FreshIds(m: Machine) {
    Fresh(AllIds(m.out, m.st.buffer.pending), m.st.buffer.minted)
  }

  // ---- The buffer ------------------------------------------------------------------------------------------

  lemma FreshNext(ids: seq<CallId>, minted: nat, id: CallId)
    requires Fresh(ids, minted) && (id.Minted? ==> id.serial == minted)
    ensures Fresh(ids + [id], minted + 1)
  {
  }

  /** A call keeps its id or is given the upstream's. */
  lemma FreshUpdated(ids: seq<CallId>, minted: nat, k: nat, id: CallId)
    requires Fresh(ids, minted) && k < |ids| && (id.Given? || id == ids[k])
    ensures Fresh(ids[k := id], minted)
  {
  }

  lemma RecordFresh(complete: JsonTest, out: seq<Event>, b: Buffer, f: Fragment)
    requires Valid(b) && Fresh(AllIds(out, b.pending), b.minted)
    ensures var r := Record(complete, b, f); Fresh(AllIds(out, r.pending), r.minted)
  {
    var told, r := ToolIds(out), Record(complete, b, f);
    if f.index !in b.current || IsNewCall(b, f) {
      var id := NewCall(f, b.minted).id;
      assert PendingIds(r.pending) == PendingIds(b.pending) + [id];
      Regroup(told, PendingIds(b.pending), [id]);
      FreshNext(told + PendingIds(b.pending), b.minted, id);
    } else {
      var k := b.current[f.index];
      var id := UpdateMetadata(b.pending[k], f).id;
      assert PendingIds(r.pending) == PendingIds(b.pending)[k := id];
      assert told + PendingIds(b.pending)[k := id] == (told + PendingIds(b.pending))[|told| + k := id];
      FreshUpdated(told + PendingIds(b.pending), b.minted, |told| + k, id);
    }
  }

  // ---- The events ------------------------------------------------------------------------------------------

  /** No tool block starts here. */
  predicate NoTools(events: seq<Event>) {
    forall k :: 0 <= k < |events| ==> IdsIn(events[k]) == []
  }

  lemma {:induction false} NoToolsNoIds(events: seq<Event>)
    requires NoTools(events)
    ensures ToolIds(events) == []
  {
    if events == [] {
    } else {
      NoToolsNoIds(events[..|events| - 1]);
    }
  }

  lemma AddsNoIds(out: seq<Event>, more: seq<Event>)
    requires NoTools(more)
    ensures ToolIds(out + more) == ToolIds(out)
  {
    IdsTogether(out, more);
    NoToolsNoIds(more);
  }

  lemma IdsTogether(a: seq<Event>, b: seq<Event>)
    ensures ToolIds(a + b) == ToolIds(a) + ToolIds(b)
  {
    FlatMapAppend(IdsIn, a, b);
  }

  lemma CallIds(index: int, c: Call)
    ensures ToolIds(CallEvents(index, c)) == [c.id]
  {
    var start, args, stop := [BlockStart(index, ToolBlock(c.id, c.name), "")], ArgumentDeltas(index, c.parts),
        [BlockStop(index, "")];
    FlatMapOne(IdsIn, start[0]);
    AddsNoIds(start, args);
    AddsNoIds(start + args, stop);
  }

  lemma {:induction false} CallsIds(index: int, pending: seq<Call>)
    ensures ToolIds(CallsEvents(index, pending)) == PendingIds(pending)
  {
    if pending == [] {
    } else {
      CallsIds(index, pending[..|pending| - 1]);
      CallIds(index + |pending|, pending[|pending| - 1]);
      IdsTogether(CallsEvents(index, pending[..|pending| - 1]), CallEvents(index + |pending|, pending[|pending| - 1]));
      assert PendingIds(pending) == PendingIds(pending[..|pending| - 1]) + [pending[|pending| - 1].id];
    }
  }

  /** Whatever is emitted that starts no tool block leaves the ids as they are. */
  lemma StillFresh(m: Machine, n: Machine, more: seq<Event>)
    requires FreshIds(m) && n.out == m.out + more && NoTools(more) && n.st.buffer == m.st.buffer
    ensures FreshIds(n)
  {
    AddsNoIds(m.out, more);
  }

  lemma CloseBlockFresh(m: Machine)
    requires FreshIds(m)
    ensures FreshIds(CloseBlock(m)) && CloseBlock(m).st.buffer == m.st.buffer
  {
    if m.st.openKind.Some? { StillFresh(m, CloseBlock(m), [BlockStop(m.st.openIndex, "")]); }
  }

  lemma FlushFresh(m: Machine)
    requires FreshIds(m)
    ensures FreshIds(Flush(m))
  {
    if m.st.buffer.pending != [] {
      var m1, pending := CloseBlock(m), m.st.buffer.pending;
      CloseBlockFresh(m);
      IdsTogether(m1.out, CallsEvents(m1.st.openIndex, pending));
      CallsIds(m1.st.openIndex, pending);
      assert AllIds(Flush(m).out, []) == AllIds(m1.out, pending);
    }
  }

  lemma OpenBlockFresh(m: Machine, kind: Kind)
    requires FreshIds(m)
    ensures FreshIds(OpenBlock(m, kind))
  {
    StillFresh(m, OpenBlock(m, kind), [BlockStart(m.st.openIndex + 1, BlockOf(kind), "")]);
  }

  lemma DeltaFresh(m: Machine, index: int, delta: Delta)
    requires FreshIds(m)
    ensures FreshIds(Machine(m.st, m.out + [BlockDelta(index, delta, "")]))
  {
    StillFresh(m, Machine(m.st, m.out + [BlockDelta(index, delta, "")]), [BlockDelta(index, delta, "")]);
  }

  lemma OnPieceFresh(m: Machine, kind: Kind, payload: string)
    requires FreshIds(m)
    ensures FreshIds(OnPiece(m, kind, payload))
  {
    FlushFresh(m);
    CloseBlockFresh(Flush(m));
    OpenBlockFresh(CloseBlock(Flush(m)), kind);
    var m2 := if Flush(m).st.openKind == Some(kind) then Flush(m) else OpenBlock(CloseBlock(Flush(m)), kind);
    DeltaFresh(m2, m2.st.openIndex, DeltaOf(kind, payload));
  }

  lemma {:induction false} OnToolsFresh(complete: JsonTest, m: Machine, ds: seq<ToolDelta>)
    requires FreshIds(m) && Valid(m.st.buffer)
    ensures FreshIds(OnTools(complete, m, ds))
  {
    if ds == [] {
    } else {
      var front, d := ds[..|ds| - 1], ds[|ds| - 1];
      OnToolsFresh(complete, m, front);
      var m1 := OnTools(complete, m, front);
      RecordFresh(complete, m1.out, m1.st.buffer, Resolve(d, m1.st.lastToolIndex));
    }
  }

  lemma StartFresh(m: Machine)
    requires FreshIds(m)
    ensures FreshIds(Start(m)) && Start(m).st.buffer == m.st.buffer
  {
    if !m.st.started { StillFresh(m, Start(m), [MessageStart("")]); }
  }

  lemma OnPiecesFresh(m: Machine, reasoning: string, content: string)
    requires FreshIds(m)
    ensures FreshIds(OnPieces(m, reasoning, content))
  {
    StartFresh(m);
    var m1 := OnPieceIf(Start(m), Thinking, reasoning);
    if reasoning != "" { OnPieceFresh(Start(m), Thinking, reasoning); }
    if content != "" { OnPieceFresh(m1, Text, content); }
  }

  lemma {:induction false} OnChunksFresh(complete: JsonTest, chunks: seq<Chunk>)
    ensures FreshIds(OnChunks(complete, chunks))
  {
    if chunks == [] {
      assert AllIds([], []) == [];
    } else {
      var front, c := chunks[..|chunks| - 1], chunks[|chunks| - 1];
      OnChunksFresh(complete, front);
      if c.Choice? {
        var m := OnChunks(complete, front);
        OnPiecesFresh(m, c.reasoning, c.content);
        OnToolsFresh(complete, OnPieces(m, c.reasoning, c.content), c.tools);
      }
    }
  }

  lemma EndFresh(m: Machine)
    requires FreshIds(m)
    ensures AllApart(ToolIds(EndNormally(m)))
  {
    StartFresh(m);
    FlushFresh(Start(m));
    var f := Flush(Start(m));
    CloseBlockFresh(f);
    EndingFresh(CloseBlock(f), StopReason(CloseBlock(f).st.finish));
  }

  lemma EndingFresh(m: Machine, reason: string)
    requires FreshIds(m) && m.st.buffer.pending == []
    ensures AllApart(ToolIds(m.out + [MessageDelta(reason, ""), MessageStop("")]))
  {
    AddsNoIds(m.out, [MessageDelta(reason, ""), MessageStop("")]);
    assert AllIds(m.out, []) == ToolIds(m.out);
  }

  /** In every stream the tool blocks whose ids are made up all have different ones. */
  lemma MintedIdsDiffer(complete: JsonTest, chunks: seq<Chunk>)
    ensures AllApart(ToolIds(Convert(complete, chunks)))
  {
    var before := BeforeError(chunks);
    var m := OnChunks(complete, before);
    OnChunksFresh(complete, before);
    if |before| < |chunks| {
      AddsNoIds(m.out, [Error("")]);
      forall i, j | 0 <= i < j < |ToolIds(m.out)| ensures Apart(ToolIds(m.out)[i], ToolIds(m.out)[j]) {
        assert Apart(AllIds(m.out, m.st.buffer.pending)[i], AllIds(m.out, m.st.buffer.pending)[j]);
      }
    } else {
      EndFresh(m);
    }
  }
}
