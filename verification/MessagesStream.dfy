/** The Anthropic bridge as the program runs it: mutable call objects shared by a list and an
    index table, and a stream state updated chunk by chunk. */
module MessagesStream {
  import opened Wrappers
  import opened Sequences
  import opened ChatChunks
  import opened AnthropicEvents
  import opened ArgumentAssembly
  import opened ToolSegments
  import TB = ToolBuffer
  import MB = MessagesBridge

  class PendingToolCall {
    var id: CallId
    var upstreamId: string
    var name: string
    var argumentParts: seq<string>

    constructor (f: Fragment, serial: nat)
      ensures Value() == TB.NewCall(f, serial)
    {
      id := if f.id != "" then Given(f.id) else Minted(serial);
      upstreamId := f.id;
      name := f.name;
      argumentParts := [];
    }

    ghost function Value(): TB.Call
      reads this
    {
      TB.Call(id, upstreamId, name, argumentParts)
    }

    method UpdateMetadata(f: Fragment)
      modifies this
      ensures Value() == TB.UpdateMetadata(old(Value()), f)
    {
      if f.id != "" {
        id := Given(f.id);
        upstreamId := f.id;
      }
      if f.name != "" { name := f.name; }
    }

    method AddArguments(complete: JsonTest, arguments: string)
      modifies this
      ensures Value() == old(Value()).(parts := ArgumentAssembly.AddArguments(complete, old(argumentParts), arguments))
    {
      if arguments == "" { return; }
      var buffered := Join(argumentParts);
      if buffered != "" && complete(buffered) && complete(arguments) {
        if arguments == buffered { return; }
        argumentParts := [arguments];
        return;
      }
      argumentParts := argumentParts + [arguments];
    }
  }

  class StreamState {
    const complete: JsonTest
    var openKind: Option<MB.Kind>
    var openIndex: int
    var pendingToolCalls: seq<PendingToolCall>
    var currentToolByIndex: map<int, PendingToolCall>
    var lastToolIndex: Option<int>
    var finishReason: string
    var started: bool
    var minted: nat
    /** The events yielded so far. */
    var emitted: seq<Event>
    /** Where in the list the table's call objects stand. */
    ghost var positions: map<int, nat>
    /** Every call object made so far. */
    ghost var callObjects: set<PendingToolCall>

    /** The table holds objects of the list, and the list holds no object twice. */
    ghost predicate Valid()
      reads this
    {
      && (forall c :: c in pendingToolCalls ==> c in callObjects)
      && (forall i, j :: 0 <= i < j < |pendingToolCalls| ==> pendingToolCalls[i] != pendingToolCalls[j])
      && positions.Keys == currentToolByIndex.Keys
      && (forall index :: index in positions ==>
            positions[index] < |pendingToolCalls|
            && pendingToolCalls[positions[index]] == currentToolByIndex[index])
    }

    ghost function Calls(): (calls: seq<TB.Call>)
      reads this, pendingToolCalls
    {
      seq(|pendingToolCalls|,
          i reads this, pendingToolCalls requires 0 <= i < |pendingToolCalls| => pendingToolCalls[i].Value())
    }

    ghost function Value(): MB.Machine
      reads this, pendingToolCalls
    {
      MB.Machine(MB.State(openKind, openIndex, TB.Buffer(Calls(), positions, minted),
                          lastToolIndex, finishReason, started),
                 emitted)
    }

    constructor (complete: JsonTest)
      ensures Valid() && this.complete == complete && pendingToolCalls == [] && callObjects == {}
      ensures Value() == MB.Machine(MB.INITIAL, [])
    {
      this.complete := complete;
      openKind, openIndex, pendingToolCalls, currentToolByIndex := None, -1, [], map[];
      lastToolIndex, finishReason, started, minted, emitted := None, "", false, 0, [];
      positions, callObjects := map[], {};
    }

    method CloseBlock()
      requires Valid()
      modifies this`openKind, this`emitted
      ensures Valid() && Value() == MB.CloseBlock(old(Value()))
    {
      if openKind.Some? {
        emitted := emitted + [BlockStop(openIndex, "")];
        openKind := None;
      }
    }

    method OpenBlock(kind: MB.Kind)
      requires Valid()
      modifies this`openKind, this`openIndex, this`emitted
      ensures Valid() && Value() == MB.OpenBlock(old(Value()), kind)
    {
      openIndex := openIndex + 1;
      openKind := Some(kind);
      emitted := emitted + [BlockStart(openIndex, MB.BlockOf(kind), "")];
    }

    method MakeCall(f: Fragment) returns (pending: PendingToolCall)
      ensures fresh(pending) && pending.Value() == TB.Extend(complete, TB.NewCall(f, minted), f)
    {
      pending := new PendingToolCall(f, minted);
      pending.AddArguments(complete, f.args);
    }

    /** The list gets the call object, and the table's entry for the index is replaced by it. */
    method FileCall(index: int, pending: PendingToolCall)
      requires Valid() && pending !in callObjects
      modifies this`pendingToolCalls, this`currentToolByIndex, this`minted, this`positions, this`callObjects
      ensures Valid() && callObjects == old(callObjects) + {pending} && minted == old(minted) + 1
      ensures positions == old(positions)[index := |old(pendingToolCalls)|]
      ensures Calls() == old(Calls()) + [pending.Value()]
    {
      positions := positions[index := |pendingToolCalls|];
      pendingToolCalls := pendingToolCalls + [pending];
      currentToolByIndex := currentToolByIndex[index := pending];
      callObjects := callObjects + {pending};
      minted := minted + 1;
    }

    /** A call object for a new index, or for one reused with another id. */
    method StartCall(f: Fragment)
      requires Valid()
      requires f.index in currentToolByIndex ==>
                 currentToolByIndex[f.index].upstreamId != "" && f.id != ""
                     && f.id != currentToolByIndex[f.index].upstreamId
      modifies this`pendingToolCalls, this`currentToolByIndex, this`minted, this`positions, this`callObjects
      ensures Valid() && fresh(callObjects - old(callObjects))
      ensures Value() == old(Value()).(st := old(Value()).st.(buffer := TB.Record(complete, old(Value()).st.buffer, f)))
    {
      var pending := MakeCall(f);
      FileCall(f.index, pending);
      assert Calls() == TB.Record(complete, old(Value()).st.buffer, f).pending;
    }

    /** More of the call its index stands for. */
    method ContinueCall(f: Fragment)
      requires Valid()
      requires f.index in currentToolByIndex
      requires currentToolByIndex[f.index].upstreamId == "" || f.id == ""
               || f.id == currentToolByIndex[f.index].upstreamId
      modifies callObjects
      ensures Valid()
      ensures Value() == old(Value()).(st := old(Value()).st.(buffer := TB.Record(complete, old(Value()).st.buffer, f)))
    {
      var pending := currentToolByIndex[f.index];
      pending.UpdateMetadata(f);
      pending.AddArguments(complete, f.args);
      assert Calls() == TB.Record(complete, old(Value()).st.buffer, f).pending;
    }

    method RecordToolCallDelta(f: Fragment)
      requires Valid()
      modifies this`pendingToolCalls, this`currentToolByIndex, this`minted, this`positions, this`callObjects
      modifies callObjects
      ensures Valid()
      ensures fresh(callObjects - old(callObjects))
      ensures Value() == old(Value()).(st := old(Value()).st.(buffer := TB.Record(complete, old(Value()).st.buffer, f)))
    {
      var isNewCall := f.index in currentToolByIndex
                       && currentToolByIndex[f.index].upstreamId != ""
                       && f.id != "" && f.id != currentToolByIndex[f.index].upstreamId;
      if f.index !in currentToolByIndex || isNewCall {
        StartCall(f);
      } else {
        ContinueCall(f);
      }
    }

    /** One buffered call as a whole block. */
    method EmitCall(pending: PendingToolCall)
      modifies this`openIndex, this`emitted
      ensures openIndex == old(openIndex) + 1
      ensures emitted == old(emitted) + MB.CallEvents(openIndex, pending.Value())
    {
      openIndex := openIndex + 1;
      emitted := emitted + [BlockStart(openIndex, ToolBlock(pending.id, pending.name), "")];
      ghost var atStart := emitted;
      var parts := pending.argumentParts;
      for k := 0 to |parts|
        invariant openIndex == old(openIndex) + 1
        invariant emitted == atStart + MB.ArgumentDeltas(openIndex, parts[..k])
      {
        emitted := emitted + [BlockDelta(openIndex, MB.ArgumentsDelta(parts[k]), "")];
        assert MB.ArgumentDeltas(openIndex, parts[..k + 1])
            == MB.ArgumentDeltas(openIndex, parts[..k]) + [BlockDelta(openIndex, MB.ArgumentsDelta(parts[k]), "")];
      }
      assert parts[..|parts|] == parts;
      emitted := emitted + [BlockStop(openIndex, "")];
    }

    method EmitCalls()
      modifies this`openIndex, this`emitted
      ensures openIndex == old(openIndex) + |pendingToolCalls|
      ensures emitted == old(emitted) + MB.CallsEvents(old(openIndex), old(Calls()))
    {
      ghost var calls, out, index := Calls(), emitted, openIndex;
      for position := 0 to |pendingToolCalls|
        invariant openIndex == index + position
        invariant emitted == out + MB.CallsEvents(index, calls[..position])
      {
        EmitCall(pendingToolCalls[position]);
        assert calls[..position + 1][..position] == calls[..position];
        assert out + MB.CallsEvents(index, calls[..position]) + MB.CallEvents(openIndex, calls[position])
            == out + MB.CallsEvents(index, calls[..position + 1]);
      }
      assert calls[..|calls|] == calls;
    }

    method ForgetCalls()
      modifies this`pendingToolCalls, this`currentToolByIndex, this`positions
      ensures Valid() && pendingToolCalls == [] && Calls() == [] && positions == map[]
    {
      pendingToolCalls, currentToolByIndex, positions := [], map[], map[];
      assert Calls() == [];
    }

    method EmitAndForget()
      requires Valid()
      modifies this`openIndex, this`emitted, this`pendingToolCalls, this`currentToolByIndex, this`positions
      ensures Valid() && pendingToolCalls == []
      ensures var st, calls := old(Value()).st, old(Calls());
              Value() == MB.Machine(st.(openIndex := st.openIndex + |calls|, buffer := TB.Empty(minted)),
                                    old(emitted) + MB.CallsEvents(st.openIndex, calls))
    {
      EmitCalls();
      ForgetCalls();
    }

    method FlushToolCalls()
      requires Valid()
      modifies this
      ensures Valid() && Value() == MB.Flush(old(Value()))
      ensures pendingToolCalls == [] && callObjects == old(callObjects)
    {
      if pendingToolCalls == [] {
        assert Calls() == [];
        return;
      }
      CloseBlock();
      assert Calls() == old(Calls());
      EmitAndForget();
    }

    /** A piece of reasoning or text. */
    method EmitPiece(kind: MB.Kind, payload: string)
      requires Valid()
      modifies this
      ensures Valid() && Value() == MB.OnPiece(old(Value()), kind, payload)
      ensures pendingToolCalls == [] && callObjects == old(callObjects)
    {
      FlushToolCalls();
      if openKind != Some(kind) {
        CloseBlock();
        OpenBlock(kind);
      }
      emitted := emitted + [BlockDelta(openIndex, MB.DeltaOf(kind, payload), "")];
    }

    /** One entry of `delta.tool_calls`. */
    method HandleToolDelta(d: ToolDelta)
      requires Valid()
      modifies this, callObjects
      ensures Valid()
      ensures fresh(callObjects - old(callObjects))
      ensures Value() == MB.OnTool(complete, old(Value()), d)
    {
      var index := if d.index.Some? then d.index.value else if lastToolIndex.Some? then lastToolIndex.value else 0;
      lastToolIndex := Some(index);
      assert Calls() == old(Calls());
      RecordToolCallDelta(Fragment(index, d.id, d.name, d.args));
    }

    method HandleToolDeltas(ds: seq<ToolDelta>)
      requires Valid()
      modifies this, callObjects
      ensures Valid()
      ensures fresh(callObjects - old(callObjects))
      ensures Value() == MB.OnTools(complete, old(Value()), ds)
    {
      ghost var before := Value();
      for i := 0 to |ds|
        invariant Valid()
        invariant fresh(callObjects - old(callObjects))
        invariant Value() == MB.OnTools(complete, before, ds[..i])
      {
        HandleToolDelta(ds[i]);
        assert ds[..i + 1][..i] == ds[..i];
      }
      assert ds[..|ds|] == ds;
    }

    method EmitMessageStart()
      requires Valid()
      modifies this`started, this`emitted
      ensures Valid() && Value() == MB.Start(old(Value()))
    {
      if !started {
        emitted := emitted + [MessageStart("")];
        started := true;
      }
      assert Calls() == old(Calls());
    }

    method EmitPieceIf(kind: MB.Kind, payload: string)
      requires Valid()
      modifies this
      ensures Valid() && Value() == MB.OnPieceIf(old(Value()), kind, payload)
      ensures (pendingToolCalls == [] || pendingToolCalls == old(pendingToolCalls)) && callObjects == old(callObjects)
    {
      if payload != "" { EmitPiece(kind, payload); }
    }

    method EmitPieces(reasoning: string, content: string)
      requires Valid()
      modifies this
      ensures Valid() && Value() == MB.OnPieces(old(Value()), reasoning, content)
      ensures (pendingToolCalls == [] || pendingToolCalls == old(pendingToolCalls)) && callObjects == old(callObjects)
    {
      EmitMessageStart();
      EmitPieceIf(MB.Thinking, reasoning);
      EmitPieceIf(MB.Text, content);
    }

    method HandleChunk(c: Chunk)
      requires Valid()
      modifies this, callObjects
      ensures Valid()
      ensures fresh(callObjects - old(callObjects))
      ensures Value() == MB.OnChunk(complete, old(Value()), c)
    {
      if !c.Choice? { return; }
      EmitPieces(c.reasoning, c.content);
      HandleToolDeltas(c.tools);
      SetFinish(c.finish);
    }

    method SetFinish(finish: string)
      requires Valid()
      modifies this`finishReason
      ensures Valid() && Value() == MB.SetFinish(old(Value()), finish)
    {
      if finish != "" { finishReason := finish; }
      assert Calls() == old(Calls());
    }

    method Finish()
      requires Valid()
      modifies this
      ensures emitted == MB.EndNormally(old(Value()))
    {
      EmitMessageStart();
      FlushToolCalls();
      CloseBlock();
      assert Value() == MB.CloseBlock(MB.Flush(MB.Start(old(Value()))));
      emitted := emitted + [MessageDelta(MB.StopReason(finishReason), ""), MessageStop("")];
    }
  }

  lemma NextChunk(complete: JsonTest, chunks: seq<Chunk>, i: nat)
    requires i < |chunks|
    ensures MB.OnChunks(complete, chunks[..i + 1])
            == MB.OnChunk(complete, MB.OnChunks(complete, chunks[..i]), chunks[i])
  {
    assert chunks[..i + 1][..i] == chunks[..i];
  }

  /** What is converted once the loop stopped, at an error or at the end. */
  lemma Converted(complete: JsonTest, chunks: seq<Chunk>, i: nat)
    requires i <= |chunks| && NoErrorBefore(chunks, i)
    requires i < |chunks| ==> chunks[i].UpstreamError?
    ensures MB.Convert(complete, chunks) == if i < |chunks| then MB.OnChunks(complete, chunks[..i]).out + [Error("")]
                                            else MB.EndNormally(MB.OnChunks(complete, chunks[..i]))
  {
    StopsAtError(chunks, i);
  }

  /** One chunk of the loop. */
  method HandleNext(state: StreamState, chunks: seq<Chunk>, n: nat)
    requires state.Valid() && n < |chunks|
    requires state.Value() == MB.OnChunks(state.complete, chunks[..n])
    modifies state, state.callObjects
    ensures state.Valid() && fresh(state.callObjects - old(state.callObjects))
    ensures state.Value() == MB.OnChunks(state.complete, chunks[..n + 1])
  {
    NextChunk(state.complete, chunks, n);
    state.HandleChunk(chunks[n]);
  }

  /** The chunks up to the first error. */
  method HandleChunks(complete: JsonTest, chunks: seq<Chunk>) returns (state: StreamState, n: nat)
    ensures fresh(state) && fresh(state.callObjects) && state.Valid()
    ensures n <= |chunks| && state.Value() == MB.OnChunks(complete, chunks[..n]) && NoErrorBefore(chunks, n)
    ensures n < |chunks| ==> chunks[n].UpstreamError?
  {
    state := new StreamState(complete);
    n := 0;
    while n < |chunks| && !chunks[n].UpstreamError?
      invariant state.Valid() && fresh(state) && fresh(state.callObjects) && state.complete == complete
      invariant n <= |chunks| && state.Value() == MB.OnChunks(complete, chunks[..n]) && NoErrorBefore(chunks, n)
    {
      HandleNext(state, chunks, n);
      n := n + 1;
    }
  }

  /** The generator run to its end: what it yields is the specified conversion. */
  method StreamToAnthropicEvents(complete: JsonTest, chunks: seq<Chunk>) returns (out: seq<Event>)
    ensures out == MB.Convert(complete, chunks)
  {
    var state, n := HandleChunks(complete, chunks);
    Converted(complete, chunks, n);
    if n < |chunks| { return state.emitted + [Error("")]; }
    state.Finish();
    out := state.emitted;
  }
}
