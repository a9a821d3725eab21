/** The name of every function call: the first one any of its fragments brought, however late. And the
    status: what the last finish reason says. */
module ResponsesNames {
  import opened Wrappers
  import opened Sequences
  import opened ChatChunks
  import opened ResponsesEvents
  import opened ResponsesMonitor
  import opened ResponsesBridge
  import opened ResponsesRecovery
  import opened ResponsesProtocol
  import opened ResponsesAttribution
  import opened ResponsesConservation
  import opened ToolSegments
  import RT = ResponsesTheorems

  /** The first name among the fragments that belong to item `oi`. */
  function NameOf(atoms: seq<Atom>, oi: nat): string {
    if atoms == [] then ""
    else
      var before, a := atoms[..|atoms| - 1], atoms[|atoms| - 1];
      if NameOf(before, oi) != "" then NameOf(before, oi)
      else if a.Call? && Owner(before, a) == Some(oi) then a.fragment.name
      else ""
  }

  /** Closed calls have the name of their fragments, and an id. */
  predicate NamedOutput(output: seq<(nat, Item)>, atoms: seq<Atom>) {
    forall i :: 0 <= i < |output| && output[i].1.CallItem? ==>
      output[i].1.name == NameOf(atoms, output[i].0) && output[i].1.callId != Given("")
  }

  predicate NamedCalls(tools: map<int, OpenCall>, atoms: seq<Atom>) {
    forall idx :: idx in tools ==> tools[idx].name == NameOf(atoms, tools[idx].oi) && tools[idx].callId != Given("")
  }

  predicate Named(st: State, atoms: seq<Atom>) {
    NamedCalls(st.tools, atoms) && NamedOutput(st.output, atoms)
  }

  // ---- Closing -----------------------------------------------------------------------------------------

  lemma CloseReasoningNamed(st: State, o: Options, atoms: seq<Atom>)
    requires Named(st, atoms)
    ensures Named(CloseReasoning(st, o).st, atoms) && CloseReasoning(st, o).st.finish == st.finish
  {
  }

  lemma CloseTextNamed(st: State, o: Options, atoms: seq<Atom>)
    requires Named(st, atoms)
    ensures Named(CloseText(st, o).st, atoms) && CloseText(st, o).st.finish == st.finish
  {
  }

  lemma CloseCallNamed(st: State, o: Options, idx: int, atoms: seq<Atom>)
    requires Named(st, atoms)
    ensures Named(CloseCall(st, o, idx).st, atoms) && CloseCall(st, o, idx).st.finish == st.finish
  {
  }

  lemma {:induction false} CloseCallsNamed(st: State, o: Options, order: seq<int>, atoms: seq<Atom>)
    requires Named(st, atoms)
    ensures Named(CloseCalls(st, o, order).st, atoms) && CloseCalls(st, o, order).st.finish == st.finish
  {
    if order == [] {
    } else {
      CloseCallsNamed(st, o, order[..|order| - 1], atoms);
      CloseCallNamed(CloseCalls(st, o, order[..|order| - 1]).st, o, order[|order| - 1], atoms);
    }
  }

  lemma {:induction false} CloseCallsInTurnNamed(m: Machine, o: Options, order: seq<int>, atoms: seq<Atom>)
    requires Named(m.st, atoms)
    ensures Named(CloseCallsInTurn(m, o, order).st, atoms) && CloseCallsInTurn(m, o, order).st.finish == m.st.finish
  {
    if order == [] {
    } else {
      CloseCallsInTurnNamed(m, o, order[..|order| - 1], atoms);
      CloseCallNamed(CloseCallsInTurn(m, o, order[..|order| - 1]).st, o, order[|order| - 1], atoms);
    }
  }

  // ---- One more piece --------------------------------------------------------------------------------------

  lemma NameSnoc(atoms: seq<Atom>, a: Atom, oi: nat)
    ensures NameOf(atoms + [a], oi) == if NameOf(atoms, oi) != "" then NameOf(atoms, oi)
                                       else if a.Call? && Owner(atoms, a) == Some(oi) then a.fragment.name else ""
  {
    assert (atoms + [a])[..|atoms|] == atoms;
  }

  /** Only a fragment can change a name, and only that of its own item. */
  lemma NameElsewhere(atoms: seq<Atom>, a: Atom, oi: nat)
    requires !(a.Call? && Owner(atoms, a) == Some(oi))
    ensures NameOf(atoms + [a], oi) == NameOf(atoms, oi)
  {
    NameSnoc(atoms, a, oi);
  }

  lemma NotACallNamed(st: State, atoms: seq<Atom>, a: Atom)
    requires Named(st, atoms) && !a.Call?
    ensures Named(st, atoms + [a])
  {
    forall i | 0 <= i < |st.output| && st.output[i].1.CallItem?
      ensures st.output[i].1.name == NameOf(atoms + [a], st.output[i].0) && st.output[i].1.callId != Given("") {
      NameElsewhere(atoms, a, st.output[i].0);
    }
    forall idx | idx in st.tools
      ensures st.tools[idx].name == NameOf(atoms + [a], st.tools[idx].oi) && st.tools[idx].callId != Given("") {
      NameElsewhere(atoms, a, st.tools[idx].oi);
    }
  }

  /** Every piece belongs to an item that is there. */
  lemma {:induction false} OpenedBefore(atoms: seq<Atom>, key: Key)
    ensures atoms != [] ==> OpenedAt(atoms, key) < ItemCount(atoms)
  {
    if atoms == [] {
    } else {
      OpenedBefore(atoms[..|atoms| - 1], key);
      RunMeansCall(atoms);
    }
  }

  lemma {:induction false} NoNameAhead(atoms: seq<Atom>, oi: nat)
    requires oi >= ItemCount(atoms)
    ensures NameOf(atoms, oi) == ""
  {
    if atoms == [] {
    } else {
      var before, a := atoms[..|atoms| - 1], atoms[|atoms| - 1];
      NoNameAhead(before, oi);
      RunMeansCall(before);
      if a.Call? {
        OpenedBefore(before, KeyAfter(CallRun(before), a.fragment));
        if before == [] { OpensFirst(a); }
      }
    }
  }

  lemma OpensFirst(a: Atom)
    ensures Opens([], a)
  {
  }

  lemma OnReasoningNamed(m: Machine, piece: string, atoms: seq<Atom>)
    requires Named(m.st, atoms)
    ensures Named(OnReasoning(m, piece).st, atoms + [Think(piece)]) && OnReasoning(m, piece).st.finish == m.st.finish
  {
    var st := OnReasoning(m, piece).st;
    assert st.tools == m.st.tools && st.output == m.st.output;
    NotACallNamed(st, atoms, Think(piece));
  }

  lemma OnMessageNamed(m: Machine, o: Options, channel: Channel, piece: string, atoms: seq<Atom>)
    requires Named(m.st, atoms)
    ensures Named(OnMessage(m, o, channel, piece).st, atoms + [Say(channel, piece)])
    ensures OnMessage(m, o, channel, piece).st.finish == m.st.finish
  {
    var m1 := Deliver(m, CloseReasoning(m.st, o));
    CloseReasoningNamed(m.st, o, atoms);
    CloseCallsNamed(m1.st, o, m1.st.toolOrder, atoms);
    var m2 := CloseOthers(m, o);
    CloseTextNamed(m2.st, o, atoms);
    var st := OnMessage(m, o, channel, piece).st;
    HaveMessageFrame(m2, o, channel);
    assert Named(st, atoms);
    NotACallNamed(st, atoms, Say(channel, piece));
  }

  lemma HaveMessageFrame(m: Machine, o: Options, channel: Channel)
    ensures var st := HaveMessage(m, o, channel).st;
            st.tools == m.st.tools && st.finish == m.st.finish
            && (st.output == m.st.output || st.output == CloseText(m.st, o).st.output)
  {
  }

  /** Items so far have smaller indices, and a closed item is not an open call's. */
  lemma LinkedIndices(m: Machine)
    requires Good(m)
    ensures forall i :: 0 <= i < |m.st.output| ==> m.st.output[i].0 < m.st.nextOi
    ensures forall idx :: idx in m.st.tools ==> m.st.tools[idx].oi < m.st.nextOi
    ensures forall i, idx :: 0 <= i < |m.st.output| && idx in m.st.tools ==> m.st.output[i].0 != m.st.tools[idx].oi
    ensures forall a, b :: a in m.st.tools && b in m.st.tools && a != b ==> m.st.tools[a].oi != m.st.tools[b].oi
  {
  }

  lemma OpenNewCallNamed(m: Machine, idx: int, d: ToolDelta, atoms: seq<Atom>)
    requires Good(m) && Named(m.st, atoms) && m.st.nextOi == ItemCount(atoms) && Opens(atoms, Call(FragmentOf(idx, d)))
    ensures Named(OpenNewCall(m, idx, d).st, atoms + [Call(FragmentOf(idx, d))])
    ensures OpenNewCall(m, idx, d).st.finish == m.st.finish
  {
    var a, st := Call(FragmentOf(idx, d)), OpenNewCall(m, idx, d).st;
    LinkedIndices(m);
    NameSnoc(atoms, a, m.st.nextOi);
    NoNameAhead(atoms, m.st.nextOi);
    forall i | 0 <= i < |st.output| && st.output[i].1.CallItem?
      ensures st.output[i].1.name == NameOf(atoms + [a], st.output[i].0) && st.output[i].1.callId != Given("") {
      NameElsewhere(atoms, a, st.output[i].0);
    }
    forall j | j in st.tools
      ensures st.tools[j].name == NameOf(atoms + [a], st.tools[j].oi) && st.tools[j].callId != Given("") {
      if j != idx { NameElsewhere(atoms, a, st.tools[j].oi); }
    }
  }

  lemma AppendArgsNamed(m: Machine, idx: int, args: string, atoms: seq<Atom>)
    requires idx in m.st.tools && Named(m.st, atoms)
    ensures Named(AppendArgs(m, idx, args).st, atoms) && AppendArgs(m, idx, args).st.finish == m.st.finish
  {
  }

  lemma NewCallNamed(m: Machine, o: Options, idx: int, d: ToolDelta, atoms: seq<Atom>)
    requires Good(m) && Attributed(m, atoms) && Named(m.st, atoms)
    requires d.index == Some(idx) && (idx !in m.st.tools || IsNewCall(m.st.tools, idx, d.id))
    ensures Named(OnTool(m, o, d).st, atoms + [Call(FragmentOf(idx, d))]) && OnTool(m, o, d).st.finish == m.st.finish
  {
    var m1 := if idx in m.st.tools then Deliver(m, CloseCall(m.st, o, idx)) else m;
    var m2 := Deliver(m1, CloseReasoning(m1.st, o));
    var m3 := Deliver(m2, CloseText(m2.st, o));
    CloseCallNamed(m.st, o, idx, atoms);
    CloseReasoningNamed(m1.st, o, atoms);
    CloseTextNamed(m2.st, o, atoms);
    CloseCallKeeps(m, o, idx);
    CloseReasoningKeeps(m1, o);
    CloseTextKeeps(m2, o);
    CloseCallSilent(m, o, idx);
    CloseTextsSilent(m1, o);
    NewCallOpens(m.st.tools, atoms, idx, d);
    OpenNewCallNamed(m3, idx, d, atoms);
    AppendArgsNamed(OpenNewCall(m3, idx, d), idx, d.args, atoms + [Call(FragmentOf(idx, d))]);
  }

  lemma LearnNamed(m: Machine, idx: int, d: ToolDelta, atoms: seq<Atom>)
    requires Good(m) && Attributed(m, atoms) && Named(m.st, atoms) && idx in m.st.tools
             && !IsNewCall(m.st.tools, idx, d.id)
    ensures Named(m.st.(tools := m.st.tools[idx := Learn(m.st.tools[idx], d)]), atoms + [Call(FragmentOf(idx, d))])
  {
    var a, st := Call(FragmentOf(idx, d)), m.st.(tools := m.st.tools[idx := Learn(m.st.tools[idx], d)]);
    NewCallOpens(m.st.tools, atoms, idx, d);
    LearnedCallAgrees(m.st.tools, atoms, FragmentOf(idx, d), Learn(m.st.tools[idx], d));
    LinkedIndices(m);
    NameSnoc(atoms, a, m.st.tools[idx].oi);
    forall i | 0 <= i < |st.output| && st.output[i].1.CallItem?
      ensures st.output[i].1.name == NameOf(atoms + [a], st.output[i].0) && st.output[i].1.callId != Given("") {
      NameElsewhere(atoms, a, st.output[i].0);
    }
    forall j | j in st.tools
      ensures st.tools[j].name == NameOf(atoms + [a], st.tools[j].oi) && st.tools[j].callId != Given("") {
      if j != idx { NameElsewhere(atoms, a, st.tools[j].oi); }
    }
  }

  lemma OnToolNamed(m: Machine, o: Options, d: ToolDelta, atoms: seq<Atom>)
    requires Good(m) && Attributed(m, atoms) && Named(m.st, atoms)
    ensures Named(OnTool(m, o, d).st, atoms + ToolAtoms([d])) && OnTool(m, o, d).st.finish == m.st.finish
  {
    assert [d][..0] == [] && ToolAtoms([]) == [];
    if d.index.None? {
      assert atoms + ToolAtoms([d]) == atoms;
    } else {
      var idx := d.index.value;
      assert ToolAtoms([d]) == [Call(FragmentOf(idx, d))];
      if idx !in m.st.tools || IsNewCall(m.st.tools, idx, d.id) {
        NewCallNamed(m, o, idx, d, atoms);
      } else {
        LearnNamed(m, idx, d, atoms);
        AppendArgsNamed(m.(st := m.st.(tools := m.st.tools[idx := Learn(m.st.tools[idx], d)])), idx, d.args,
                        atoms + ToolAtoms([d]));
      }
    }
  }

  // ---- Chunks ----------------------------------------------------------------------------------------------------

  ghost predicate Known(m: Machine, atoms: seq<Atom>) {
    Good(m) && Resting(m.st) && Attributed(m, atoms) && Named(m.st, atoms)
  }

  lemma {:induction false} OnToolsKnown(m: Machine, o: Options, ds: seq<ToolDelta>, atoms: seq<Atom>)
    requires Known(m, atoms)
    ensures Known(OnTools(m, o, ds), atoms + ToolAtoms(ds)) && OnTools(m, o, ds).st.finish == m.st.finish
  {
    OnToolsAttributed(m, o, ds, atoms);
    OnToolsKeeps(m, o, ds);
    if ds == [] {
      assert atoms + [] == atoms;
    } else {
      var front, d := ds[..|ds| - 1], ds[|ds| - 1];
      OnToolsKnown(m, o, front, atoms);
      OnToolNamed(OnTools(m, o, front), o, d, atoms + ToolAtoms(front));
      ToolAtomsSnoc(ds);
      Regroup(atoms, ToolAtoms(front), ToolAtoms([d]));
    }
  }

  lemma SayKnown(m: Machine, o: Options, channel: Channel, piece: string, atoms: seq<Atom>)
    requires Known(m, atoms) && (channel == OutputText || channel == RefusalText)
    ensures var m' := if piece != "" then OnMessage(m, o, channel, piece) else m;
            Known(m', atoms + SayAtoms(channel, piece)) && m'.st.finish == m.st.finish
  {
    SayAttributed(m, o, channel, piece, atoms);
    OnMessageAtRest(m, o, channel, piece);
    if piece != "" { OnMessageNamed(m, o, channel, piece, atoms); } else { assert atoms + [] == atoms; }
  }

  lemma ThinkKnown(m: Machine, o: Options, c: Chunk, atoms: seq<Atom>)
    requires Known(m, atoms) && c.Choice?
    ensures Known(AtReasoning(m, o, c), atoms + ThinkAtoms(c, o)) && AtReasoning(m, o, c).st.finish == m.st.finish
  {
    ThinkAttributed(m, o, c, atoms);
    if o.emitReasoning && c.reasoning != "" {
      OnReasoningKeeps(m, c.reasoning);
      OnReasoningNamed(m, c.reasoning, atoms);
    } else {
      assert atoms + [] == atoms;
    }
  }

  function FinishAfter(c: Chunk, finish: string): string {
    if c.Choice? && c.finish != "" then c.finish else finish
  }

  /** The last finish reason the chunks gave. */
  function LastFinish(chunks: seq<Chunk>): string {
    if chunks == [] then "" else FinishAfter(chunks[|chunks| - 1], LastFinish(chunks[..|chunks| - 1]))
  }

  /** The state behind the tool deltas of a chunk, without the chunk's finish reason. */
  lemma OnChoiceParts(m: Machine, o: Options, c: Chunk, atoms: seq<Atom>)
    requires Known(m, atoms) && c.Choice?
    ensures var st := OnTools(AtRefusal(AtContent(AtReasoning(m, o, c), o, c), o, c), o, c.tools).st;
            Named(st, atoms + ChunkAtoms(c, o)) && st.finish == m.st.finish
  {
    var a1 := atoms + ThinkAtoms(c, o);
    var a2 := a1 + SayAtoms(OutputText, c.content);
    var m1 := AtReasoning(m, o, c);
    var m2 := AtContent(m1, o, c);
    ThinkKnown(m, o, c, atoms);
    SayKnown(m1, o, OutputText, c.content, a1);
    SayKnown(m2, o, RefusalText, c.refusal, a2);
    OnToolsKnown(AtRefusal(m2, o, c), o, c.tools, a2 + SayAtoms(RefusalText, c.refusal));
    ChunkAtomsGroup(atoms, c, o);
  }

  lemma FinishIrrelevant(st: State, finish: string, atoms: seq<Atom>)
    requires Named(st, atoms)
    ensures Named(st.(finish := finish), atoms)
  {
  }

  lemma OnChoiceNamed(m: Machine, o: Options, c: Chunk, atoms: seq<Atom>)
    requires Known(m, atoms) && c.Choice?
    ensures Named(OnChunk(m, o, c).st, atoms + ChunkAtoms(c, o))
    ensures OnChunk(m, o, c).st.finish == FinishAfter(c, m.st.finish)
  {
    OnChoiceParts(m, o, c, atoms);
    var st := OnTools(AtRefusal(AtContent(AtReasoning(m, o, c), o, c), o, c), o, c.tools).st;
    FinishIrrelevant(st, FinishAfter(c, m.st.finish), atoms + ChunkAtoms(c, o));
  }

  lemma OnChunkKnown(m: Machine, o: Options, c: Chunk, atoms: seq<Atom>)
    requires Known(m, atoms)
    ensures Known(OnChunk(m, o, c), atoms + ChunkAtoms(c, o))
            && OnChunk(m, o, c).st.finish == FinishAfter(c, m.st.finish)
  {
    OnChunkAttributed(m, o, c, atoms);
    OnChunkKeeps(m, o, c);
    if c.Choice? {
      OnChoiceNamed(m, o, c, atoms);
    } else {
      assert atoms + [] == atoms;
    }
  }

  lemma {:induction false} OnChunksKnown(o: Options, chunks: seq<Chunk>)
    ensures Known(OnChunks(Preamble(), o, chunks), Atoms(chunks, o))
    ensures OnChunks(Preamble(), o, chunks).st.finish == LastFinish(chunks)
  {
    if chunks == [] {
      RT.PreambleGood();
      PreambleAttributed();
    } else {
      OnChunksKnown(o, chunks[..|chunks| - 1]);
      OnChunkKnown(OnChunks(Preamble(), o, chunks[..|chunks| - 1]), o, chunks[|chunks| - 1],
                   Atoms(chunks[..|chunks| - 1], o));
    }
  }

  lemma CloseEverythingNamed(m: Machine, o: Options, atoms: seq<Atom>)
    requires Named(m.st, atoms)
    ensures Named(CloseEverything(m, o).st, atoms) && CloseEverything(m, o).st.finish == m.st.finish
  {
    var m1 := Deliver(m, CloseReasoning(m.st, o));
    var m2 := Deliver(m1, CloseText(m1.st, o));
    CloseReasoningNamed(m.st, o, atoms);
    CloseTextNamed(m1.st, o, atoms);
    CloseCallsInTurnNamed(m2, o, m2.st.toolOrder, atoms);
  }

  /** The payload a stream ends with. */
  function LastPayload(chunks: seq<Chunk>, o: Options): Payload {
    var events := EventsOf(Convert(chunks, o).trace);
    if events == [] then Created else events[|events| - 1].payload
  }

  /** What the terminal event lists. */
  function TerminalOutput(chunks: seq<Chunk>, o: Options): seq<Item> {
    var p := LastPayload(chunks, o);
    if p.Terminal? then p.output else []
  }

  lemma FiledItem(st: State, items: seq<Seen>, k: nat)
    requires Linked(st, items) && k < |items| && items[k].phase.Done?
    ensures Agrees(items[k], items[k].phase.item)
    ensures exists i :: 0 <= i < |st.output| && st.output[i] == (k, items[k].phase.item)
  {
    var i :| 0 <= i < |st.output| && st.output[i].0 == k;
    assert st.output[i] == (k, items[k].phase.item);
  }

  /** The state a stream ends in before its terminal event. */
  function ClosedMachine(chunks: seq<Chunk>, o: Options): Machine {
    CloseEverything(OnChunks(Preamble(), o, chunks), o)
  }

  lemma EndOfStream(chunks: seq<Chunk>, o: Options)
    requires !HasError(chunks)
    ensures var m := ClosedMachine(chunks, o);
            && Good(m) && Named(m.st, Atoms(chunks, o)) && m.st.finish == LastFinish(chunks)
            && ViewOf(m.trace).value.items == RT.FinalItems(chunks, o)
            && Convert(chunks, o) == EndNormally(OnChunks(Preamble(), o, chunks), o)
  {
    var m := RT.ConvertGood(chunks, o);
    BeforeErrorIsPrefix(chunks);
    assert BeforeError(chunks) == chunks;
    OnChunksKnown(o, chunks);
    CloseEverythingNamed(m, o, Atoms(chunks, o));
    RT.EndNormallyAccepted(m, o);
  }

  /** Every item of the terminal event is the one seen at its index; calls have the name their
      fragments gave and an id. */
  lemma TerminalItems(chunks: seq<Chunk>, o: Options)
    requires !HasError(chunks)
    ensures var items, output := RT.FinalItems(chunks, o), TerminalOutput(chunks, o);
            && LastPayload(chunks, o).Terminal? && |output| == |items|
            && forall k :: 0 <= k < |output| ==>
                 && Agrees(items[k], output[k])
                 && (output[k].CallItem?
                     ==> output[k].name == NameOf(Atoms(chunks, o), k) && output[k].callId != Given(""))
  {
    EndOfStream(chunks, o);
    RT.NormalLifecycle(chunks, o);
    var m, items, output := ClosedMachine(chunks, o), RT.FinalItems(chunks, o), TerminalOutput(chunks, o);
    forall k | 0 <= k < |output|
      ensures Agrees(items[k], output[k])
      ensures output[k].CallItem? ==> output[k].name == NameOf(Atoms(chunks, o), k) && output[k].callId != Given("") {
      assert items[k].phase == Done(output[k]);
      FiledItem(m.st, items, k);
    }
  }

  /** The terminal event as it was sent, and the holder as it was filled. */
  lemma TerminalFromState(chunks: seq<Chunk>, o: Options)
    requires !HasError(chunks)
    ensures var st := ClosedMachine(chunks, o).st;
            && LastPayload(chunks, o) == Terminal(ItemStatus(st, o), FiledItems(st))
            && Convert(chunks, o).st.holder == Filled(st).holder
  {
    var m := OnChunks(Preamble(), o, chunks);
    BeforeErrorIsPrefix(chunks);
    assert BeforeError(chunks) == chunks;
    RT.EndNormallyShape(m, o);
    var m1 := CloseEverything(m, o);
    RT.LastEvent(m1.trace, RT.TerminalYield(m1.st, o));
  }

  /** The holder is filled from the very items the terminal event lists. */
  lemma HolderFromTerminal(chunks: seq<Chunk>, o: Options)
    requires !HasError(chunks)
    ensures Convert(chunks, o).st.holder == FinalizeHolder(Unset, PiecesOf(TerminalOutput(chunks, o)))
  {
    TerminalFromState(chunks, o);
    ClosedHolderUnset(chunks, o);
  }

  lemma ClosedHolderUnset(chunks: seq<Chunk>, o: Options)
    requires !HasError(chunks)
    ensures ClosedMachine(chunks, o).st.holder == Unset
  {
    EndOfStream(chunks, o);
  }

  /** The status a finish reason stands for. */
  predicate Means(status: Status, finish: string, o: Options) {
    && (status == Incomplete <==> finish == "content_filter" || (finish == "length" && !o.lengthAsCompleted))
    && (status == Completed <==> finish != "content_filter" && (finish == "length" ==> o.lengthAsCompleted))
  }

  /** The terminal event reports every call under the name its fragments gave, and the status that the
      last finish reason of the chunks stands for. */
  lemma NamesAndStatus(chunks: seq<Chunk>, o: Options)
    requires !HasError(chunks)
    ensures var p, output := LastPayload(chunks, o), TerminalOutput(chunks, o);
            && p.Terminal? && Means(p.status, LastFinish(chunks), o)
            && forall k :: 0 <= k < |output| && output[k].CallItem? ==> output[k].name == NameOf(Atoms(chunks, o), k)
  {
    EndOfStream(chunks, o);
    TerminalFromState(chunks, o);
    TerminalItems(chunks, o);
  }
}
