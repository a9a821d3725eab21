/** Which items a stream has, told from the chunks: their kinds in order, whether there is anything to
    store, and under what names calls are kept when the generator is cancelled. */
module ResponsesItems {
  import opened Sequences
  import opened ChatChunks
  import opened ResponsesEvents
  import opened ResponsesMonitor
  import opened ResponsesBridge
  import opened ResponsesRecovery
  import opened ResponsesProtocol
  import opened ResponsesAttribution
  import opened ResponsesConservation
  import opened ResponsesNames
  import RT = ResponsesTheorems

  /** The items the pieces open, in order. */
  function OpenedItems(atoms: seq<Atom>): seq<Fact> {
    if atoms == [] then []
    else OpenedItems(atoms[..|atoms| - 1]) + OpeningFacts(atoms[..|atoms| - 1], atoms[|atoms| - 1])
  }

  function IsOpening(): Fact -> bool {
    (f: Fact) => !f.Said?
  }

  /** The items announced among the facts told. */
  function Openings(facts: seq<Fact>): seq<Fact> {
    Filter(facts, IsOpening())
  }

  // ---- Announced items are the reference's ----------------------------------------------------------------

  lemma OpeningsOfPiece(before: seq<Atom>, a: Atom)
    ensures Openings(OpeningFacts(before, a)) == OpeningFacts(before, a)
    ensures Openings(SaidFacts(before, a)) == []
  {
    if OpeningFacts(before, a) != [] { FilterOne(OpeningFacts(before, a)[0], IsOpening()); }
    if SaidFacts(before, a) != [] { FilterOne(SaidFacts(before, a)[0], IsOpening()); }
  }

  lemma {:induction false} OpeningsExpected(atoms: seq<Atom>)
    ensures Openings(Expected(atoms)) == OpenedItems(atoms)
  {
    if atoms == [] {
    } else {
      var before, a := atoms[..|atoms| - 1], atoms[|atoms| - 1];
      OpeningsExpected(before);
      OpeningsOfPiece(before, a);
      FilterAppend(Expected(before) + OpeningFacts(before, a), SaidFacts(before, a), IsOpening());
      FilterAppend(Expected(before), OpeningFacts(before, a), IsOpening());
    }
  }

  /** What the client's view says was announced. */
  function ShellFacts(items: seq<Seen>): seq<Fact> {
    seq(|items|, k requires 0 <= k < |items| => ShellFact(k, items[k].shell))
  }

  lemma WatchShells(v: View, e: Event)
    requires Watch(v, e).Some?
    ensures ShellFacts(Watch(v, e).value.items) == ShellFacts(v.items) + Openings(FactsOf(e.payload))
  {
    if FactsOf(e.payload) != [] { FilterOne(FactsOf(e.payload)[0], IsOpening()); }
    if e.payload.ItemAdded? {
    } else {
      SameShells(v, e);
      assert ShellFacts(v.items) + [] == ShellFacts(v.items);
    }
  }

  lemma SameShells(v: View, e: Event)
    requires Watch(v, e).Some? && !e.payload.ItemAdded?
    ensures var items := Watch(v, e).value.items;
            |items| == |v.items| && forall k :: 0 <= k < |items| ==> items[k].shell == v.items[k].shell
  {
  }

  lemma {:induction false} ToldShells(events: seq<Event>)
    requires WatchFrom(NOTHING, events).Some?
    ensures ShellFacts(WatchFrom(NOTHING, events).value.items) == Openings(EventFacts(events))
  {
    if events == [] {
    } else {
      var front, last := events[..|events| - 1], events[|events| - 1];
      ToldShells(front);
      WatchShells(WatchFrom(NOTHING, front).value, last);
      assert events == front + [last];
      FlatMapSnoc(EventFact, front, last);
      FilterAppend(EventFacts(front), FactsOf(last.payload), IsOpening());
    }
  }

  /** The items of a complete stream are those the chunks open. */
  lemma FinalShells(chunks: seq<Chunk>, o: Options)
    requires !HasError(chunks)
    ensures ShellFacts(RT.FinalItems(chunks, o)) == OpenedItems(Atoms(chunks, o))
  {
    BeforeErrorIsPrefix(chunks);
    assert BeforeError(chunks) == chunks;
    RT.StreamAccepted(chunks, o);
    ToldShells(EventsOf(Convert(chunks, o).trace));
    StreamTellsWhatChunksSay(chunks, o);
    OpeningsExpected(Atoms(chunks, o));
  }

  /** The kind of every item in the terminal event, told from the chunks. */
  lemma TerminalKinds(chunks: seq<Chunk>, o: Options)
    requires !HasError(chunks)
    ensures var output, announced := TerminalOutput(chunks, o), OpenedItems(Atoms(chunks, o));
            && |output| == |announced|
            && forall k :: 0 <= k < |output| ==>
                 && (output[k].ReasoningItem? <==> announced[k].Reasoning?)
                 && (output[k].MessageItem? <==> announced[k].Message?)
                 && (output[k].CallItem? <==> announced[k].FunctionCall?)
  {
    TerminalItems(chunks, o);
    FinalShells(chunks, o);
    var items, output, announced := RT.FinalItems(chunks, o), TerminalOutput(chunks, o), OpenedItems(Atoms(chunks, o));
    forall k | 0 <= k < |output|
      ensures output[k].ReasoningItem? <==> announced[k].Reasoning?
      ensures output[k].MessageItem? <==> announced[k].Message?
      ensures output[k].CallItem? <==> announced[k].FunctionCall? {
      assert announced[k] == ShellFacts(items)[k] == ShellFact(k, items[k].shell);
      assert Agrees(items[k], output[k]);
    }
  }

  lemma {:induction false} OpenedCount(atoms: seq<Atom>)
    ensures |OpenedItems(atoms)| == ItemCount(atoms)
  {
    if atoms == [] {
    } else {
      OpenedCount(atoms[..|atoms| - 1]);
    }
  }

  predicate AllReasoning(items: seq<Fact>) {
    forall k :: 0 <= k < |items| ==> items[k].Reasoning?
  }

  lemma AllReasoningAppend(a: seq<Fact>, b: seq<Fact>)
    ensures AllReasoning(a + b) <==> AllReasoning(a) && AllReasoning(b)
  {
    if AllReasoning(a + b) {
      assert forall k :: 0 <= k < |a| ==> (a + b)[k] == a[k];
      assert forall k :: 0 <= k < |b| ==> (a + b)[|a| + k] == b[k];
    }
  }

  /** Only reasoning is opened while nothing is spoken. */
  lemma {:induction false} SilentItems(atoms: seq<Atom>)
    ensures LastSpoken(atoms).None? <==> AllReasoning(OpenedItems(atoms))
  {
    if atoms == [] {
    } else {
      var before, a := atoms[..|atoms| - 1], atoms[|atoms| - 1];
      SilentItems(before);
      AllReasoningAppend(OpenedItems(before), OpeningFacts(before, a));
      if LastSpoken(before).None? && !a.Think? {
        FirstSpokenOpens(before, a);
        assert !OpeningFacts(before, a)[0].Reasoning?;
      }
    }
  }

  lemma FirstSpokenOpens(before: seq<Atom>, a: Atom)
    requires LastSpoken(before).None? && !a.Think?
    ensures Opens(before, a)
  {
    RunMeansCall(before);
  }

  // ---- Something to store -----------------------------------------------------------------------------------

  function TextAt(oi: nat): Fact -> string {
    (f: Fact) => if f.Said? && f.oi == oi then f.text else ""
  }

  /** The text told under one index. */
  function SaidAt(facts: seq<Fact>, oi: nat): string {
    FlatMap(TextAt(oi), facts)
  }

  lemma {:induction false} DeltasAreSaid(events: seq<Event>, oi: nat)
    ensures RT.DeltaText(events, oi) == SaidAt(EventFacts(events), oi)
  {
    if events == [] {
    } else {
      var front, last := events[..|events| - 1], events[|events| - 1];
      DeltasAreSaid(front, oi);
      FlatMapAppend(TextAt(oi), EventFacts(front), FactsOf(last.payload));
      if FactsOf(last.payload) != [] { FlatMapOne(TextAt(oi), FactsOf(last.payload)[0]); }
    }
  }

  predicate NoEmptyText(atoms: seq<Atom>) {
    forall k :: 0 <= k < |atoms| && atoms[k].Say? ==> atoms[k].text != ""
  }

  lemma {:induction false} ToolAtomsAreCalls(ds: seq<ToolDelta>)
    ensures forall k :: 0 <= k < |ToolAtoms(ds)| ==> ToolAtoms(ds)[k].Call?
  {
    if ds == [] {
    } else {
      ToolAtomsAreCalls(ds[..|ds| - 1]);
    }
  }

  lemma {:induction false} AtomsNotEmpty(chunks: seq<Chunk>, o: Options)
    ensures NoEmptyText(Atoms(chunks, o))
  {
    if chunks == [] {
    } else {
      AtomsNotEmpty(chunks[..|chunks| - 1], o);
      var c := chunks[|chunks| - 1];
      if c.Choice? { ToolAtomsAreCalls(c.tools); }
    }
  }

  lemma OpenedIsSaid(before: seq<Atom>, a: Atom)
    requires a.Say? && a.text != "" && Opens(before, a)
    ensures SaidAt(SaidFacts(before, a), ItemCount(before)) != ""
  {
    FlatMapOne(TextAt(ItemCount(before)), Said(ItemCount(before), a.channel, a.text));
  }

  /** A piece only adds to what was said. */
  lemma SaidAtGrows(before: seq<Atom>, a: Atom, k: nat)
    ensures var more := Expected(before) + OpeningFacts(before, a) + SaidFacts(before, a);
            |SaidAt(more, k)| >= |SaidAt(Expected(before), k)| + |SaidAt(SaidFacts(before, a), k)|
  {
    FlatMapAppend(TextAt(k), Expected(before) + OpeningFacts(before, a), SaidFacts(before, a));
    FlatMapAppend(TextAt(k), Expected(before), OpeningFacts(before, a));
  }

  /** Every message has text. */
  lemma {:induction false} MessagesSay(atoms: seq<Atom>, k: nat)
    requires NoEmptyText(atoms) && k < |OpenedItems(atoms)| && OpenedItems(atoms)[k].Message?
    ensures SaidAt(Expected(atoms), k) != ""
  {
    var before, a := atoms[..|atoms| - 1], atoms[|atoms| - 1];
    OpenedCount(before);
    SaidAtGrows(before, a, k);
    if k < |OpenedItems(before)| {
      assert OpenedItems(before)[k] == OpenedItems(atoms)[k];
      MessagesSay(before, k);
    } else {
      OpenedIsSaid(before, a);
    }
  }

  /** Every message item of a complete stream has text. */
  lemma MessageItemsSay(chunks: seq<Chunk>, o: Options, k: nat)
    requires !HasError(chunks) && k < |TerminalOutput(chunks, o)| && TerminalOutput(chunks, o)[k].MessageItem?
    ensures TerminalOutput(chunks, o)[k].text != ""
  {
    var events := EventsOf(Convert(chunks, o).trace);
    BeforeErrorIsPrefix(chunks);
    assert BeforeError(chunks) == chunks;
    TerminalItems(chunks, o);
    TerminalKinds(chunks, o);
    RT.NormalLifecycle(chunks, o);
    AtomsNotEmpty(chunks, o);
    MessagesSay(Atoms(chunks, o), k);
    StreamTellsWhatChunksSay(chunks, o);
    DeltasAreSaid(events, k);
  }

  lemma {:induction false} TextOfPiece(pieces: seq<Piece>, k: nat)
    requires k < |pieces| && pieces[k].MessagePiece? && pieces[k].text != ""
    ensures PieceText(pieces, pieces[k].channel) != ""
  {
    if k == |pieces| - 1 {
    } else {
      TextOfPiece(pieces[..|pieces| - 1], k);
    }
  }

  lemma {:induction false} CallOfPiece(pieces: seq<Piece>, k: nat)
    requires k < |pieces| && pieces[k].CallPiece?
    ensures PieceCalls(pieces) != []
  {
    if k == |pieces| - 1 {
    } else {
      CallOfPiece(pieces[..|pieces| - 1], k);
    }
  }

  lemma {:induction false} SilentPieces(pieces: seq<Piece>)
    requires forall k :: 0 <= k < |pieces| ==> pieces[k].ReasoningPiece?
    ensures PieceText(pieces, OutputText) == PieceText(pieces, RefusalText) == "" && PieceCalls(pieces) == []
  {
    if pieces == [] {
    } else {
      SilentPieces(pieces[..|pieces| - 1]);
    }
  }

  /** A message is made of items exactly when one of them is a call or has text. */
  lemma HolderOfSilence(items: seq<Item>)
    requires forall k :: 0 <= k < |items| ==> items[k].ReasoningItem?
    ensures !FinalizeHolder(Unset, PiecesOf(items)).Stored?
  {
    SilentPieces(PiecesOf(items));
  }

  lemma HolderOfSpeech(items: seq<Item>, k: nat)
    requires k < |items| && (items[k].CallItem? || items[k].MessageItem?)
    requires items[k].MessageItem? ==> items[k].text != "" && items[k].channel in {OutputText, RefusalText}
    ensures FinalizeHolder(Unset, PiecesOf(items)).Stored?
  {
    assert PiecesOf(items)[k] == PieceOf(items[k]);
    if items[k].MessageItem? { TextOfPiece(PiecesOf(items), k); } else { CallOfPiece(PiecesOf(items), k); }
  }

  /** What was announced at one index is a message with text or a call. */
  lemma SpokenItem(chunks: seq<Chunk>, o: Options, k: nat)
    requires !HasError(chunks)
    requires var announced := OpenedItems(Atoms(chunks, o)); k < |announced| && !announced[k].Reasoning?
    ensures var output := TerminalOutput(chunks, o);
            && k < |output| && (output[k].CallItem? || output[k].MessageItem?)
            && (output[k].MessageItem? ==> output[k].text != "" && output[k].channel in {OutputText, RefusalText})
  {
    TerminalKinds(chunks, o);
    TerminalItems(chunks, o);
    assert Agrees(RT.FinalItems(chunks, o)[k], TerminalOutput(chunks, o)[k]);
    if TerminalOutput(chunks, o)[k].MessageItem? { MessageItemsSay(chunks, o, k); }
  }

  /** A complete stream leaves a message to store exactly when some text, refusal or call fragment came. */
  lemma StoredIffSpoken(chunks: seq<Chunk>, o: Options)
    requires !HasError(chunks)
    ensures Convert(chunks, o).st.holder.Stored? <==> LastSpoken(Atoms(chunks, o)).Some?
  {
    var output, announced := TerminalOutput(chunks, o), OpenedItems(Atoms(chunks, o));
    HolderFromTerminal(chunks, o);
    SilentItems(Atoms(chunks, o));
    if AllReasoning(announced) {
      TerminalKinds(chunks, o);
      HolderOfSilence(output);
    } else {
      var k :| 0 <= k < |announced| && !announced[k].Reasoning?;
      SpokenItem(chunks, o, k);
      HolderOfSpeech(output, k);
    }
  }

  // ---- Names kept at a cancellation ---------------------------------------------------------------------------

  function NamesOf(calls: seq<ToolCall>): seq<string> {
    if calls == [] then [] else NamesOf(calls[..|calls| - 1]) + [calls[|calls| - 1].name]
  }

  lemma NamesOfSnoc(calls: seq<ToolCall>, last: ToolCall)
    ensures NamesOf(calls + [last]) == NamesOf(calls) + [last.name]
  {
    assert (calls + [last])[..|calls|] == calls;
  }

  lemma {:induction false} NamesOfAppend(a: seq<ToolCall>, b: seq<ToolCall>)
    ensures NamesOf(a + b) == NamesOf(a) + NamesOf(b)
  {
    if b == [] {
      assert a + b == a;
    } else {
      var front, last := b[..|b| - 1], b[|b| - 1];
      NamesOfAppend(a, front);
      NamesOfSnoc(a + front, last);
      SnocRegroup(a, b);
      Regroup(NamesOf(a), NamesOf(front), [last.name]);
    }
  }

  /** The name of item `k`, if it is a call. */
  function NameAt(atoms: seq<Atom>, k: nat): seq<string> {
    if k < |OpenedItems(atoms)| && OpenedItems(atoms)[k].FunctionCall? then [NameOf(atoms, k)] else []
  }

  /** The names of the calls among the first `n` items, in order. */
  function CallNames(atoms: seq<Atom>, n: nat): seq<string> {
    InOrder(NamesAt(atoms), n)
  }

  function NamesAt(atoms: seq<Atom>): nat -> seq<string> {
    (k: nat) => NameAt(atoms, k)
  }

  predicate PieceNamed(pair: (nat, Piece), atoms: seq<Atom>) {
    pair.1.CallPiece? ==> pair.1.call.name == NameOf(atoms, pair.0)
  }

  predicate PairsNamed(pairs: seq<(nat, Piece)>, atoms: seq<Atom>) {
    forall k :: 0 <= k < |pairs| ==> PieceNamed(pairs[k], atoms)
  }

  lemma {:induction false} CallPairsNamed(tools: map<int, OpenCall>, order: seq<int>, atoms: seq<Atom>)
    requires NamedCalls(tools, atoms)
    ensures PairsNamed(CallPairs(tools, order), atoms)
  {
    if order == [] {
    } else {
      CallPairsNamed(tools, order[..|order| - 1], atoms);
    }
  }

  lemma AllPairsNamed(st: State, atoms: seq<Atom>)
    requires Named(st, atoms)
    ensures PairsNamed(Pairs(st), atoms)
  {
    var order := FirstOccurrences(st.toolOrder);
    CallPairsNamed(st.tools, order, atoms);
    assert PairsNamed(ClosedPairs(st.output), atoms);
    assert PairsNamed(TextPairs(st.text), atoms);
  }

  lemma {:induction false} SlotNamed(pairs: seq<(nat, Piece)>, k: nat, atoms: seq<Atom>)
    requires PairsNamed(pairs, atoms)
    ensures forall i :: 0 <= i < |At(pairs, k)| ==> PieceNamed((k, At(pairs, k)[i]), atoms)
  {
    if pairs == [] {
    } else {
      SlotNamed(pairs[..|pairs| - 1], k, atoms);
      assert PieceNamed(pairs[|pairs| - 1], atoms);
    }
  }

  lemma OneName(call: ToolCall)
    ensures NamesOf([call]) == [call.name]
  {
    NamesOfSnoc([], call);
    assert [] + [call] == [call];
  }

  /** The call at one slot, if it is one. */
  lemma SlotCallNames(slot: seq<Piece>, seen: Seen, k: nat, atoms: seq<Atom>)
    requires PieceMatches(slot, seen) && forall i :: 0 <= i < |slot| ==> PieceNamed((k, slot[i]), atoms)
    ensures NamesIn(slot) == if seen.shell.CallShell? then [NameOf(atoms, k)] else []
  {
    if slot == [] {
    } else {
      assert slot == [slot[0]] && PieceNamed((k, slot[0]), atoms);
      OnePiece(slot[0], OutputText);
      if slot[0].CallPiece? { OneName(slot[0].call); }
    }
  }

  function NamesIn(pieces: seq<Piece>): seq<string> {
    NamesOf(PieceCalls(pieces))
  }

  lemma NamesAppend(a: seq<Piece>, b: seq<Piece>)
    ensures NamesIn(a + b) == NamesIn(a) + NamesIn(b)
  {
    PieceCallsAppend(a, b);
    NamesOfAppend(PieceCalls(a), PieceCalls(b));
  }

  /** What is at each of the indices is there under its name. */
  predicate SlotsNamed(pairs: seq<(nat, Piece)>, n: nat, names: nat -> seq<string>) {
    forall k :: 0 <= k < n ==> NamesIn(At(pairs, k)) == names(k)
  }

  lemma LinkedNames(st: State, items: seq<Seen>, atoms: seq<Atom>)
    requires Linked(st, items) && Named(st, atoms) && ShellFacts(items) == OpenedItems(atoms)
    ensures SlotsNamed(Pairs(st), |items|, NamesAt(atoms))
  {
    AllPairsNamed(st, atoms);
    forall k | 0 <= k < |items| ensures NamesIn(At(Pairs(st), k)) == NameAt(atoms, k) {
      SlotNamed(Pairs(st), k, atoms);
      PiecesAt(st, items, k);
      SlotCallNames(At(Pairs(st), k), items[k], k, atoms);
      assert OpenedItems(atoms)[k] == ShellFacts(items)[k];
    }
  }

  lemma {:induction false} SortedNames(pairs: seq<(nat, Piece)>, n: nat, names: nat -> seq<string>)
    requires SlotsNamed(pairs, n, names)
    ensures NamesIn(SortByIndex(pairs, n)) == InOrder(names, n)
  {
    if n == 0 {
    } else {
      SortedNames(pairs, n - 1, names);
      NamesAppend(SortByIndex(pairs, n - 1), At(pairs, n - 1));
    }
  }

  /** The calls a holder keeps. */
  function KeptCalls(h: Holder): seq<ToolCall> {
    if h.Stored? then h.toolCalls else []
  }

  /** A generator cancelled while it awaits its next chunk keeps every call under the first name that any
      of its fragments has brought so far, told or not. */
  lemma KeptNames(chunks: seq<Chunk>, o: Options)
    ensures var atoms := Atoms(chunks, o);
            NamesOf(KeptCalls(HolderIfClosed(OnChunks(Preamble(), o, chunks).st))) == CallNames(atoms, ItemCount(atoms))
  {
    var m, atoms := OnChunks(Preamble(), o, chunks), Atoms(chunks, o);
    OnChunksKnown(o, chunks);
    var items := ViewOf(m.trace).value.items;
    ToldShells(EventsOf(m.trace));
    OpeningsExpected(atoms);
    OpenedCount(atoms);
    LinkedNames(m.st, items, atoms);
    SortedNames(Pairs(m.st), |items|, NamesAt(atoms));
  }
}
