/** Conservation for the Responses stream: for every sequence of chunks what the client is told is what
    the chunks say, every piece once, in order, and filed under the item it belongs to. */
module ResponsesConservation {
  import opened Sequences
  import opened ChatChunks
  import opened ResponsesEvents
  import opened ResponsesBridge
  import opened ResponsesProtocol
  import opened ResponsesAttribution
  import RT = ResponsesTheorems

  lemma GoodListed(m: Machine)
    requires Good(m)
    ensures Listed(m.st)
  {
  }

  lemma ToolAtomsSnoc(ds: seq<ToolDelta>)
    requires ds != []
    ensures ToolAtoms(ds) == ToolAtoms(ds[..|ds| - 1]) + ToolAtoms([ds[|ds| - 1]])
  {
    var d := ds[|ds| - 1];
    assert [d][..0] == [] && ToolAtoms([]) == [];
  }

  lemma {:induction false} OnToolsAttributed(m: Machine, o: Options, ds: seq<ToolDelta>, atoms: seq<Atom>)
    requires Attributed(m, atoms)
    ensures Attributed(OnTools(m, o, ds), atoms + ToolAtoms(ds))
  {
    if ds == [] {
      assert atoms + [] == atoms;
    } else {
      var front, d := ds[..|ds| - 1], ds[|ds| - 1];
      OnToolsAttributed(m, o, front, atoms);
      OnToolAttributed(OnTools(m, o, front), o, d, atoms + ToolAtoms(front));
      ToolAtomsSnoc(ds);
      Regroup(atoms, ToolAtoms(front), ToolAtoms([d]));
    }
  }

  lemma SayAttributed(m: Machine, o: Options, channel: Channel, piece: string, atoms: seq<Atom>)
    requires Attributed(m, atoms) && Good(m)
    ensures Attributed(if piece != "" then OnMessage(m, o, channel, piece) else m, atoms + SayAtoms(channel, piece))
  {
    GoodListed(m);
    if piece != "" { OnMessageAttributed(m, o, channel, piece, atoms); } else { assert atoms + [] == atoms; }
  }

  lemma ThinkAttributed(m: Machine, o: Options, c: Chunk, atoms: seq<Atom>)
    requires Attributed(m, atoms) && c.Choice?
    ensures Attributed(AtReasoning(m, o, c), atoms + ThinkAtoms(c, o))
  {
    if o.emitReasoning && c.reasoning != "" {
      OnReasoningAttributed(m, c.reasoning, atoms);
    } else {
      assert atoms + [] == atoms;
    }
  }

  lemma SetFinishAttributed(m: Machine, finish: string, atoms: seq<Atom>)
    requires Attributed(m, atoms)
    ensures Attributed(m.(st := m.st.(finish := finish)), atoms)
  {
  }

  /** What a chunk's texts come to, before its tool fragments. */
  lemma TextsAttributed(m: Machine, o: Options, c: Chunk, atoms: seq<Atom>)
    requires Attributed(m, atoms) && Good(m) && Resting(m.st) && c.Choice?
    ensures Attributed(AtRefusal(AtContent(AtReasoning(m, o, c), o, c), o, c),
                       atoms + ThinkAtoms(c, o) + SayAtoms(OutputText, c.content) + SayAtoms(RefusalText, c.refusal))
  {
    var m1 := AtReasoning(m, o, c);
    ThinkAttributed(m, o, c, atoms);
    if o.emitReasoning && c.reasoning != "" { OnReasoningKeeps(m, c.reasoning); }
    SayAttributed(m1, o, OutputText, c.content, atoms + ThinkAtoms(c, o));
    OnMessageAtRest(m1, o, OutputText, c.content);
    SayAttributed(AtContent(m1, o, c), o, RefusalText, c.refusal,
                  atoms + ThinkAtoms(c, o) + SayAtoms(OutputText, c.content));
  }

  lemma ChunkAtomsGroup(atoms: seq<Atom>, c: Chunk, o: Options)
    requires c.Choice?
    ensures atoms + ThinkAtoms(c, o) + SayAtoms(OutputText, c.content) + SayAtoms(RefusalText, c.refusal)
            + ToolAtoms(c.tools)
            == atoms + ChunkAtoms(c, o)
  {
    Group4(atoms, ThinkAtoms(c, o), SayAtoms(OutputText, c.content), SayAtoms(RefusalText, c.refusal),
           ToolAtoms(c.tools));
  }

  lemma Group4(atoms: seq<Atom>, a: seq<Atom>, b: seq<Atom>, c: seq<Atom>, d: seq<Atom>)
    ensures atoms + a + b + c + d == atoms + (a + b + c + d)
  {
  }

  lemma OnChunkAttributed(m: Machine, o: Options, c: Chunk, atoms: seq<Atom>)
    requires Attributed(m, atoms) && Good(m) && Resting(m.st)
    ensures Attributed(OnChunk(m, o, c), atoms + ChunkAtoms(c, o))
  {
    if c.Choice? {
      var m3 := AtRefusal(AtContent(AtReasoning(m, o, c), o, c), o, c);
      TextsAttributed(m, o, c, atoms);
      OnToolsAttributed(m3, o, c.tools,
                        atoms + ThinkAtoms(c, o) + SayAtoms(OutputText, c.content) + SayAtoms(RefusalText, c.refusal));
      ChunkAtomsGroup(atoms, c, o);
      var m4 := OnTools(m3, o, c.tools);
      SetFinishAttributed(m4, if c.finish != "" then c.finish else m4.st.finish, atoms + ChunkAtoms(c, o));
    } else {
      assert atoms + [] == atoms;
    }
  }

  lemma {:induction false} OnChunksAttributed(m: Machine, o: Options, chunks: seq<Chunk>)
    requires Attributed(m, []) && Good(m) && Resting(m.st)
    ensures Attributed(OnChunks(m, o, chunks), Atoms(chunks, o))
  {
    if chunks == [] {
    } else {
      var front := chunks[..|chunks| - 1];
      OnChunksAttributed(m, o, front);
      OnChunksKeeps(m, o, front);
      OnChunkAttributed(OnChunks(m, o, front), o, chunks[|chunks| - 1], Atoms(front, o));
    }
  }

  lemma PreambleAttributed()
    ensures Attributed(Preamble(), [])
  {
    var m := Machine(INITIAL, []);
    ToldOne(m, INITIAL, Created);
    var m1 := Deliver(m, Bump(INITIAL, [Created]));
    ToldOne(m1, m1.st, Started);
    assert Told(m.trace) == [];
  }

  lemma {:induction false} CloseCallsInTurnSilent(m: Machine, o: Options, order: seq<int>)
    ensures Told(CloseCallsInTurn(m, o, order).trace) == Told(m.trace)
  {
    if order == [] {
    } else {
      var before := CloseCallsInTurn(m, o, order[..|order| - 1]);
      CloseCallsInTurnSilent(m, o, order[..|order| - 1]);
      SilentDelivery(before, CloseCall(before.st, o, order[|order| - 1]));
    }
  }

  lemma EndingsAreSilent(m: Machine, o: Options)
    ensures Told(EndNormally(m, o).trace) == Told(m.trace) && Told(EndInError(m).trace) == Told(m.trace)
  {
    CloseTextsSilent(m, o);
    var m1 := Deliver(m, CloseReasoning(m.st, o));
    var m2 := Deliver(m1, CloseText(m1.st, o));
    CloseCallsInTurnSilent(m2, o, m2.st.toolOrder);
    var m3 := CloseEverything(m, o);
    var output := SortByIndex(m3.st.output, m3.st.nextOi);
    var st := m3.st.(holder := FinalizeHolder(m3.st.holder, PiecesOf(output)));
    ToldOne(m3, st, Terminal(ItemStatus(st, o), output));
    ToldOne(m, m.st.(holder := Blocked), Failed(SortByIndex(m.st.output, m.st.nextOi)));
    assert Told(m3.trace) + [] == Told(m3.trace) && Told(m.trace) + [] == Told(m.trace);
  }

  /** Everything told is expected and everything expected is told, in the same order and under the same
      items, up to an upstream error. */
  lemma StreamTellsWhatChunksSay(chunks: seq<Chunk>, o: Options)
    ensures Told(Convert(chunks, o).trace) == Expected(Atoms(BeforeError(chunks), o))
  {
    var m := RT.ConvertGood(chunks, o);
    RT.PreambleGood();
    PreambleAttributed();
    OnChunksAttributed(Preamble(), o, BeforeError(chunks));
    EndingsAreSilent(m, o);
  }

  // ---- Texts -------------------------------------------------------------------------------------------------

  function FactText(channel: Channel): Fact -> string {
    (f: Fact) => if f.Said? && f.channel == channel then f.text else ""
  }

  function SaidText(facts: seq<Fact>, channel: Channel): string {
    FlatMap(FactText(channel), facts)
  }

  function AtomText(channel: Channel): Atom -> string {
    (a: Atom) => if a.Say? && a.channel == channel then a.text else ""
  }

  function AtomsText(atoms: seq<Atom>, channel: Channel): string {
    FlatMap(AtomText(channel), atoms)
  }

  lemma OpeningSaysNothing(before: seq<Atom>, a: Atom, channel: Channel)
    ensures SaidText(OpeningFacts(before, a), channel) == ""
  {
    if Opens(before, a) { FlatMapOne(FactText(channel), OpeningFacts(before, a)[0]); }
  }

  /** Text always has an owner. */
  lemma SayOwned(before: seq<Atom>, a: Atom)
    requires a.Say?
    ensures Owner(before, a).Some?
  {
    RunMeansCall(before);
  }

  lemma FactsSay(before: seq<Atom>, a: Atom, channel: Channel)
    requires channel == OutputText || channel == RefusalText
    ensures SaidText(SaidFacts(before, a), channel) == AtomText(channel)(a)
  {
    if a.Say? { SayOwned(before, a); }
    if SaidFacts(before, a) != [] { FlatMapOne(FactText(channel), SaidFacts(before, a)[0]); }
  }

  lemma {:induction false} ExpectedSays(atoms: seq<Atom>, channel: Channel)
    requires channel == OutputText || channel == RefusalText
    ensures SaidText(Expected(atoms), channel) == AtomsText(atoms, channel)
  {
    if atoms == [] {
    } else {
      var before, a := atoms[..|atoms| - 1], atoms[|atoms| - 1];
      ExpectedSays(before, channel);
      OpeningSaysNothing(before, a, channel);
      FactsSay(before, a, channel);
      FlatMapAppend(FactText(channel), Expected(before) + OpeningFacts(before, a), SaidFacts(before, a));
      FlatMapAppend(FactText(channel), Expected(before), OpeningFacts(before, a));
    }
  }

  /** The content or the refusal of a chunk. */
  function ChunkText(c: Chunk, channel: Channel): string {
    if !c.Choice? then ""
    else if channel == OutputText then c.content
    else if channel == RefusalText then c.refusal
    else ""
  }

  function ChunksText(chunks: seq<Chunk>, channel: Channel): string {
    if chunks == [] then "" else ChunksText(chunks[..|chunks| - 1], channel) + ChunkText(chunks[|chunks| - 1], channel)
  }

  lemma {:induction false} ToolsSayNothing(ds: seq<ToolDelta>, channel: Channel)
    ensures AtomsText(ToolAtoms(ds), channel) == ""
  {
    if ds == [] {
    } else {
      var front, d := ToolAtoms(ds[..|ds| - 1]), ds[|ds| - 1];
      ToolsSayNothing(ds[..|ds| - 1], channel);
      if d.index.Some? { FlatMapSnoc(AtomText(channel), front, Call(FragmentOf(d.index.value, d))); }
    }
  }

  lemma SayAtomsText(channel: Channel, text: string, asked: Channel)
    ensures AtomsText(SayAtoms(channel, text), asked) == if channel == asked then text else ""
  {
    if text != "" { FlatMapOne(AtomText(asked), Say(channel, text)); }
  }

  lemma ThinkSaysNothing(c: Chunk, o: Options, channel: Channel)
    requires c.Choice?
    ensures AtomsText(ThinkAtoms(c, o), channel) == ""
  {
    if ThinkAtoms(c, o) != [] { FlatMapOne(AtomText(channel), Think(c.reasoning)); }
  }

  lemma FourTexts(a: seq<Atom>, b: seq<Atom>, c: seq<Atom>, d: seq<Atom>, channel: Channel)
    ensures AtomsText(a + b + c + d, channel)
            == AtomsText(a, channel) + AtomsText(b, channel) + AtomsText(c, channel) + AtomsText(d, channel)
  {
    FlatMapAppend(AtomText(channel), a + b + c, d);
    FlatMapAppend(AtomText(channel), a + b, c);
    FlatMapAppend(AtomText(channel), a, b);
  }

  lemma ChunkSays(c: Chunk, o: Options, channel: Channel)
    requires channel == OutputText || channel == RefusalText
    ensures AtomsText(ChunkAtoms(c, o), channel) == ChunkText(c, channel)
  {
    if c.Choice? {
      FourTexts(ThinkAtoms(c, o), SayAtoms(OutputText, c.content), SayAtoms(RefusalText, c.refusal),
                ToolAtoms(c.tools), channel);
      ThinkSaysNothing(c, o, channel);
      SayAtomsText(OutputText, c.content, channel);
      SayAtomsText(RefusalText, c.refusal, channel);
      ToolsSayNothing(c.tools, channel);
    }
  }

  lemma {:induction false} ChunksSay(chunks: seq<Chunk>, o: Options, channel: Channel)
    requires channel == OutputText || channel == RefusalText
    ensures AtomsText(Atoms(chunks, o), channel) == ChunksText(chunks, channel)
  {
    if chunks == [] {
    } else {
      var front, last := chunks[..|chunks| - 1], chunks[|chunks| - 1];
      ChunksSay(front, o, channel);
      ChunkSays(last, o, channel);
      FlatMapAppend(AtomText(channel), Atoms(front, o), ChunkAtoms(last, o));
    }
  }

  /** No character of text or refusal is lost, added or moved. */
  lemma TextConserved(chunks: seq<Chunk>, o: Options, channel: Channel)
    requires channel == OutputText || channel == RefusalText
    ensures SaidText(Told(Convert(chunks, o).trace), channel) == ChunksText(BeforeError(chunks), channel)
  {
    StreamTellsWhatChunksSay(chunks, o);
    ExpectedSays(Atoms(BeforeError(chunks), o), channel);
    ChunksSay(BeforeError(chunks), o, channel);
  }
}
