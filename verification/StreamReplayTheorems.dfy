/** Replay against chaining for every stream: when the terminal output, sent back as input, is read as
    the very message that was stored, told from the chunks. */
module StreamReplayTheorems {
  import opened Wrappers
  import opened ChatChunks
  import opened ResponsesEvents
  import opened ResponsesBridge
  import opened ResponsesRecovery
  import opened ResponsesAttribution
  import opened ResponsesNames
  import opened ResponsesItems
  import opened Replay
  import opened StreamReplay
  import RT = ResponsesTheorems

  /** Text or refusal comes before every call, and not both of them: each piece of it is the first thing
      said or continues text of its own kind. */
  predicate TextFirst(atoms: seq<Atom>) {
    atoms == []
    || (var before, a := atoms[..|atoms| - 1], atoms[|atoms| - 1];
        && TextFirst(before)
        && (a.Say? ==> LastSpoken(before).None? || ContinuesText(before, a)))
  }

  predicate ContinuesText(before: seq<Atom>, a: Atom)
    requires a.Say?
  {
    var last := LastSpoken(before);
    last.Some? && last.value.Say? && last.value.channel == a.channel
  }

  /** A message is announced before all else, if there is one. */
  predicate MessageLeads(items: seq<Fact>) {
    items == []
    || (MessageLeads(items[..|items| - 1]) && (items[|items| - 1].Message? ==> AllReasoning(items[..|items| - 1])))
  }

  lemma MessageLeadsSnoc(items: seq<Fact>, f: Fact)
    ensures MessageLeads(items + [f]) <==> MessageLeads(items) && (f.Message? ==> AllReasoning(items))
  {
    assert (items + [f])[..|items|] == items;
  }

  /** The condition on the chunks is the one on the items they open. */
  lemma {:induction false} TextFirstItems(atoms: seq<Atom>)
    ensures TextFirst(atoms) <==> MessageLeads(OpenedItems(atoms))
  {
    if atoms == [] {
    } else {
      var before, a := atoms[..|atoms| - 1], atoms[|atoms| - 1];
      TextFirstItems(before);
      SilentItems(before);
      if Opens(before, a) {
        MessageLeadsSnoc(OpenedItems(before), OpeningFacts(before, a)[0]);
        assert OpenedItems(atoms) == OpenedItems(before) + [OpeningFacts(before, a)[0]];
      } else {
        assert OpenedItems(atoms) == OpenedItems(before);
      }
    }
  }

  predicate SameKinds(items: seq<Item>, facts: seq<Fact>) {
    && |items| == |facts|
    && forall k :: 0 <= k < |items| ==>
         && (items[k].ReasoningItem? <==> facts[k].Reasoning?)
         && (items[k].MessageItem? <==> facts[k].Message?)
  }

  lemma {:induction false} ItemsLead(items: seq<Item>, facts: seq<Fact>)
    requires SameKinds(items, facts)
    ensures MessageFirst(items) <==> MessageLeads(facts)
    ensures Spoken(items) == [] <==> AllReasoning(facts)
  {
    if items == [] {
    } else {
      var n := |items| - 1;
      ItemsLead(items[..n], facts[..n]);
      assert facts == facts[..n] + [facts[n]];
      AllReasoningAppend(facts[..n], [facts[n]]);
    }
  }

  /** What a complete stream's terminal event and holder are made of. */
  lemma TerminalStreamed(chunks: seq<Chunk>, o: Options)
    requires !HasError(chunks)
    ensures var output := TerminalOutput(chunks, o);
            && Streamed(output)
            && Convert(chunks, o).st.holder == FinalizeHolder(Unset, PiecesOf(output))
            && (MessageFirst(output) <==> TextFirst(Atoms(chunks, o)))
            && (Spoken(output) == [] <==> LastSpoken(Atoms(chunks, o)).None?)
  {
    var output, items, atoms := TerminalOutput(chunks, o), RT.FinalItems(chunks, o), Atoms(chunks, o);
    HolderFromTerminal(chunks, o);
    TerminalItems(chunks, o);
    TerminalKinds(chunks, o);
    forall k | 0 <= k < |output| && output[k].MessageItem?
      ensures output[k].channel == OutputText || output[k].channel == RefusalText {
      assert Agrees(items[k], output[k]);
    }
    ItemsLead(output, OpenedItems(atoms));
    TextFirstItems(atoms);
    SilentItems(atoms);
  }

  /** For every stream that said something: a message is stored, and the items sent back are read as
      exactly that message if and only if text or refusal, not both, came before every call. */
  lemma StreamReplaysIff(chunks: seq<Chunk>, o: Options, minted: nat)
    requires !HasError(chunks) && LastSpoken(Atoms(chunks, o)).Some?
    ensures var h := Convert(chunks, o).st.holder;
            var again := InputToMessages(AllSentBack(TerminalOutput(chunks, o)), minted);
            && h.Stored?
            && (again == [AnswerMessage(h.content, h.toolCalls)] <==> TextFirst(Atoms(chunks, o)))
  {
    StoredIffSpoken(chunks, o);
    TerminalStreamed(chunks, o);
    StreamedReplayAgreesIff(TerminalOutput(chunks, o), minted);
  }

  /** A stream that said nothing stores nothing, and nothing is read from what is sent back. */
  lemma SilentStreamReplays(chunks: seq<Chunk>, o: Options, minted: nat)
    requires !HasError(chunks) && LastSpoken(Atoms(chunks, o)).None?
    ensures !Convert(chunks, o).st.holder.Stored?
    ensures InputToMessages(AllSentBack(TerminalOutput(chunks, o)), minted) == []
  {
    var output := TerminalOutput(chunks, o);
    StoredIffSpoken(chunks, o);
    TerminalStreamed(chunks, o);
    SpokenNothingFirst(output);
    MessageFirstReads(output, minted);
  }

  lemma {:induction false} SpokenNothingFirst(items: seq<Item>)
    requires Spoken(items) == []
    ensures MessageFirst(items)
  {
    if items == [] {
    } else {
      SpokenNothingFirst(items[..|items| - 1]);
    }
  }

  // ---- A stream that fails -----------------------------------------------------------------------------------

  const CALL_CHUNK := Choice("", "", "", [ToolDelta(Some(0), "call_1", "lookup", "{}")], "")
  const TEXT_CHUNK := Choice("", "done", "", [], "stop")

  lemma CallThenTextAtoms(o: Options)
    ensures var atoms := Atoms([CALL_CHUNK, TEXT_CHUNK], o);
            |atoms| == 2 && atoms[0].Call? && atoms[1] == Say(OutputText, "done")
  {
    var chunks := [CALL_CHUNK, TEXT_CHUNK];
    assert chunks[..1] == [CALL_CHUNK] && [CALL_CHUNK][..0] == [];
    var d := ToolDelta(Some(0), "call_1", "lookup", "{}");
    assert CALL_CHUNK.tools[..0] == [] && ToolAtoms([]) == [];
    assert ToolAtoms(CALL_CHUNK.tools) == [Call(FragmentOf(0, d))];
    assert ChunkAtoms(CALL_CHUNK, o) == [Call(FragmentOf(0, d))];
    assert ChunkAtoms(TEXT_CHUNK, o) == [Say(OutputText, "done")];
    assert Atoms([], o) == [] && Atoms([CALL_CHUNK], o) == [] + [Call(FragmentOf(0, d))];
    assert Atoms(chunks, o) == [Call(FragmentOf(0, d))] + [Say(OutputText, "done")];
  }

  /** A call fragment and then text: the stored message has the text beside the call, the items are read
      as two messages. */
  lemma CallThenTextDiffers(o: Options, minted: nat)
    ensures var chunks := [CALL_CHUNK, TEXT_CHUNK];
            var h := Convert(chunks, o).st.holder;
            var again := InputToMessages(AllSentBack(TerminalOutput(chunks, o)), minted);
            h.Stored? && again != [AnswerMessage(h.content, h.toolCalls)]
  {
    var chunks := [CALL_CHUNK, TEXT_CHUNK];
    var atoms := Atoms(chunks, o);
    CallThenTextAtoms(o);
    assert LastSpoken(atoms) == Some(atoms[1]);
    assert LastSpoken(atoms[..1]) == Some(atoms[0]);
    StreamReplaysIff(chunks, o, minted);
  }
}
