/** The non-streaming translation, and its agreement with the stream for every chunking. */
module OneShot {
  import opened Wrappers
  import opened Sequences
  import opened ChatChunks
  import opened AnthropicEvents
  import opened AnthropicGrammar
  import opened Json
  import opened ArgumentAssembly
  import opened ToolSegments
  import opened ToolBuffer
  import opened MessagesBridge
  import opened MessagesReference
  import opened MessagesTheorems

  /** A chat completion's message; "" is an absent field. */
  datatype ChatCall = ChatCall(id: string, name: string, args: string)
  datatype Message = Message(reasoning: string, content: string, calls: seq<ChatCall>, finish: string)

  /** A content block with tool input kept as text. */
  datatype Content = ThinkingContent(text: string) | TextContent(text: string) | ToolUse(id: CallId, name: string,
                                     input: string)

  /** Arguments that do not parse, or are absent, become an empty object. */
  function InputOf(complete: JsonTest, args: string): string {
    if args != "" && complete(args) then args else "{}"
  }

  function ToolUses(complete: JsonTest, calls: seq<ChatCall>): seq<Content> {
    seq(|calls|, i requires 0 <= i < |calls| =>
      ToolUse(if calls[i].id != "" then Given(calls[i].id) else Minted(i),
              calls[i].name, InputOf(complete, calls[i].args)))
  }

  function TextIf(kind: Kind, text: string): seq<Content> {
    if text == "" then [] else if kind == Thinking then [ThinkingContent(text)] else [TextContent(text)]
  }

  /** `openai_response_to_anthropic_body`, its content list. */
  function Contents(complete: JsonTest, m: Message): seq<Content> {
    TextIf(Thinking, m.reasoning) + TextIf(Text, m.content) + ToolUses(complete, m.calls)
  }

  /** The one-shot body: its content list and its stop reason. */
  datatype Body = Body(content: seq<Content>, stopReason: string)

  /** The table of stop reasons, an unknown finish reason being an end of turn. */
  function TableEntry(finish: string): string {
    if finish == "stop" then "end_turn"
    else if finish == "tool_calls" then "tool_use"
    else if finish == "function_call" then "tool_use"
    else if finish == "length" then "max_tokens"
    else if finish == "content_filter" then "end_turn"
    else "end_turn"
  }

  /** `openai_response_to_anthropic_body`. */
  function BodyOf(complete: JsonTest, m: Message): Body {
    Body(Contents(complete, m), TableEntry(if m.finish != "" then m.finish else "stop"))
  }

  lemma BodyStops(complete: JsonTest, m: Message)
    ensures StopsFor(BodyOf(complete, m).stopReason, m.finish)
  {
  }

  /** The events have one `message_delta`, last but one, and it has this stop reason. */
  predicate SameStop(out: seq<Event>, reason: string) {
    && |out| >= 2
    && forall k :: 0 <= k < |out| ==>
         (out[k].MessageDelta? <==> k == |out| - 2) && (out[k].MessageDelta? ==> out[k].stopReason == reason)
  }

  /** Stream and body stand for the same finish reason, so they name the same stop reason. */
  lemma StopsAgree(complete: JsonTest, chunks: seq<Chunk>, m: Message)
    requires !HasError(chunks) && FinishOf(chunks) == m.finish
    ensures SameStop(Convert(complete, chunks), BodyOf(complete, m).stopReason)
    ensures StopsFor(BodyOf(complete, m).stopReason, m.finish)
  {
    StopReasonTold(complete, chunks);
    BodyStops(complete, m);
  }

  // ---- What a client accumulates from the stream ----------------------------------------------

  function Payload(deltas: seq<Delta>): string {
    if deltas == [] then "" else Payload(deltas[..|deltas| - 1]) + deltas[|deltas| - 1].payload
  }

  /** The content a client accumulated for a block; no argument text is an empty object. */
  function Accumulated(s: Shown): Content {
    if s.block.kind == "thinking" then ThinkingContent(Payload(s.deltas))
    else if s.block.body.Tool? then
      ToolUse(s.block.body.id, s.block.body.name, if Payload(s.deltas) == "" then "{}" else Payload(s.deltas))
    else TextContent(Payload(s.deltas))
  }

  /** Equal up to the value of a minted id. */
  predicate SameContent(a: Content, b: Content) {
    if a.ToolUse? && b.ToolUse? then
      a.name == b.name && a.input == b.input && (a.id == b.id || (a.id.Minted? && b.id.Minted?))
    else a == b
  }

  // ---- A message cut into chunks ----------------------------------------------------------------

  function Pieces(kind: Kind, parts: seq<string>): seq<Atom> {
    seq(|parts|, i requires 0 <= i < |parts| => Piece(kind, parts[i]))
  }

  function Tools(fs: seq<Fragment>): seq<Atom> {
    seq(|fs|, i requires 0 <= i < |fs| => ToolAtom(fs[i]))
  }

  /** The fragments of one call add up to it. */
  predicate CutsCall(fs: seq<Fragment>, c: ChatCall) {
    IdOf(fs) == c.id && NameOf(fs) == c.name && Join(ArgsOf(fs)) == c.args
  }

  /** The calls of the reference, in order, add up to the message's calls. */
  predicate CutsCalls(fs: seq<Fragment>, calls: seq<ChatCall>) {
    && |CallKeys(fs)| == |calls|
    && forall j :: 0 <= j < |calls| ==> CutsCall(Pick(fs, CallKeys(fs)[j]), calls[j])
  }

  /** The chunks carry the message's reasoning, then its text, then its calls, cut and (for the
      calls) interleaved in any way, with its finish reason last. */
  predicate Cuts(chunks: seq<Chunk>, m: Message, rs: seq<string>, ts: seq<string>, fs: seq<Fragment>) {
    && !HasError(chunks)
    && AtomsOf(chunks) == Pieces(Thinking, rs) + Pieces(Text, ts) + Tools(fs)
    && Join(rs) == m.reasoning && Join(ts) == m.content
    && CutsCalls(fs, m.calls)
    && FinishOf(chunks) == m.finish
  }

  /** Argument texts that survive any chunking: absent, or complete and chunk safe. */
  predicate SafeArguments(complete: JsonTest, calls: seq<ChatCall>) {
    forall j :: 0 <= j < |calls| ==>
                  calls[j].args == "" || (complete(calls[j].args) && ChunkSafe(complete, calls[j].args))
  }

  lemma {:induction false} PiecesNotEmpty(chunks: seq<Chunk>)
    ensures forall i :: 0 <= i < |AtomsOf(chunks)| && AtomsOf(chunks)[i].Piece? ==> AtomsOf(chunks)[i].payload != ""
  {
    if chunks == [] {
    } else {
      var front, c := chunks[..|chunks| - 1], chunks[|chunks| - 1];
      PiecesNotEmpty(front);
      if c.Choice? { NoPieces(c.tools, LastIndexOf(front)); }
    }
  }

  lemma {:induction false} NoPieces(ds: seq<ToolDelta>, last: int)
    ensures forall i :: 0 <= i < |ToolAtoms(ds, last)| ==> ToolAtoms(ds, last)[i].ToolAtom?
  {
    if ds == [] {
    } else {
      NoPieces(ds[..|ds| - 1], last);
    }
  }

  function RunIf(kind: Kind, parts: seq<string>): seq<RefBlock> {
    if parts == [] then [] else [Run(kind, parts)]
  }

  lemma NoCalls()
    ensures CallsOf([]) == []
  {
    assert Keys([]) == [] && CallKeys([]) == [];
  }

  lemma AbsorbPiece(blocks: seq<RefBlock>, kind: Kind, payload: string)
    ensures Absorb(RefState(blocks, []), Piece(kind, payload)) == RefState(AddPiece(blocks, kind, payload), [])
  {
    NoCalls();
    assert blocks + [] == blocks;
  }

  lemma GrowRun(blocks: seq<RefBlock>, kind: Kind, pieces: seq<string>, payload: string)
    requires LastKind(blocks) != Some(kind)
    ensures AddPiece(blocks + RunIf(kind, pieces), kind, payload) == blocks + [Run(kind, pieces + [payload])]
  {
    var all := blocks + RunIf(kind, pieces);
    if pieces == [] {
      assert all == blocks && pieces + [payload] == [payload];
    } else {
      assert all[..|all| - 1] == blocks;
    }
  }

  lemma PiecesSnoc(kind: Kind, parts: seq<string>, last: string)
    ensures Pieces(kind, parts + [last]) == Pieces(kind, parts) + [Piece(kind, last)]
  {
  }

  lemma AbsorbOneMore(blocks: seq<RefBlock>, kind: Kind, front: seq<string>, last: string)
    requires LastKind(blocks) != Some(kind)
    requires AbsorbAll(RefState(blocks, []), Pieces(kind, front)) == RefState(blocks + RunIf(kind, front), [])
    ensures AbsorbAll(RefState(blocks, []), Pieces(kind, front + [last]))
            == RefState(blocks + RunIf(kind, front + [last]), [])
  {
    PiecesSnoc(kind, front, last);
    AbsorbSnoc(RefState(blocks, []), Pieces(kind, front), Piece(kind, last));
    AbsorbPiece(blocks + RunIf(kind, front), kind, last);
    GrowRun(blocks, kind, front, last);
  }

  lemma {:induction false} AbsorbPieces(blocks: seq<RefBlock>, kind: Kind, parts: seq<string>)
    requires LastKind(blocks) != Some(kind)
    ensures AbsorbAll(RefState(blocks, []), Pieces(kind, parts)) == RefState(blocks + RunIf(kind, parts), [])
  {
    if parts == [] {
      assert blocks + [] == blocks;
    } else {
      var front, last := parts[..|parts| - 1], parts[|parts| - 1];
      AbsorbPieces(blocks, kind, front);
      assert front + [last] == parts;
      AbsorbOneMore(blocks, kind, front, last);
    }
  }

  lemma {:induction false} AbsorbTools(r: RefState, fs: seq<Fragment>)
    ensures AbsorbAll(r, Tools(fs)) == r.(segment := r.segment + fs)
  {
    if fs == [] {
      assert r.segment + fs == r.segment;
    } else {
      var front, last := fs[..|fs| - 1], fs[|fs| - 1];
      AbsorbTools(r, front);
      assert Tools(fs) == Tools(front) + [ToolAtom(last)];
      AbsorbSnoc(r, Tools(front), ToolAtom(last));
      assert r.segment + front + [last] == r.segment + fs;
    }
  }

  lemma PhasedBlocks(rs: seq<string>, ts: seq<string>, fs: seq<Fragment>)
    ensures Blocks(Pieces(Thinking, rs) + Pieces(Text, ts) + Tools(fs))
            == RunIf(Thinking, rs) + RunIf(Text, ts) + CallsOf(fs)
  {
    var a, b, c := Pieces(Thinking, rs), Pieces(Text, ts), Tools(fs);
    AbsorbAppend(NO_BLOCKS, a, b);
    AbsorbAppend(NO_BLOCKS, a + b, c);
    AbsorbPieces([], Thinking, rs);
    assert [] + RunIf(Thinking, rs) == RunIf(Thinking, rs);
    AbsorbPieces(RunIf(Thinking, rs), Text, ts);
    AbsorbTools(RefState(RunIf(Thinking, rs) + RunIf(Text, ts), []), fs);
    assert [] + fs == fs;
  }

  lemma {:induction false} PayloadOfDeltas(kind: Kind, parts: seq<string>)
    ensures Payload(Deltas(kind, parts)) == Join(parts)
  {
    if parts == [] {
    } else {
      PayloadOfDeltas(kind, parts[..|parts| - 1]);
      assert Deltas(kind, parts)[..|parts| - 1] == Deltas(kind, parts[..|parts| - 1]);
    }
  }

  lemma {:induction false} PayloadOfArguments(parts: seq<string>)
    ensures Payload(ArgumentsShown(parts)) == Join(parts)
  {
    if parts == [] {
    } else {
      PayloadOfArguments(parts[..|parts| - 1]);
      assert ArgumentsShown(parts)[..|parts| - 1] == ArgumentsShown(parts[..|parts| - 1]);
    }
  }

  predicate NoneEmpty(parts: seq<string>) {
    forall i :: 0 <= i < |parts| ==> parts[i] != ""
  }

  lemma JoinNotEmpty(parts: seq<string>)
    requires NoneEmpty(parts)
    ensures Join(parts) == "" <==> parts == []
  {
  }

  lemma CallAgrees(complete: JsonTest, s: Shown, fs: seq<Fragment>, c: ChatCall, i: nat)
    requires !complete("") && ShowsCall(complete, s, fs) && CutsCall(fs, c)
    requires c.args == "" || (complete(c.args) && ChunkSafe(complete, c.args))
    ensures SameContent(Accumulated(s),
                        ToolUse(if c.id != "" then Given(c.id) else Minted(i), c.name, InputOf(complete, c.args)))
  {
    PayloadOfArguments(Assemble(complete, ArgsOf(fs)));
    if c.args == "" {
      AssembleNothing(complete, ArgsOf(fs));
    } else {
      AssembleSafe(complete, ArgsOf(fs), c.args);
    }
  }

  lemma {:induction false} AssembleNothing(complete: JsonTest, fragments: seq<string>)
    requires Join(fragments) == ""
    ensures Assemble(complete, fragments) == []
  {
    if fragments == [] {
    } else {
      AssembleNothing(complete, fragments[..|fragments| - 1]);
    }
  }

  predicate AgreeAll(shown: seq<Shown>, contents: seq<Content>) {
    |shown| == |contents| && forall i :: 0 <= i < |shown| ==> SameContent(Accumulated(shown[i]), contents[i])
  }

  lemma AccumulatedRun(s: Shown, kind: Kind, parts: seq<string>)
    requires s.block == RunBlock(kind) && s.deltas == Deltas(kind, parts)
    ensures Accumulated(s) == if kind == Thinking then ThinkingContent(Join(parts)) else TextContent(Join(parts))
  {
    PayloadOfDeltas(kind, parts);
  }

  lemma RunAgrees(complete: JsonTest, shown: seq<Shown>, kind: Kind, parts: seq<string>)
    requires ShowsAll(complete, shown, RunIf(kind, parts)) && NoneEmpty(parts)
    ensures AgreeAll(shown, TextIf(kind, Join(parts)))
  {
    JoinNotEmpty(parts);
    if parts == [] {
      assert |shown| == 0;
    } else {
      assert Shows(complete, shown[0], RunIf(kind, parts)[0]);
      AccumulatedRun(shown[0], kind, parts);
      assert TextIf(kind, Join(parts)) == [Accumulated(shown[0])];
    }
  }

  lemma CallsAgree(complete: JsonTest, shown: seq<Shown>, fs: seq<Fragment>, calls: seq<ChatCall>)
    requires !complete("") && ShowsAll(complete, shown, CallsOf(fs))
    requires CutsCalls(fs, calls) && SafeArguments(complete, calls)
    ensures AgreeAll(shown, ToolUses(complete, calls))
  {
    forall j | 0 <= j < |shown| ensures SameContent(Accumulated(shown[j]), ToolUses(complete, calls)[j]) {
      assert Shows(complete, shown[j], CallsOf(fs)[j]);
      CallAgrees(complete, shown[j], Pick(fs, CallKeys(fs)[j]), calls[j], j);
    }
  }

  lemma SplitShown(complete: JsonTest, shown: seq<Shown>, a: seq<RefBlock>, b: seq<RefBlock>, c: seq<RefBlock>)
    requires ShowsAll(complete, shown, a + b + c)
    ensures ShowsAll(complete, shown[..|a|], a)
    ensures ShowsAll(complete, shown[|a|..|a| + |b|], b)
    ensures ShowsAll(complete, shown[|a| + |b|..], c)
  {
    var all := a + b + c;
    forall i | 0 <= i < |a| ensures Shows(complete, shown[i], a[i]) { assert all[i] == a[i]; }
    forall i | 0 <= i < |b| ensures Shows(complete, shown[|a| + i], b[i]) { assert all[|a| + i] == b[i]; }
    forall i | 0 <= i < |c| ensures Shows(complete, shown[|a| + |b| + i], c[i]) { assert all[|a| + |b| + i] == c[i]; }
  }

  lemma AgreeThree(s: seq<Shown>, i: nat, j: nat, x: seq<Content>, y: seq<Content>, z: seq<Content>)
    requires i <= j <= |s|
    requires AgreeAll(s[..i], x) && AgreeAll(s[i..j], y) && AgreeAll(s[j..], z)
    ensures AgreeAll(s, x + y + z)
  {
    forall k | 0 <= k < |s| ensures SameContent(Accumulated(s[k]), (x + y + z)[k]) {
      if k < i {
        assert s[..i][k] == s[k];
      } else if k < j {
        assert s[i..j][k - i] == s[k];
      } else {
        assert s[j..][k - j] == s[k];
      }
    }
  }

  lemma PhasedPartsNotEmpty(atoms: seq<Atom>, rs: seq<string>, ts: seq<string>, fs: seq<Fragment>)
    requires atoms == Pieces(Thinking, rs) + Pieces(Text, ts) + Tools(fs)
    requires forall i :: 0 <= i < |atoms| && atoms[i].Piece? ==> atoms[i].payload != ""
    ensures NoneEmpty(rs) && NoneEmpty(ts)
  {
    forall i | 0 <= i < |rs| ensures rs[i] != "" { assert atoms[i] == Piece(Thinking, rs[i]); }
    forall i | 0 <= i < |ts| ensures ts[i] != "" { assert atoms[|rs| + i] == Piece(Text, ts[i]); }
  }

  /** The shown blocks of a phased message, group by group. */
  lemma PhasedAgree(complete: JsonTest, shown: seq<Shown>, m: Message, rs: seq<string>, ts: seq<string>,
                    fs: seq<Fragment>)
    requires !complete("") && SafeArguments(complete, m.calls)
    requires ShowsAll(complete, shown, RunIf(Thinking, rs) + RunIf(Text, ts) + CallsOf(fs))
    requires NoneEmpty(rs) && NoneEmpty(ts)
    requires Join(rs) == m.reasoning && Join(ts) == m.content && CutsCalls(fs, m.calls)
    ensures AgreeAll(shown, Contents(complete, m))
  {
    var a, b, c := RunIf(Thinking, rs), RunIf(Text, ts), CallsOf(fs);
    SplitShown(complete, shown, a, b, c);
    RunAgrees(complete, shown[..|a|], Thinking, rs);
    RunAgrees(complete, shown[|a|..|a| + |b|], Text, ts);
    CallsAgree(complete, shown[|a| + |b|..], fs, m.calls);
    AgreeThree(shown, |a|, |a| + |b|,
               TextIf(Thinking, m.reasoning), TextIf(Text, m.content), ToolUses(complete, m.calls));
  }

  /** Streaming agrees with one-shot: however a message is cut into chunks, the content a client
      accumulates from the events is the one-shot content list, block for block, and the stop
      reason is the same. */
  lemma StreamingAgrees(complete: JsonTest, chunks: seq<Chunk>, m: Message, rs: seq<string>, ts: seq<string>,
                        fs: seq<Fragment>)
    requires !complete("") && Cuts(chunks, m, rs, ts, fs) && SafeArguments(complete, m.calls)
    ensures WatchFrom(NOTHING, Convert(complete, chunks)).Some?
    ensures AgreeAll(WatchFrom(NOTHING, Convert(complete, chunks)).value.blocks, BodyOf(complete, m).content)
    ensures SameStop(Convert(complete, chunks), BodyOf(complete, m).stopReason)
    ensures StopsFor(BodyOf(complete, m).stopReason, m.finish)
  {
    StreamShowsReference(complete, chunks);
    StopsAgree(complete, chunks, m);
    PhasedBlocks(rs, ts, fs);
    PiecesNotEmpty(chunks);
    PhasedPartsNotEmpty(AtomsOf(chunks), rs, ts, fs);
    PhasedAgree(complete, WatchFrom(NOTHING, Convert(complete, chunks)).value.blocks, m, rs, ts, fs);
  }

  /** For JSON: every message whose arguments are absent or complete JSON other than a number. */
  lemma StreamingAgreesForJson(chunks: seq<Chunk>, m: Message, rs: seq<string>, ts: seq<string>, fs: seq<Fragment>)
    requires Cuts(chunks, m, rs, ts, fs)
    requires forall j :: 0 <= j < |m.calls| ==>
               m.calls[j].args == "" || (IsComplete(m.calls[j].args) && !IsNumberText(m.calls[j].args))
    ensures WatchFrom(NOTHING, Convert(IsComplete, chunks)).Some?
    ensures AgreeAll(WatchFrom(NOTHING, Convert(IsComplete, chunks)).value.blocks, BodyOf(IsComplete, m).content)
  {
    forall j | 0 <= j < |m.calls| && m.calls[j].args != "" ensures ChunkSafe(IsComplete, m.calls[j].args) {
      CompleteIsChunkSafe(m.calls[j].args);
    }
    BlankIncomplete("");
    StreamingAgrees(IsComplete, chunks, m, rs, ts, fs);
  }
}
