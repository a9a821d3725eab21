/** How far streaming and one-shot agree: a message is translated alike under every way of cutting it
    into chunks exactly when its argument texts are safe. */
module OneShotExact {
  import opened Wrappers
  import opened Sequences
  import opened ChatChunks
  import opened AnthropicEvents
  import opened AnthropicGrammar
  import opened ArgumentAssembly
  import opened ToolSegments
  import opened ToolBuffer
  import opened MessagesBridge
  import opened MessagesReference
  import opened MessagesTheorems
  import opened OneShot

  // ---- A cut with one call in several fragments -----------------------------------------------------

  /** Every call as one fragment under its own index, call `j` with its first piece only. */
  function Heads(calls: seq<ChatCall>, j: nat, first: string): seq<Fragment> {
    seq(|calls|, k requires 0 <= k < |calls| =>
      Fragment(k, calls[k].id, calls[k].name, if k == j then first else calls[k].args))
  }

  /** The other pieces of call `j`, without id and name. */
  function Tails(j: nat, rest: seq<string>): seq<Fragment> {
    seq(|rest|, k requires 0 <= k < |rest| => Fragment(j, "", "", rest[k]))
  }

  function UpTo(n: nat): seq<int> {
    seq(n, k => k)
  }

  lemma {:induction false} FirstOccurrencesUpTo(n: nat)
    ensures FirstOccurrences(UpTo(n)) == UpTo(n)
  {
    if n == 0 {
    } else {
      FirstOccurrencesUpTo(n - 1);
      assert UpTo(n)[..n - 1] == UpTo(n - 1);
      assert UpTo(n) == UpTo(n - 1) + [n - 1];
    }
  }

  lemma {:induction false} FirstOccurrencesWithTails(n: nat, j: nat, rest: seq<string>)
    requires j < n
    ensures FirstOccurrences(UpTo(n) + Indices(Tails(j, rest))) == UpTo(n)
  {
    var all := UpTo(n) + Indices(Tails(j, rest));
    if rest == [] {
      FirstOccurrencesUpTo(n);
      assert all == UpTo(n);
    } else {
      FirstOccurrencesWithTails(n, j, rest[..|rest| - 1]);
      assert all[..|all| - 1] == UpTo(n) + Indices(Tails(j, rest[..|rest| - 1]));
      assert all[|all| - 1] == j == all[..|all| - 1][j];
    }
  }

  lemma IndicesOfCut(calls: seq<ChatCall>, j: nat, first: string, rest: seq<string>)
    ensures Indices(Heads(calls, j, first) + Tails(j, rest)) == UpTo(|calls|) + Indices(Tails(j, rest))
  {
  }

  lemma CutHasOneId(calls: seq<ChatCall>, j: nat, first: string, rest: seq<string>)
    ensures OneIdPerIndex(Heads(calls, j, first) + Tails(j, rest))
  {
    var n, fs := |calls|, Heads(calls, j, first) + Tails(j, rest);
    assert forall k :: 0 <= k < n ==> fs[k].index == k;
    assert forall k :: n <= k < |fs| ==> fs[k].id == "";
  }

  function IsOf(index: int): Fragment -> bool {
    (f: Fragment) => f.index == index
  }

  lemma {:induction false} SameFilter(fs: seq<Fragment>, index: int)
    ensures OfIndex(fs, index) == Filter(fs, IsOf(index))
  {
    if fs == [] {
    } else {
      SameFilter(fs[..|fs| - 1], index);
    }
  }

  lemma {:induction false} HeadsOfIndex(calls: seq<ChatCall>, j: nat, first: string, n: nat, index: nat)
    requires n <= |calls|
    ensures Filter(Heads(calls, j, first)[..n], IsOf(index))
            == if index < n then [Heads(calls, j, first)[index]] else []
  {
    if n == 0 {
    } else {
      HeadsOfIndex(calls, j, first, n - 1, index);
      var s := Heads(calls, j, first)[..n];
      assert s[..n - 1] == Heads(calls, j, first)[..n - 1];
    }
  }

  lemma {:induction false} TailsOfIndex(j: nat, rest: seq<string>, index: nat)
    ensures Filter(Tails(j, rest), IsOf(index)) == if index == j then Tails(j, rest) else []
  {
    if rest == [] {
    } else {
      TailsOfIndex(j, rest[..|rest| - 1], index);
      assert Tails(j, rest)[..|rest| - 1] == Tails(j, rest[..|rest| - 1]);
      assert Tails(j, rest) == Tails(j, rest[..|rest| - 1]) + [Tails(j, rest)[|rest| - 1]];
    }
  }

  /** The fragments of call `k` in the cut. */
  function GroupOf(calls: seq<ChatCall>, j: nat, first: string, rest: seq<string>, k: nat): seq<Fragment>
    requires k < |calls|
  {
    [Heads(calls, j, first)[k]] + (if k == j then Tails(j, rest) else [])
  }

  lemma GroupsOfCut(calls: seq<ChatCall>, j: nat, first: string, rest: seq<string>, k: nat)
    requires j < |calls| && k < |calls|
    ensures var fs := Heads(calls, j, first) + Tails(j, rest);
            && |CallKeys(fs)| == |calls| && CallKeys(fs)[k] == Key(k, 0)
            && Pick(fs, CallKeys(fs)[k]) == GroupOf(calls, j, first, rest, k)
  {
    var heads, fs := Heads(calls, j, first), Heads(calls, j, first) + Tails(j, rest);
    CutHasOneId(calls, j, first, rest);
    OneIdCalls(fs);
    IndicesOfCut(calls, j, first, rest);
    FirstOccurrencesWithTails(|calls|, j, rest);
    SameFilter(fs, k);
    FilterAppend(heads, Tails(j, rest), IsOf(k));
    HeadsOfIndex(calls, j, first, |calls|, k);
    assert heads[..|calls|] == heads;
    TailsOfIndex(j, rest, k);
  }

  lemma {:induction false} TailsName(head: Fragment, j: nat, rest: seq<string>)
    ensures IdOf([head] + Tails(j, rest)) == head.id && NameOf([head] + Tails(j, rest)) == head.name
  {
    var all := [head] + Tails(j, rest);
    if rest == [] {
      assert all == [head] && all[..0] == [];
      assert IdOf([]) == "" && NameOf([]) == "";
    } else {
      TailsName(head, j, rest[..|rest| - 1]);
      assert all[..|all| - 1] == [head] + Tails(j, rest[..|rest| - 1]);
      assert all[|all| - 1] == Fragment(j, "", "", rest[|rest| - 1]);
    }
  }

  lemma ArgsOfTails(head: Fragment, j: nat, rest: seq<string>)
    ensures ArgsOf([head] + Tails(j, rest)) == [head.args] + rest
  {
  }

  lemma GroupCutsCall(calls: seq<ChatCall>, j: nat, first: string, rest: seq<string>, k: nat)
    requires j < |calls| && k < |calls| && Join([first] + rest) == calls[j].args
    ensures CutsCall(GroupOf(calls, j, first, rest, k), calls[k])
    ensures k == j ==> ArgsOf(GroupOf(calls, j, first, rest, k)) == [first] + rest
  {
    var head := Heads(calls, j, first)[k];
    if k == j {
      TailsName(head, j, rest);
      ArgsOfTails(head, j, rest);
    } else {
      assert Tails(j, []) == [];
      TailsName(head, j, []);
      ArgsOfTails(head, j, []);
      JoinOne(calls[k].args);
      assert [head.args] + [] == [head.args];
    }
  }

  lemma CutCutsCalls(calls: seq<ChatCall>, j: nat, first: string, rest: seq<string>)
    requires j < |calls| && Join([first] + rest) == calls[j].args
    ensures CutsCalls(Heads(calls, j, first) + Tails(j, rest), calls)
  {
    var fs := Heads(calls, j, first) + Tails(j, rest);
    GroupsOfCut(calls, j, first, rest, 0);
    forall k | 0 <= k < |calls| ensures CutsCall(Pick(fs, CallKeys(fs)[k]), calls[k]) {
      GroupsOfCut(calls, j, first, rest, k);
      GroupCutsCall(calls, j, first, rest, k);
    }
  }

  // ---- One chunk that carries a cut ---------------------------------------------------------------------

  function DeltasFor(fs: seq<Fragment>): seq<ToolDelta> {
    seq(|fs|, k requires 0 <= k < |fs| => ToolDelta(Some(fs[k].index), fs[k].id, fs[k].name, fs[k].args))
  }

  lemma {:induction false} DeltasCarry(fs: seq<Fragment>, last: int)
    ensures MessagesReference.ToolAtoms(DeltasFor(fs), last) == Tools(fs)
  {
    if fs == [] {
    } else {
      var ds := DeltasFor(fs);
      DeltasCarry(fs[..|fs| - 1], last);
      assert ds[..|ds| - 1] == DeltasFor(fs[..|fs| - 1]);
      assert Tools(fs) == Tools(fs[..|fs| - 1]) + [ToolAtom(fs[|fs| - 1])];
    }
  }

  function Whole(text: string): seq<string> {
    if text == "" then [] else [text]
  }

  function OneChunk(m: Message, fs: seq<Fragment>): seq<Chunk> {
    [Choice(m.reasoning, m.content, "", DeltasFor(fs), m.finish)]
  }

  lemma OneChunkCuts(m: Message, fs: seq<Fragment>)
    requires CutsCalls(fs, m.calls)
    ensures Cuts(OneChunk(m, fs), m, Whole(m.reasoning), Whole(m.content), fs)
  {
    var chunks := OneChunk(m, fs);
    assert chunks[..0] == [] && AtomsOf([]) == [] && LastIndexOf([]) == 0 && FinishOf([]) == "";
    DeltasCarry(fs, 0);
    WholePieces(Thinking, m.reasoning);
    WholePieces(Text, m.content);
    assert AtomsOf(chunks) == ChunkAtoms(chunks[0], 0);
  }

  lemma WholePieces(kind: Kind, text: string)
    ensures Pieces(kind, Whole(text)) == PieceAtoms(kind, text) && Join(Whole(text)) == text
  {
    if text != "" { JoinOne(text); }
  }

  // ---- The disagreement ------------------------------------------------------------------------------------

  predicate SafeCall(complete: JsonTest, c: ChatCall) {
    c.args == "" || (complete(c.args) && ChunkSafe(complete, c.args))
  }

  /** The pieces of an unsafe argument text that are assembled to something else than the one-shot
      input. */
  lemma UnsafePieces(complete: JsonTest, c: ChatCall) returns (first: string, rest: seq<string>)
    requires !complete("") && complete("{}") && !SafeCall(complete, c)
    ensures Join([first] + rest) == c.args
    ensures var text := Join(Assemble(complete, [first] + rest));
            (if text == "" then "{}" else text) != InputOf(complete, c.args)
  {
    if !complete(c.args) {
      first, rest := c.args, [];
      assert [first] + rest == [c.args] && [] + [c.args] == [c.args];
      JoinOne(c.args);
      AssembleSnoc(complete, [], c.args);
      assert Assemble(complete, [c.args]) == [c.args];
    } else {
      var i, j :| 0 <= i <= j <= |c.args| && complete(c.args[..i]) && complete(c.args[i..j]);
      first, rest := c.args[..i], [c.args[i..j], c.args[j..]];
      UnsafeChunking(complete, c.args, i, j);
      assert [first] + rest == [c.args[..i], c.args[i..j], c.args[j..]];
      ThreeParts(complete, c.args[..i], c.args[i..j], c.args[j..]);
    }
  }

  lemma WholeRun(kind: Kind, text: string)
    ensures |RunIf(kind, Whole(text))| == |TextIf(kind, text)|
  {
  }

  /** The position of call `j` among the one-shot contents. */
  lemma ContentOfCall(complete: JsonTest, m: Message, j: nat)
    requires j < |m.calls|
    ensures var p := |RunIf(Thinking, Whole(m.reasoning))| + |RunIf(Text, Whole(m.content))| + j;
            p < |Contents(complete, m)| && Contents(complete, m)[p] == ToolUses(complete, m.calls)[j]
  {
    WholeRun(Thinking, m.reasoning);
    WholeRun(Text, m.content);
  }

  lemma CallDisagrees(complete: JsonTest, s: Shown, fs: seq<Fragment>, c: Content)
    requires ShowsCall(complete, s, fs) && c.ToolUse?
    requires var text := Join(Assemble(complete, ArgsOf(fs)));
             (if text == "" then "{}" else text) != c.input
    ensures !SameContent(Accumulated(s), c)
  {
    PayloadOfArguments(Assemble(complete, ArgsOf(fs)));
  }

  lemma ShownCall(complete: JsonTest, shown: seq<Shown>, a: seq<RefBlock>, fs: seq<Fragment>, j: nat)
    requires ShowsAll(complete, shown, a + CallsOf(fs)) && j < |CallKeys(fs)|
    ensures |a| + j < |shown| && ShowsCall(complete, shown[|a| + j], Pick(fs, CallKeys(fs)[j]))
  {
    assert (a + CallsOf(fs))[|a| + j] == CallsOf(fs)[j];
    assert Shows(complete, shown[|a| + j], (a + CallsOf(fs))[|a| + j]);
  }

  /** A shown call that accumulated another input than the message's disagrees with it. */
  lemma ShownDisagrees(complete: JsonTest, shown: seq<Shown>, m: Message, fs: seq<Fragment>, j: nat)
    requires ShowsAll(complete, shown,
                      RunIf(Thinking, Whole(m.reasoning)) + RunIf(Text, Whole(m.content)) + CallsOf(fs))
    requires j < |m.calls| == |CallKeys(fs)|
    requires var text := Join(Assemble(complete, ArgsOf(Pick(fs, CallKeys(fs)[j]))));
             (if text == "" then "{}" else text) != InputOf(complete, m.calls[j].args)
    ensures !AgreeAll(shown, Contents(complete, m))
  {
    var before := RunIf(Thinking, Whole(m.reasoning)) + RunIf(Text, Whole(m.content));
    ContentOfCall(complete, m, j);
    ShownCall(complete, shown, before, fs, j);
    CallDisagrees(complete, shown[|before| + j], Pick(fs, CallKeys(fs)[j]), ToolUses(complete, m.calls)[j]);
  }

  ghost predicate AgreesWhen(complete: JsonTest, chunks: seq<Chunk>, m: Message) {
    var v := WatchFrom(NOTHING, Convert(complete, chunks));
    v.Some? && AgreeAll(v.value.blocks, Contents(complete, m))
  }

  lemma UnsafeDisagrees(complete: JsonTest, m: Message, j: nat) returns (chunks: seq<Chunk>, rs: seq<string>,
                        ts: seq<string>, fs: seq<Fragment>)
    requires !complete("") && complete("{}") && j < |m.calls| && !SafeCall(complete, m.calls[j])
    ensures Cuts(chunks, m, rs, ts, fs) && !AgreesWhen(complete, chunks, m)
  {
    var first, rest := UnsafePieces(complete, m.calls[j]);
    fs := Heads(m.calls, j, first) + Tails(j, rest);
    rs, ts, chunks := Whole(m.reasoning), Whole(m.content), OneChunk(m, fs);
    CutCutsCalls(m.calls, j, first, rest);
    OneChunkCuts(m, fs);
    StreamShowsReference(complete, chunks);
    PhasedBlocks(rs, ts, fs);
    GroupsOfCut(m.calls, j, first, rest, j);
    GroupCutsCall(m.calls, j, first, rest, j);
    ShownDisagrees(complete, WatchFrom(NOTHING, Convert(complete, chunks)).value.blocks, m, fs, j);
  }

  /** Streaming agrees with one-shot under every chunking of a message if and only if each of its
      argument texts is absent, or complete and safe to cut. */
  lemma StreamingAgreesIff(complete: JsonTest, m: Message)
    requires !complete("") && complete("{}")
    ensures (forall chunks, rs, ts, fs :: Cuts(chunks, m, rs, ts, fs) ==> AgreesWhen(complete, chunks, m))
            <==> SafeArguments(complete, m.calls)
  {
    if SafeArguments(complete, m.calls) {
      forall chunks, rs, ts, fs | Cuts(chunks, m, rs, ts, fs) ensures AgreesWhen(complete, chunks, m) {
        StreamingAgrees(complete, chunks, m, rs, ts, fs);
      }
    } else {
      var j :| 0 <= j < |m.calls| && !SafeCall(complete, m.calls[j]);
      var chunks, rs, ts, fs := UnsafeDisagrees(complete, m, j);
    }
  }
}
