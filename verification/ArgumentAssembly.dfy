/** How a buffered tool call assembles its argument text from two upstream dialects:
    incremental fragments, and full restatements of an already complete value. */
module ArgumentAssembly {
  import opened Sequences
  import opened Json
  import opened Wrappers

  /** The test that tells a complete JSON text; the bridge uses `Json.IsComplete`. */
  type JsonTest = string -> bool

  /** `_PendingToolCall.add_arguments` on the list of argument parts. */
  function AddArguments(complete: JsonTest, parts: seq<string>, arguments: string): seq<string> {
    if arguments == "" then parts
    else if Join(parts) != "" && complete(Join(parts)) && complete(arguments) then
      if arguments == Join(parts) then parts else [arguments]
    else parts + [arguments]
  }

  function Assemble(complete: JsonTest, fragments: seq<string>): seq<string> {
    if fragments == [] then []
    else AddArguments(complete, Assemble(complete, fragments[..|fragments| - 1]), fragments[|fragments| - 1])
  }

  lemma JoinOne(a: string)
    ensures Join([a]) == a
  {
    assert [a][..0] == [];
  }

  lemma AssembleSnoc(complete: JsonTest, fragments: seq<string>, last: string)
    ensures Assemble(complete, fragments + [last]) == AddArguments(complete, Assemble(complete, fragments), last)
  {
    assert (fragments + [last])[..|fragments|] == fragments;
  }

  /** What one fragment does to the assembled text. */
  lemma AddedText(complete: JsonTest, parts: seq<string>, arguments: string)
    requires !complete("")
    ensures Join(AddArguments(complete, parts, arguments)) ==
            if complete(Join(parts)) && complete(arguments) then arguments else Join(parts) + arguments
  {
    JoinSnoc(parts, arguments);
    JoinOne(arguments);
  }

  /** No complete prefix of `v` is followed by another complete text. */
  predicate ChunkSafe(complete: JsonTest, v: string) {
    forall i, j :: 0 <= i <= j <= |v| ==> !(complete(v[..i]) && complete(v[i..j]))
  }

  lemma SafeAt(complete: JsonTest, v: string, p: string, q: string)
    requires ChunkSafe(complete, v) && p + q <= v
    ensures !(complete(p) && complete(q))
  {
    assert v[..|p|] == p && v[|p|..|p| + |q|] == q;
  }

  lemma {:induction false} AssembleSafe(complete: JsonTest, fragments: seq<string>, v: string)
    requires !complete("") && ChunkSafe(complete, v) && Join(fragments) <= v
    ensures Join(Assemble(complete, fragments)) == Join(fragments)
  {
    if fragments == [] {
    } else {
      var front, last := fragments[..|fragments| - 1], fragments[|fragments| - 1];
      AssembleSafe(complete, front, v);
      AddedText(complete, Assemble(complete, front), last);
      SafeAt(complete, v, Join(front), last);
    }
  }

  lemma TwoParts(complete: JsonTest, a: string, b: string)
    requires !complete("") && complete(a) && complete(b)
    ensures Join([a, b]) == a + b && Join(Assemble(complete, [a, b])) == b
  {
    JoinOne(a);
    JoinSnoc([a], b);
    assert [a] + [b] == [a, b] && [] + [a] == [a];
    AssembleSnoc(complete, [], a);
    AssembleSnoc(complete, [a], b);
    AddedText(complete, [], a);
    AddedText(complete, Assemble(complete, [a]), b);
  }

  /** A complete text followed by a complete text loses the first. */
  lemma ThreeParts(complete: JsonTest, a: string, b: string, c: string)
    requires !complete("") && complete(a) && complete(b)
    ensures Join([a, b, c]) == a + b + c
    ensures Join(Assemble(complete, [a, b, c])) == (if complete(c) then c else b + c)
  {
    TwoParts(complete, a, b);
    JoinSnoc([a, b], c);
    assert [a, b] + [c] == [a, b, c];
    AssembleSnoc(complete, [a, b], c);
    AddedText(complete, Assemble(complete, [a, b]), c);
  }

  lemma UnsafeChunking(complete: JsonTest, v: string, i: nat, j: nat)
    requires !complete("") && i <= j <= |v| && complete(v[..i]) && complete(v[i..j])
    ensures Join([v[..i], v[i..j], v[j..]]) == v
    ensures Join(Assemble(complete, [v[..i], v[i..j], v[j..]])) != v
  {
    ThreeParts(complete, v[..i], v[i..j], v[j..]);
    assert |v[..i]| > 0;
    assert v[..i] + v[i..j] + v[j..] == v;
  }

  /** The assembled text equals the streamed text for every way of cutting `v` into fragments
      exactly when `v` has no complete prefix followed by a complete text. */
  lemma LosslessIffChunkSafe(complete: JsonTest, v: string)
    requires !complete("")
    ensures ChunkSafe(complete, v) <==>
            forall fragments :: Join(fragments) == v ==> Join(Assemble(complete, fragments)) == v
  {
    if ChunkSafe(complete, v) {
      forall fragments | Join(fragments) == v ensures Join(Assemble(complete, fragments)) == v {
        AssembleSafe(complete, fragments, v);
      }
    } else {
      var i, j :| 0 <= i <= j <= |v| && complete(v[..i]) && complete(v[i..j]);
      UnsafeChunking(complete, v, i, j);
    }
  }

  /** Incremental fragments of a chunk-safe value, followed by any number of restatements of it,
      leave exactly that value. */
  lemma {:induction false} FragmentsThenRestatements(complete: JsonTest, fragments: seq<string>, restated: seq<string>)
    requires !complete("") && complete(Join(fragments)) && ChunkSafe(complete, Join(fragments))
    requires forall i :: 0 <= i < |restated| ==> restated[i] == Join(fragments)
    ensures Join(Assemble(complete, fragments + restated)) == Join(fragments)
  {
    var v := Join(fragments);
    if restated == [] {
      AssembleSafe(complete, fragments, v);
      assert fragments + restated == fragments;
    } else {
      var front := restated[..|restated| - 1];
      FragmentsThenRestatements(complete, fragments, front);
      AssembleSnoc(complete, fragments + front, v);
      assert fragments + front + [v] == fragments + restated;
      AddedText(complete, Assemble(complete, fragments + front), v);
    }
  }

  /** A call whose every fragment is complete ends with the last one. */
  lemma {:induction false} LastRestatementWins(complete: JsonTest, fragments: seq<string>)
    requires !complete("") && fragments != [] && forall i :: 0 <= i < |fragments| ==> complete(fragments[i])
    ensures Join(Assemble(complete, fragments)) == fragments[|fragments| - 1]
  {
    var front, last := fragments[..|fragments| - 1], fragments[|fragments| - 1];
    AddedText(complete, Assemble(complete, front), last);
    if front == [] {
    } else {
      LastRestatementWins(complete, front);
    }
  }

  // ---- JSON -------------------------------------------------------------------------------

  /** Every complete JSON text but a number can be cut anywhere. */
  lemma {:induction false} CompleteIsChunkSafe(v: string)
    requires IsComplete(v) && !IsNumberText(v)
    ensures ChunkSafe(IsComplete, v)
  {
    forall i, j | 0 <= i <= j <= |v| && IsComplete(v[..i])
      ensures !IsComplete(v[i..j])
    {
      var p, q := v[..i], v[i..];
      assert p + q == v;
      if IsNumberText(p) { NumberPrefix(p, q); }
      CompletePrefix(p, q);
      AllSpace(q, 0);
      SpacesEnd(v[i..j], 0);
      BlankIncomplete(v[i..j]);
    }
  }

  /** The fragments of any JSON value but a number, then any number of full restatements. */
  lemma BothDialects(fragments: seq<string>, restated: seq<string>)
    requires IsComplete(Join(fragments)) && !IsNumberText(Join(fragments))
    requires forall i :: 0 <= i < |restated| ==> restated[i] == Join(fragments)
    ensures Join(Assemble(IsComplete, fragments + restated)) == Join(fragments)
  {
    CompleteIsChunkSafe(Join(fragments));
    FragmentsThenRestatements(IsComplete, fragments, restated);
  }

  lemma ReadsDigits(d: string)
    requires d == "1" || d == "2" || d == "12"
    ensures IsComplete(d) && IsNumberText(d)
  {
    assert Digits(d, |d|) == |d|;
    assert |d| == 2 ==> Digits(d, 1) == 2;
    assert Digits(d, 0) == |d|;
    assert Number(d, 0) == Some(|d|);
  }

  /** Numbers are the exception: "12" sent as "1" then "2" is taken for a restatement. */
  lemma NumbersAreNotChunkSafe()
    ensures IsComplete("12") && IsNumberText("12")
    ensures Join(["1", "2"]) == "12" && Join(Assemble(IsComplete, ["1", "2"])) == "2"
  {
    ReadsDigits("1");
    ReadsDigits("2");
    ReadsDigits("12");
    TwoParts(IsComplete, "1", "2");
    assert "1" + "2" == "12";
  }
}
