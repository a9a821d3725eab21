/** The parsed chat-completions chunks that both bridges read. A field that is absent, of
    the wrong type or empty is skipped by both bridges in the same way, so it is "" here. */
module ChatChunks {
  import opened Wrappers

  /** A tool-call id: the upstream's, or one taken from a supply of fresh ids. */
  datatype CallId = Given(id: string) | Minted(serial: nat)

  /** One entry of `delta.tool_calls`; `index` is None when it is not an int. */
  datatype ToolDelta = ToolDelta(index: Option<int>, id: string, name: string, args: string)

  datatype Chunk =
    | UpstreamError
    | NoChoice
    | Choice(reasoning: string, content: string, refusal: string, tools: seq<ToolDelta>, finish: string)

  /** The chunks before the first upstream error. */
  function BeforeError(chunks: seq<Chunk>): seq<Chunk> {
    if chunks == [] || chunks[0].UpstreamError? then [] else [chunks[0]] + BeforeError(chunks[1..])
  }

  predicate HasError(chunks: seq<Chunk>) {
    exists i :: 0 <= i < |chunks| && chunks[i].UpstreamError?
  }

  lemma {:induction false} BeforeErrorIsPrefix(chunks: seq<Chunk>)
    ensures BeforeError(chunks) <= chunks
    ensures |BeforeError(chunks)| < |chunks| <==> HasError(chunks)
    ensures forall i :: 0 <= i < |BeforeError(chunks)| ==> !chunks[i].UpstreamError?
    ensures HasError(chunks) ==> chunks[|BeforeError(chunks)|].UpstreamError?
  {
    if chunks == [] {
    } else if chunks[0].UpstreamError? {
    } else {
      BeforeErrorIsPrefix(chunks[1..]);
      if HasError(chunks) {
        var i :| 0 <= i < |chunks| && chunks[i].UpstreamError?;
        assert chunks[1..][i - 1].UpstreamError?;
      }
      if HasError(chunks[1..]) {
        var i :| 0 <= i < |chunks[1..]| && chunks[1..][i].UpstreamError?;
        assert chunks[i + 1].UpstreamError?;
      }
    }
  }

  predicate NoErrorBefore(chunks: seq<Chunk>, n: nat)
    requires n <= |chunks|
  {
    forall j :: 0 <= j < n ==> !chunks[j].UpstreamError?
  }

  /** A loop that stops at the first error has handled exactly the chunks before it. */
  lemma {:induction false} StopsAtError(chunks: seq<Chunk>, i: nat)
    requires i <= |chunks| && NoErrorBefore(chunks, i)
    requires i < |chunks| ==> chunks[i].UpstreamError?
    ensures BeforeError(chunks) == chunks[..i]
  {
    if i == 0 {
    } else {
      StopsAtError(chunks[1..], i - 1);
    }
  }
}
