/** Tool arguments that are written JSON: how an upstream sends them makes no difference. */
module JsonArguments {
  import opened Sequences
  import opened ChatChunks
  import opened AnthropicEvents
  import opened JsonText
  import JsonAccepted
  import JsonWritten
  import Json
  import A = ArgumentAssembly
  import G = AnthropicGrammar
  import MB = MessagesBridge
  import B = ToolSegments
  import S = OneShot

  /** The text writes a value that is no number. */
  ghost predicate WritesNoNumber(text: string) {
    exists before, v, after :: Writes(text, before, v, after) && !v.Number?
  }

  lemma WritesNoNumberIff(text: string)
    ensures WritesNoNumber(text) <==> Json.IsComplete(text) && !Json.IsNumberText(text)
  {
    if WritesNoNumber(text) {
      var before, v, after :| Writes(text, before, v, after) && !v.Number?;
      JsonAccepted.WrittenIsComplete(text, before, v, after);
    } else if Json.IsComplete(text) {
      var before, v, after := JsonWritten.CompleteIsWritten(text);
      JsonAccepted.WrittenIsComplete(text, before, v, after);
    }
  }

  /** Fragments of an object, or of any written value but a number, then any number of restatements in full. */
  lemma WrittenSurvives(fragments: seq<string>, restated: seq<string>)
    requires WritesNoNumber(Join(fragments))
    requires forall i :: 0 <= i < |restated| ==> restated[i] == Join(fragments)
    ensures Join(A.Assemble(Json.IsComplete, fragments + restated)) == Join(fragments)
  {
    WritesNoNumberIff(Join(fragments));
    A.BothDialects(fragments, restated);
  }

  /** Of a number sent in two pieces that are numbers themselves only the second piece is left. */
  lemma NumberIsTorn(a: string, x: Numeral, b: string, y: Numeral)
    requires Writes(a, "", Number(x), "") && Writes(b, "", Number(y), "")
    ensures Join([a, b]) == a + b && Join(A.Assemble(Json.IsComplete, [a, b])) == b
  {
    JsonAccepted.WrittenIsComplete(a, "", Number(x), "");
    JsonAccepted.WrittenIsComplete(b, "", Number(y), "");
    Json.BlankIncomplete("");
    A.TwoParts(Json.IsComplete, a, b);
  }

  /** Arguments that are absent, or written and no number. */
  ghost predicate AllWritten(calls: seq<S.ChatCall>) {
    forall j :: 0 <= j < |calls| ==> calls[j].args == "" || WritesNoNumber(calls[j].args)
  }

  /** A client that accumulates the stream has this body. */
  predicate TellsBody(stream: seq<Event>, body: S.Body) {
    && G.WatchFrom(G.NOTHING, stream).Some?
    && S.AgreeAll(G.WatchFrom(G.NOTHING, stream).value.blocks, body.content)
    && S.SameStop(stream, body.stopReason)
  }

  /** Every message whose calls have no arguments or written ones, numbers aside: streaming gives the client the
      one-shot body. */
  lemma WrittenAgrees(chunks: seq<Chunk>, m: S.Message, rs: seq<string>, ts: seq<string>, fs: seq<B.Fragment>)
    requires S.Cuts(chunks, m, rs, ts, fs) && AllWritten(m.calls)
    ensures TellsBody(MB.Convert(Json.IsComplete, chunks), S.BodyOf(Json.IsComplete, m))
  {
    forall j | 0 <= j < |m.calls|
      ensures m.calls[j].args == "" || (Json.IsComplete(m.calls[j].args) && !Json.IsNumberText(m.calls[j].args))
    {
      WritesNoNumberIff(m.calls[j].args);
    }
    S.StreamingAgreesForJson(chunks, m, rs, ts, fs);
    S.StopsAgree(Json.IsComplete, chunks, m);
  }

  /** The block is the call, its input being the arguments as they stand, or an empty object without any. */
  predicate InputIs(block: S.Content, call: S.ChatCall) {
    && block.ToolUse? && block.name == call.name && (call.id != "" ==> block.id == Given(call.id))
    && block.input == (if call.args == "" then "{}" else call.args)
  }

  lemma InTheTail(a: seq<S.Content>, b: seq<S.Content>, c: seq<S.Content>, j: nat)
    requires j < |c|
    ensures |a + b + c| >= |c| && (a + b + c)[|a + b + c| - |c| + j] == c[j]
  {
  }

  lemma UseIs(complete: A.JsonTest, calls: seq<S.ChatCall>, j: nat)
    requires j < |calls| && (calls[j].args == "" || complete(calls[j].args))
    ensures |S.ToolUses(complete, calls)| == |calls| && InputIs(S.ToolUses(complete, calls)[j], calls[j])
  {
  }

  /** In that body each call has its arguments as they were written. */
  lemma WrittenInput(m: S.Message, j: nat)
    requires AllWritten(m.calls) && j < |m.calls|
    ensures var content := S.BodyOf(Json.IsComplete, m).content;
            |content| >= |m.calls| && InputIs(content[|content| - |m.calls| + j], m.calls[j])
  {
    WritesNoNumberIff(m.calls[j].args);
    UseIs(Json.IsComplete, m.calls, j);
    InTheTail(S.TextIf(MB.Thinking, m.reasoning), S.TextIf(MB.Text, m.content),
              S.ToolUses(Json.IsComplete, m.calls), j);
  }
}
