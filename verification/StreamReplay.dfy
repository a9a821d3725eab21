/** Replay against chaining for streamed answers: the terminal `output` sent back as input against the
    message the stream's holder stores. */
module StreamReplay {
  import opened Wrappers
  import opened ChatChunks
  import opened ResponsesEvents
  import opened ResponsesBridge
  import opened Replay
  import RR = ResponsesRecovery
  import T = Transcript

  function SentBack(item: Item): InputItem {
    match item
    case ReasoningItem(_, _, _) => IgnoredIn
    case MessageItem(_, _, channel, text) =>
      MessageIn("assistant", PartsIn([if channel == OutputText then TextIn(text) else RefusalIn(text)]))
    case CallItem(_, _, callId, name, args) => CallIn(callId, "fc", name, T.ArgText(args))
  }

  function AllSentBack(items: seq<Item>): seq<InputItem> {
    seq(|items|, k requires 0 <= k < |items| => SentBack(items[k]))
  }

  const ABSENT := T.Junk("null")

  /** A streamed item is sent back as the one-shot translation would have listed it, had the answer been just
      that: a text, a refusal or one call. */
  lemma SentAsInOneShot(item: Item)
    ensures item.MessageItem? && item.text != "" && item.channel == OutputText ==>
              MessageItems(ChatMessage(ABSENT, T.Text(item.text), ABSENT, [])) == [SentBack(item)]
    ensures item.MessageItem? && item.text != "" && item.channel == RefusalText ==>
              MessageItems(ChatMessage(ABSENT, ABSENT, T.Text(item.text), [])) == [SentBack(item)]
    ensures item.CallItem? ==>
              CallItems([T.CallEntry(item.callId, "function", Some(item.name), T.ArgText(item.args), "")])
              == [SentBack(item)]
  {
    if item.MessageItem? && item.text != "" {
      assert TextParts(ChatMessage(ABSENT, T.Text(item.text), ABSENT, [])) == [TextIn(item.text)];
      assert TextParts(ChatMessage(ABSENT, ABSENT, T.Text(item.text), [])) == [RefusalIn(item.text)];
    }
    if item.CallItem? {
      var call := T.CallEntry(item.callId, "function", Some(item.name), T.ArgText(item.args), "");
      CallItemsNext([call], 0);
      assert [call][..0] == [] && [call][..1] == [call];
    }
  }

  function EntryOf(call: ToolCall): T.CallEntry {
    T.CallEntry(call.id, "function", Some(call.name), T.ArgText(call.args), "")
  }

  function Entries(calls: seq<ToolCall>): seq<T.CallEntry> {
    seq(|calls|, k requires 0 <= k < |calls| => EntryOf(calls[k]))
  }

  function AnswerMessage(content: string, calls: seq<ToolCall>): T.Message {
    Plain(T.AssistantRole, T.Text(content)).(toolCalls := Entries(calls))
  }

  /** The items a stream can end with: text or refusal messages, and calls with an id. */
  predicate Streamed(items: seq<Item>) {
    forall k :: 0 <= k < |items| ==>
      && (items[k].MessageItem? ==> items[k].channel == OutputText || items[k].channel == RefusalText)
      && (items[k].CallItem? ==> items[k].callId != Given(""))
  }

  /** The items other than reasoning. */
  function Spoken(items: seq<Item>): seq<Item> {
    if items == [] then []
    else
      var front, last := Spoken(items[..|items| - 1]), items[|items| - 1];
      if last.ReasoningItem? then front else front + [last]
  }

  /** A message comes before all else, if there is one. */
  predicate MessageFirst(items: seq<Item>) {
    items == []
    || (MessageFirst(items[..|items| - 1]) && (items[|items| - 1].MessageItem? ==> Spoken(items[..|items| - 1]) == []))
  }

  function ReadOutput(items: seq<Item>, minted: nat): Reading {
    ReadItems(Reading([], false, minted), AllSentBack(items))
  }

  lemma ReadOutputSnoc(items: seq<Item>, minted: nat)
    requires items != []
    ensures ReadOutput(items, minted)
            == ReadItem(ReadOutput(items[..|items| - 1], minted), SentBack(items[|items| - 1]))
  {
    assert AllSentBack(items)[..|items| - 1] == AllSentBack(items[..|items| - 1]);
  }

  lemma TextOfPart(part: InputPart)
    requires part.TextIn? || part.RefusalIn?
    ensures ContentToChat(PartsIn([part])) == T.Text(part.text)
  {
    var parts := [part];
    assert parts[..|parts| - 1] == [] && PartsText([]) == "";
    assert PartsText(parts) == "" + part.text == part.text;
    assert !HasImage(parts);
  }

  /** Reading never makes the transcript shorter, and every spoken item is in it. */
  lemma {:induction false} ReadOutputGrows(items: seq<Item>, minted: nat)
    ensures Spoken(items) != [] ==> |ReadOutput(items, minted).messages| >= 1
    ensures !MessageFirst(items) ==> |ReadOutput(items, minted).messages| >= 2
  {
    if items == [] {
    } else {
      ReadOutputGrows(items[..|items| - 1], minted);
      ReadOutputSnoc(items, minted);
    }
  }

  lemma PiecesSnoc(items: seq<Item>)
    requires items != []
    ensures PiecesOf(items) == PiecesOf(items[..|items| - 1]) + [PieceOf(items[|items| - 1])]
  {
  }

  lemma {:induction false} NothingSpoken(items: seq<Item>)
    requires Spoken(items) == []
    ensures PieceText(PiecesOf(items), OutputText) == PieceText(PiecesOf(items), RefusalText) == ""
    ensures PieceCalls(PiecesOf(items)) == []
  {
    if items == [] {
    } else {
      var front := items[..|items| - 1];
      NothingSpoken(front);
      PiecesSnoc(items);
      RR.PieceTextSnoc(PiecesOf(front), PieceOf(items[|items| - 1]), OutputText);
      RR.PieceTextSnoc(PiecesOf(front), PieceOf(items[|items| - 1]), RefusalText);
      RR.PieceCallsSnoc(PiecesOf(front), PieceOf(items[|items| - 1]));
    }
  }

  /** What a transcript with at most one message, in front, is read as. */
  predicate ReadAsOne(r: Reading, items: seq<Item>) {
    var pieces := PiecesOf(items);
    var output, refusal := PieceText(pieces, OutputText), PieceText(pieces, RefusalText);
    && (output == "" || refusal == "")
    && (Spoken(items) == [] ==> r.messages == [] && !r.pending)
    && (Spoken(items) != [] ==> r.messages == [AnswerMessage(output + refusal, PieceCalls(pieces))])
  }

  lemma JoinsMessage(r: Reading, content: string, calls: seq<ToolCall>, item: InputItem, call: ToolCall)
    requires r.messages == [AnswerMessage(content, calls)] && (r.pending || calls == [])
    requires item == CallIn(call.id, "fc", call.name, T.ArgText(call.args)) && call.id != Given("")
    ensures ReadItem(r, item).messages == [AnswerMessage(content, calls + [call])] && ReadItem(r, item).pending
  {
    assert CallOf(item, r.minted) == EntryOf(call);
    assert Entries(calls + [call]) == Entries(calls) + [EntryOf(call)];
  }

  lemma OpensMessage(r: Reading, item: InputItem, call: ToolCall)
    requires r.messages == []
    requires item == CallIn(call.id, "fc", call.name, T.ArgText(call.args)) && call.id != Given("")
    ensures ReadItem(r, item).messages == [AnswerMessage("", [call])] && ReadItem(r, item).pending
  {
    assert CallOf(item, r.minted) == EntryOf(call);
    assert Entries([call]) == [EntryOf(call)];
  }

  /** What is known while a transcript with its message in front is read. */
  predicate ReadSoFar(r: Reading, items: seq<Item>) {
    ReadAsOne(r, items) && (PieceCalls(PiecesOf(items)) != [] ==> r.pending)
  }

  /** The pieces of one more item. */
  lemma PiecesGrow(items: seq<Item>)
    requires items != []
    ensures var before, after, p := PiecesOf(items[..|items| - 1]), PiecesOf(items), PieceOf(items[|items| - 1]);
            && PieceText(after, OutputText) == PieceText(before, OutputText) + SaidBy(p, OutputText)
            && PieceText(after, RefusalText) == PieceText(before, RefusalText) + SaidBy(p, RefusalText)
            && PieceCalls(after) == PieceCalls(before) + CalledBy(p)
  {
    PiecesSnoc(items);
    RR.PieceTextSnoc(PiecesOf(items[..|items| - 1]), PieceOf(items[|items| - 1]), OutputText);
    RR.PieceTextSnoc(PiecesOf(items[..|items| - 1]), PieceOf(items[|items| - 1]), RefusalText);
    RR.PieceCallsSnoc(PiecesOf(items[..|items| - 1]), PieceOf(items[|items| - 1]));
  }

  lemma AfterReasoning(r: Reading, items: seq<Item>)
    requires items != [] && items[|items| - 1].ReasoningItem? && ReadSoFar(r, items[..|items| - 1])
    ensures ReadSoFar(r, items)
  {
    PiecesGrow(items);
    var before := PiecesOf(items[..|items| - 1]);
    assert PieceText(before, OutputText) + "" == PieceText(before, OutputText);
    assert PieceText(before, RefusalText) + "" == PieceText(before, RefusalText);
    assert PieceCalls(before) + [] == PieceCalls(before);
  }

  /** A message item, sent back, opens a message with its text. */
  lemma MessageReads(r: Reading, item: Item)
    requires item.MessageItem? && (item.channel == OutputText || item.channel == RefusalText) && r.messages == []
    ensures var after := ReadItem(r, SentBack(item));
            after.messages == [AnswerMessage(item.text, [])] && !after.pending
  {
    TextOfPart(if item.channel == OutputText then TextIn(item.text) else RefusalIn(item.text));
    assert Entries([]) == [];
  }

  /** What it adds to the pieces when nothing was spoken before it. */
  lemma FirstMessagePieces(items: seq<Item>)
    requires items != [] && items[|items| - 1].MessageItem? && Spoken(items[..|items| - 1]) == []
    ensures var pieces, last := PiecesOf(items), items[|items| - 1];
            && PieceCalls(pieces) == []
            && PieceText(pieces, OutputText) == (if last.channel == OutputText then last.text else "")
            && PieceText(pieces, RefusalText) == (if last.channel == RefusalText then last.text else "")
  {
    PiecesGrow(items);
    NothingSpoken(items[..|items| - 1]);
  }

  lemma AfterMessage(r: Reading, items: seq<Item>)
    requires items != [] && items[|items| - 1].MessageItem? && ReadSoFar(r, items[..|items| - 1])
    requires Streamed(items) && Spoken(items[..|items| - 1]) == []
    ensures ReadSoFar(ReadItem(r, SentBack(items[|items| - 1])), items)
  {
    var last := items[|items| - 1];
    FirstMessagePieces(items);
    MessageReads(r, last);
    assert "" + last.text == last.text && last.text + "" == last.text;
  }

  lemma AfterCall(r: Reading, items: seq<Item>)
    requires items != [] && items[|items| - 1].CallItem? && ReadSoFar(r, items[..|items| - 1]) && Streamed(items)
    ensures ReadSoFar(ReadItem(r, SentBack(items[|items| - 1])), items)
  {
    var front, last := items[..|items| - 1], items[|items| - 1];
    var call, pieces := ToolCall(last.callId, last.name, last.args), PiecesOf(front);
    PiecesGrow(items);
    assert PieceText(pieces, OutputText) + "" == PieceText(pieces, OutputText);
    assert PieceText(pieces, RefusalText) + "" == PieceText(pieces, RefusalText);
    if Spoken(front) == [] {
      NothingSpoken(front);
      OpensMessage(r, SentBack(last), call);
      assert "" + "" == "" && [] + [call] == [call];
    } else {
      JoinsMessage(r, PieceText(pieces, OutputText) + PieceText(pieces, RefusalText), PieceCalls(pieces),
                   SentBack(last), call);
    }
  }

  lemma {:induction false} MessageFirstReads(items: seq<Item>, minted: nat)
    requires Streamed(items) && MessageFirst(items)
    ensures ReadSoFar(ReadOutput(items, minted), items)
  {
    if items == [] {
    } else {
      var front := items[..|items| - 1];
      MessageFirstReads(front, minted);
      ReadOutputSnoc(items, minted);
      match items[|items| - 1] {
        case ReasoningItem(_, _, _) => AfterReasoning(ReadOutput(front, minted), items);
        case MessageItem(_, _, _, _) => AfterMessage(ReadOutput(front, minted), items);
        case CallItem(_, _, _, _, _) => AfterCall(ReadOutput(front, minted), items);
      }
    }
  }

  /** Replay against chaining, for a streamed answer that is stored: the items sent back are read as
      the stored message exactly when no message item follows another item. */
  lemma StreamedReplayAgreesIff(items: seq<Item>, minted: nat)
    requires Streamed(items) && FinalizeHolder(Unset, PiecesOf(items)).Stored?
    ensures var stored := FinalizeHolder(Unset, PiecesOf(items));
            InputToMessages(AllSentBack(items), minted) == [AnswerMessage(stored.content, stored.toolCalls)]
            <==> MessageFirst(items)
  {
    if MessageFirst(items) {
      MessageFirstReads(items, minted);
      if Spoken(items) == [] { NothingSpoken(items); }
      var output, refusal := PieceText(PiecesOf(items), OutputText), PieceText(PiecesOf(items), RefusalText);
      assert "" + refusal == refusal && output + "" == output;
    } else {
      ReadOutputGrows(items, minted);
    }
  }
}
