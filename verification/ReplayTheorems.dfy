/** Replaying against chaining: when the items a client sends back are read as the very message the
    chain stores, for one answer and for whole conversations. */
module ReplayTheorems {
  import opened Wrappers
  import opened ChatChunks
  import opened Transcript
  import opened Replay
  import C = Chaining

  // ---- Calls -----------------------------------------------------------------------------------------

  /** A call exactly as the converter itself would write it. */
  predicate Canonical(call: CallEntry) {
    call.CallEntry? && call.kind == "function" && call.name.Some? && call.args.ArgText? && call.extra == ""
  }

  predicate AllCanonical(calls: seq<CallEntry>) {
    forall k :: 0 <= k < |calls| ==> Canonical(calls[k])
  }

  function Rewritten(call: CallEntry): CallEntry
    requires call.CallEntry?
  {
    CallEntry(call.id, "function", Some(call.name.GetOr("")), ArgText(ArgsText(call.args)), "")
  }

  /** The calls as a client gets them and sends them back. */
  function Rewrite(calls: seq<CallEntry>): seq<CallEntry> {
    if calls == [] then []
    else
      var front, last := Rewrite(calls[..|calls| - 1]), calls[|calls| - 1];
      if last.CallEntry? then front + [Rewritten(last)] else front
  }

  lemma {:induction false} RewriteKeepsCanonical(calls: seq<CallEntry>)
    ensures |Rewrite(calls)| <= |calls|
    ensures Rewrite(calls) == calls <==> AllCanonical(calls)
  {
    if calls == [] {
    } else {
      var front, last := calls[..|calls| - 1], calls[|calls| - 1];
      assert calls == front + [last];
      RewriteKeepsCanonical(front);
      if Rewrite(calls) == calls {
        assert last.CallEntry?;
        assert Rewrite(calls)[..|front|] == Rewrite(front) == front;
        assert Rewrite(calls)[|front|] == Rewritten(last);
      }
    }
  }

  lemma CanonicalIds(calls: seq<CallEntry>, minted: nat)
    ensures AllCanonical(WithIds(calls, minted)) <==> AllCanonical(calls)
  {
    var done := WithIds(calls, minted);
    forall k | 0 <= k < |calls| ensures Canonical(done[k]) <==> Canonical(calls[k]) {
      assert done[k] == Identified(calls[k], minted + k);
    }
  }

  predicate Identifies(calls: seq<CallEntry>) {
    forall k :: 0 <= k < |calls| && calls[k].CallEntry? ==> calls[k].id != Given("")
  }

  /** The items of identified calls carry those ids, and are read as the rewritten calls. */
  lemma {:induction false} CallItemsRead(calls: seq<CallEntry>)
    requires Identifies(calls)
    ensures AllCalls(CallItems(calls)) && EntriesOf(CallItems(calls)) == Rewrite(calls)
  {
    if calls == [] {
    } else {
      var front, last := calls[..|calls| - 1], calls[|calls| - 1];
      CallItemsRead(front);
      if last.CallEntry? {
        var item := CallIn(last.id, "fc", last.name.GetOr(""), ArgText(ArgsText(last.args)));
        assert CallItems(calls) == CallItems(front) + [item];
        assert CallOf(item, 0) == Rewritten(last);
        assert EntriesOf(CallItems(front) + [item]) == EntriesOf(CallItems(front)) + [CallOf(item, 0)];
      }
    }
  }

  lemma FirstCallRead(r: Reading, item: InputItem)
    requires item.CallIn? && CallIdOf(item.callId, item.itemId, 0) == item.callId
    requires (r.messages == [] || !(r.pending || Foldable(r.messages)))
    ensures ReadItem(r, item)
            == Reading(r.messages + [Plain(AssistantRole, Text("")).(toolCalls := [CallOf(item, 0)])],
                       true, r.minted + 1)
  {
    assert CallOf(item, r.minted) == CallOf(item, 0);
  }

  lemma SplitCalls(items: seq<InputItem>)
    requires AllCalls(items) && items != []
    ensures items == [items[0]] + items[1..] && AllCalls(items[1..])
    ensures [CallOf(items[0], 0)] + EntriesOf(items[1..]) == EntriesOf(items)
  {
  }

  /** Calls with no assistant message to join open one. */
  lemma ReadCallsAlone(r: Reading, items: seq<InputItem>)
    requires AllCalls(items) && items != [] && (r.messages == [] || !(r.pending || Foldable(r.messages)))
    ensures var out := ReadItems(r, items);
            out.messages == r.messages + [Plain(AssistantRole, Text("")).(toolCalls := EntriesOf(items))] && out.pending
  {
    SplitCalls(items);
    ReadAppend(r, [items[0]], items[1..]);
    ReadOne(r, items[0]);
    FirstCallRead(r, items[0]);
    var r1 := Reading(r.messages + [Plain(AssistantRole, Text("")).(toolCalls := [CallOf(items[0], 0)])],
                      true, r.minted + 1);
    ReadCalls(r1, items[1..]);
  }

  // ---- One answer --------------------------------------------------------------------------------------

  /** The answer as it is read from its items. */
  function ReadBack(m: ChatMessage, minted: nat): Message {
    Plain(AssistantRole, Text(StringOf(m.content) + StringOf(m.refusal)))
      .(toolCalls := Rewrite(WithIds(m.toolCalls, minted)))
  }

  /** The client gets something to send back. */
  predicate HasOutput(m: ChatMessage) {
    TextParts(m) != [] || exists k :: 0 <= k < |m.toolCalls| && m.toolCalls[k].CallEntry?
  }

  lemma PartsTextOf(m: ChatMessage)
    ensures PartsText(TextParts(m)) == StringOf(m.content) + StringOf(m.refusal) && !HasImage(TextParts(m))
  {
    var a := if StringOf(m.content) != "" then [TextIn(StringOf(m.content))] else [];
    var parts := TextParts(m);
    assert parts == a || (parts[..|parts| - 1] == a && parts[|parts| - 1] == RefusalIn(StringOf(m.refusal)));
    assert PartsText(a) == StringOf(m.content) by {
      if a != [] { assert a[..0] == []; }
    }
  }

  lemma ReadMessageItem(r: Reading, m: ChatMessage)
    requires TextParts(m) != []
    ensures ReadItems(r, MessageItems(m))
            == Reading(r.messages + [Plain(AssistantRole, Text(StringOf(m.content) + StringOf(m.refusal)))],
                       false, r.minted)
  {
    PartsTextOf(m);
    ReadOne(r, MessageItems(m)[0]);
  }

  lemma ReadReasoning(r: Reading, m: ChatMessage, emitReasoning: bool)
    ensures ReadItems(r, ReasoningItems(m, emitReasoning)) == r
  {
    if ReasoningItems(m, emitReasoning) != [] { ReadOne(r, IgnoredIn); }
  }

  lemma {:induction false} NoItems(calls: seq<CallEntry>)
    ensures CallItems(calls) == [] <==> forall k :: 0 <= k < |calls| ==> calls[k].JunkEntry?
  {
    if calls == [] {
    } else {
      NoItems(calls[..|calls| - 1]);
      assert calls == calls[..|calls| - 1] + [calls[|calls| - 1]];
    }
  }

  lemma CallsOfAnswer(m: ChatMessage, minted: nat)
    ensures var items := CallItems(WithIds(m.toolCalls, minted));
            && AllCalls(items) && EntriesOf(items) == Rewrite(WithIds(m.toolCalls, minted))
            && (HasOutput(m) <==> TextParts(m) != [] || items != [])
  {
    var calls := WithIds(m.toolCalls, minted);
    CallItemsRead(calls);
    NoItems(calls);
    assert forall k :: 0 <= k < |calls| ==> (calls[k].JunkEntry? <==> m.toolCalls[k].JunkEntry?);
  }

  /** No call items can join a message of before. */
  predicate Closed(r: Reading) {
    !r.pending && !Foldable(r.messages)
  }

  /** Behind whatever was read before, the items of an answer are read as one message. */
  lemma AnswerRead(r: Reading, m: ChatMessage, emitReasoning: bool, minted: nat)
    requires HasOutput(m) && (TextParts(m) != [] || Closed(r))
    ensures ReadItems(r, OutputItems(m, emitReasoning, minted)).messages == r.messages + [ReadBack(m, minted)]
  {
    var a, b, c := ReasoningItems(m, emitReasoning), MessageItems(m), CallItems(WithIds(m.toolCalls, minted));
    ReadAppend(r, a + b, c);
    ReadAppend(r, a, b);
    ReadReasoning(r, m, emitReasoning);
    CallsOfAnswer(m, minted);
    if TextParts(m) != [] {
      ReadMessageItem(r, m);
      ReadCalls(ReadItems(r, b), c);
      assert [] + EntriesOf(c) == EntriesOf(c);
    } else {
      assert StringOf(m.content) + StringOf(m.refusal) == "";
      ReadCallsAlone(r, c);
    }
  }

  lemma NothingRead(r: Reading, m: ChatMessage, emitReasoning: bool, minted: nat)
    requires !HasOutput(m)
    ensures ReadItems(r, OutputItems(m, emitReasoning, minted)) == r
  {
    var a, b, c := ReasoningItems(m, emitReasoning), MessageItems(m), CallItems(WithIds(m.toolCalls, minted));
    CallsOfAnswer(m, minted);
    assert a + b + c == a;
    ReadReasoning(r, m, emitReasoning);
  }

  /** Text or refusal but not both, each a string where it is used, and every call canonical. */
  predicate Replayable(m: ChatMessage) {
    && (Truthy(m.content) || Truthy(m.refusal) || m.toolCalls != [])
    && (Truthy(m.content) ==> m.content.Text? && StringOf(m.refusal) == "")
    && (!Truthy(m.content) && Truthy(m.refusal) ==> m.refusal.Text?)
    && AllCanonical(m.toolCalls)
  }

  lemma StoredContent(m: ChatMessage, minted: nat)
    ensures StoredMessage(m, minted).content == Text(StringOf(m.content) + StringOf(m.refusal))
            <==> (Truthy(m.content) ==> m.content.Text? && StringOf(m.refusal) == "")
                 && (!Truthy(m.content) && Truthy(m.refusal) ==> m.refusal.Text?)
  {
    var c, r := StringOf(m.content), StringOf(m.refusal);
    assert !Truthy(m.content) ==> c == "" && c + r == r;
    assert !Truthy(m.refusal) ==> r == "";
    assert |c + r| == |c| + |r| && (r == "" ==> c + r == c);
  }

  lemma ReplayableHasOutput(m: ChatMessage, minted: nat)
    requires Replayable(m)
    ensures HasOutput(m) && ReadBack(m, minted) == StoredMessage(m, minted)
  {
    StoredContent(m, minted);
    CanonicalIds(m.toolCalls, minted);
    RewriteKeepsCanonical(WithIds(m.toolCalls, minted));
    if m.toolCalls != [] { assert m.toolCalls[0].CallEntry?; }
  }

  /** Replay against chaining, for one answer: the items sent back are read as exactly the message
      the chain stores if and only if the answer is replayable. */
  lemma ReplayAgreesIff(m: ChatMessage, emitReasoning: bool, minted: nat)
    ensures InputToMessages(OutputItems(m, emitReasoning, minted), minted) == [StoredMessage(m, minted)]
            <==> Replayable(m)
  {
    var r := Reading([], false, minted);
    StoredContent(m, minted);
    CanonicalIds(m.toolCalls, minted);
    RewriteKeepsCanonical(WithIds(m.toolCalls, minted));
    if HasOutput(m) {
      AnswerRead(r, m, emitReasoning, minted);
      assert [] + [ReadBack(m, minted)] == [ReadBack(m, minted)];
      assert StoredMessage(m, minted) == ReadBack(m, minted) <==> Replayable(m) by { OutputIsSomething(m); }
    } else {
      NothingRead(r, m, emitReasoning, minted);
      if Replayable(m) { ReplayableHasOutput(m, minted); }
    }
  }

  lemma OutputIsSomething(m: ChatMessage)
    requires HasOutput(m)
    ensures Truthy(m.content) || Truthy(m.refusal) || m.toolCalls != []
  {
  }

  /** A message with text and refusal is stored with its text only, but read back with both. */
  lemma TextAndRefusalDiffer()
    ensures var m := ChatMessage(Junk("null"), Text("yes"), Text("no"), []);
            InputToMessages(OutputItems(m, true, 0), 0) != [StoredMessage(m, 0)]
  {
    ReplayAgreesIff(ChatMessage(Junk("null"), Text("yes"), Text("no"), []), true, 0);
  }

  // ---- Conversations ---------------------------------------------------------------------------------------

  /** Something other than a dropped item is in the list. */
  predicate Speaks(items: seq<InputItem>) {
    items != [] && (!items[|items| - 1].IgnoredIn? || Speaks(items[..|items| - 1]))
  }

  /** No call comes before the first message or tool output. */
  predicate StartsClosed(items: seq<InputItem>) {
    items == []
    || (StartsClosed(items[..|items| - 1]) && (items[|items| - 1].CallIn? ==> Speaks(items[..|items| - 1])))
  }

  /** Every call brings an id. */
  predicate NamesCalls(items: seq<InputItem>) {
    forall k :: 0 <= k < |items| && items[k].CallIn? ==> items[k].callId != Given("") || items[k].itemId != ""
  }

  lemma ReadItemBehind(r: Reading, q: Reading, before: seq<Message>, item: InputItem)
    requires r.messages == before + q.messages && (q.messages != [] ==> r.pending == q.pending)
    requires item.CallIn? ==> q.messages != [] && (item.callId != Given("") || item.itemId != "")
    ensures var r', q' := ReadItem(r, item), ReadItem(q, item);
            r'.messages == before + q'.messages && (q'.messages != [] ==> r'.pending == q'.pending)
    ensures q.messages != [] ==> ReadItem(q, item).messages != []
    ensures !item.IgnoredIn? ==> ReadItem(q, item).messages != []
  {
    match item
    case IgnoredIn =>
    case MessageIn(role, content) =>
    case OutputIn(answers, output) =>
    case CallIn(_, _, _, _) =>
      assert r.messages[|r.messages| - 1] == q.messages[|q.messages| - 1];
      assert CallOf(item, r.minted) == CallOf(item, q.minted);
  }

  /** Items that start closed are read the same behind any transcript. */
  lemma {:induction false} ReadBehind(r: Reading, minted: nat, items: seq<InputItem>)
    requires StartsClosed(items) && NamesCalls(items)
    ensures var r', q' := ReadItems(r, items), ReadItems(Reading([], false, minted), items);
            r'.messages == r.messages + q'.messages && (q'.messages != [] ==> r'.pending == q'.pending)
    ensures Speaks(items) ==> ReadItems(Reading([], false, minted), items).messages != []
  {
    if items == [] {
    } else {
      var front, last := items[..|items| - 1], items[|items| - 1];
      assert items == front + [last];
      ReadBehind(r, minted, front);
      ReadItemBehind(ReadItems(r, front), ReadItems(Reading([], false, minted), front), r.messages, last);
    }
  }

  /** One exchange of a conversation without instructions: what the client sends, and the answer. */
  datatype Exchange = Exchange(input: seq<InputItem>, answer: ChatMessage, minted: nat)

  predicate Ordinary(x: Exchange) {
    && StartsClosed(x.input) && NamesCalls(x.input) && Replayable(x.answer)
    && (TextParts(x.answer) != [] || (Speaks(x.input) && Closed(ReadItems(Reading([], false, 0), x.input))))
  }

  /** What a client that chains sends and has stored. */
  function TurnOf(x: Exchange): C.Turn {
    C.Turn(None, InputToMessages(x.input, 0), StoredMessage(x.answer, x.minted))
  }

  function Turns(xs: seq<Exchange>): seq<C.Turn> {
    seq(|xs|, k requires 0 <= k < |xs| => TurnOf(xs[k]))
  }

  /** What a client that does not chain sends on the last turn: everything so far. */
  function ReplayedItems(xs: seq<Exchange>, emitReasoning: bool): seq<InputItem>
    requires xs != []
  {
    var x := xs[|xs| - 1];
    if |xs| == 1 then x.input
    else
      var before := xs[..|xs| - 1];
      var last := before[|before| - 1];
      ReplayedItems(before, emitReasoning) + OutputItems(last.answer, emitReasoning, last.minted) + x.input
  }

  /** After the input of an ordinary exchange its answer can follow. */
  lemma AnswerCanFollow(r: Reading, x: Exchange)
    requires Ordinary(x)
    ensures var r' := ReadItems(r, x.input);
            TextParts(x.answer) != [] || Closed(r')
  {
    ReadBehind(r, 0, x.input);
    var q', r' := ReadItems(Reading([], false, 0), x.input), ReadItems(r, x.input);
    if TextParts(x.answer) == [] {
      assert r'.messages[|r'.messages| - 1] == q'.messages[|q'.messages| - 1];
    }
  }

  /** One more exchange: the answer to the last one, then the next input. */
  lemma ReplayedStep(start: Reading, items: seq<InputItem>, last: Exchange, x: Exchange, emitReasoning: bool)
    requires Ordinary(last) && Ordinary(x)
    requires TextParts(last.answer) != [] || Closed(ReadItems(start, items))
    ensures var r := ReadItems(start, items + OutputItems(last.answer, emitReasoning, last.minted) + x.input);
            && r.messages == ReadItems(start, items).messages + [TurnOf(last).reply] + TurnOf(x).input
            && (TextParts(x.answer) != [] || Closed(r))
  {
    var answer := OutputItems(last.answer, emitReasoning, last.minted);
    ReadAppend(start, items + answer, x.input);
    ReadAppend(start, items, answer);
    ReplayableHasOutput(last.answer, last.minted);
    AnswerRead(ReadItems(start, items), last.answer, emitReasoning, last.minted);
    var r := ReadItems(start, items + answer);
    ReadBehind(r, 0, x.input);
    AnswerCanFollow(r, x);
  }

  lemma RawOf(x: Exchange)
    ensures C.RawMessages(TurnOf(x)) == TurnOf(x).input
  {
    assert [] + TurnOf(x).input == TurnOf(x).input;
  }

  lemma RawHistorySnoc(xs: seq<Exchange>)
    requires |xs| > 1
    ensures C.RawHistory(Turns(xs))
            == C.RawHistory(Turns(xs[..|xs| - 1])) + [TurnOf(xs[|xs| - 2]).reply] + TurnOf(xs[|xs| - 1]).input
  {
    assert Turns(xs)[..|xs| - 1] == Turns(xs[..|xs| - 1]);
    RawOf(xs[|xs| - 1]);
  }

  /** `items` are read as the raw turns, and the next answer can follow them. */
  predicate ReadAsTurns(items: seq<InputItem>, xs: seq<Exchange>)
    requires xs != []
  {
    && InputToMessages(items, 0) == C.RawHistory(Turns(xs))
    && (TextParts(xs[|xs| - 1].answer) != [] || Closed(ReadItems(Reading([], false, 0), items)))
  }

  lemma ReadAsFirstTurn(x: Exchange)
    requires Ordinary(x)
    ensures ReadAsTurns(x.input, [x])
  {
    assert Turns([x]) == [TurnOf(x)];
    RawOf(x);
    AnswerCanFollow(Reading([], false, 0), x);
  }

  lemma ReadAsMoreTurns(items: seq<InputItem>, xs: seq<Exchange>, emitReasoning: bool)
    requires |xs| > 1 && Ordinary(xs[|xs| - 2]) && Ordinary(xs[|xs| - 1]) && ReadAsTurns(items, xs[..|xs| - 1])
    ensures var last, x := xs[|xs| - 2], xs[|xs| - 1];
            ReadAsTurns(items + OutputItems(last.answer, emitReasoning, last.minted) + x.input, xs)
  {
    ReplayedStep(Reading([], false, 0), items, xs[|xs| - 2], xs[|xs| - 1], emitReasoning);
    RawHistorySnoc(xs);
  }

  lemma {:induction false} ReplayedHistory(xs: seq<Exchange>, emitReasoning: bool)
    requires xs != [] && forall k :: 0 <= k < |xs| ==> Ordinary(xs[k])
    ensures ReadAsTurns(ReplayedItems(xs, emitReasoning), xs)
  {
    if |xs| == 1 {
      ReadAsFirstTurn(xs[0]);
      assert xs == [xs[0]];
    } else {
      ReplayedHistory(xs[..|xs| - 1], emitReasoning);
      ReadAsMoreTurns(ReplayedItems(xs[..|xs| - 1], emitReasoning), xs, emitReasoning);
    }
  }

  /** A client that chains by id and a client that sends everything back have the same transcript sent
      upstream on every turn. */
  lemma ChainingIsReplaying(xs: seq<Exchange>, emitReasoning: bool, s: C.Settings)
    requires xs != [] && forall k :: 0 <= k < |xs| ==> Ordinary(xs[k])
    ensures C.Sent(Turns(xs), s) == C.Normalize(InputToMessages(ReplayedItems(xs, emitReasoning), 0), s)
  {
    ReplayedHistory(xs, emitReasoning);
    C.ChainSendsNormalizedHistory(Turns(xs), s);
  }
}
