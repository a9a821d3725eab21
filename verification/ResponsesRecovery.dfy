/** What the bridge's state knows about every output item, and why the transcript rebuilt from
    a suspended state says exactly what the delivered events said. */
module ResponsesRecovery {
  import opened Wrappers
  import opened Sequences
  import opened ChatChunks
  import opened ResponsesEvents
  import opened ResponsesMonitor
  import opened ResponsesBridge

  // ---- The relation between state and view -----------------------------------

  predicate MatchesText(seen: Seen, t: OpenText) {
    seen.id == t.id && seen.phase == Open && seen.channel == Some(t.channel) && seen.text == Join(t.buf)
  }

  predicate MatchesCall(seen: Seen, t: OpenCall) {
    && seen.id == t.id && seen.phase == Open && seen.channel == Some(Arguments) && seen.text == Join(t.buf)
    && seen.shell.CallShell? && seen.shell.callId == t.callId
    && (seen.shell.name == "" || seen.shell.name == t.name)
  }

  /** A closed item says what was seen of it. */
  predicate Agrees(seen: Seen, item: Item) {
    match seen.shell
    case ReasoningShell => item.ReasoningItem? && seen.channel == Some(ReasoningText) && item.text == seen.text
    case MessageShell =>
      item.MessageItem? && seen.channel == Some(item.channel) && item.text == seen.text
      && (item.channel == OutputText || item.channel == RefusalText)
    case CallShell(callId, name) =>
      item.CallItem? && seen.channel == Some(Arguments) && item.callId == callId && item.args == seen.text
      && (name == "" || item.name == name)
  }

  predicate OpenAt(st: State, k: nat) {
    || (st.reasoning.Some? && st.reasoning.value.oi == k)
    || (st.text.Some? && st.text.value.oi == k)
    || exists idx :: idx in st.tools && st.tools[idx].oi == k
  }

  predicate Filed(output: seq<(nat, Item)>, k: nat) {
    exists i :: 0 <= i < |output| && output[i].0 == k
  }

  predicate ReasoningLinked(st: State, items: seq<Seen>) {
    st.reasoning.Some? ==>
      var r := st.reasoning.value;
      r.oi == 0 < |items| && r.channel == ReasoningText && items[0].shell == ReasoningShell && MatchesText(items[0], r)
  }

  predicate TextLinked(st: State, items: seq<Seen>) {
    st.text.Some? ==>
      var t := st.text.value;
      && t.oi < |items| && (t.channel == OutputText || t.channel == RefusalText)
      && items[t.oi].shell == MessageShell && MatchesText(items[t.oi], t)
  }

  predicate CallsLinked(st: State, items: seq<Seen>) {
    && (forall idx :: idx in st.tools ==>
          st.tools[idx].oi < |items| && MatchesCall(items[st.tools[idx].oi], st.tools[idx]) && idx in st.toolOrder)
    && (forall a, b :: a in st.tools && b in st.tools && a != b ==> st.tools[a].oi != st.tools[b].oi)
  }

  predicate OutputLinked(output: seq<(nat, Item)>, items: seq<Seen>) {
    && (forall i :: 0 <= i < |output| ==>
          output[i].0 < |items| && items[output[i].0].phase == Done(output[i].1)
          && Agrees(items[output[i].0], output[i].1))
    && (forall i, j :: 0 <= i < j < |output| ==> output[i].0 != output[j].0)
  }

  predicate Covered(st: State, items: seq<Seen>) {
    forall k :: 0 <= k < |items| ==>
      && (items[k].phase.Done? ==> Filed(st.output, k))
      && (!items[k].phase.Done? ==> OpenAt(st, k))
      && (items[k].shell == ReasoningShell ==> k == 0)
  }

  /** Every item the client has seen is in exactly one place of the state, and agrees with it. */
  predicate Linked(st: State, items: seq<Seen>) {
    && |items| == st.nextOi
    && OutputLinked(st.output, items)
    && ReasoningLinked(st, items)
    && TextLinked(st, items)
    && CallsLinked(st, items)
    && Covered(st, items)
  }

  // ---- Sorting by output index -------------------------------------------------

  lemma {:induction false} AtAppend<T>(a: seq<(nat, T)>, b: seq<(nat, T)>, k: nat)
    ensures At(a + b, k) == At(a, k) + At(b, k)
  {
    if b == [] {
      assert a + b == a;
    } else {
      AtAppend(a, b[..|b| - 1], k);
      assert (a + b)[..|a + b| - 1] == a + b[..|b| - 1];
    }
  }

  lemma {:induction false} AtNone<T>(pairs: seq<(nat, T)>, k: nat)
    requires forall i :: 0 <= i < |pairs| ==> pairs[i].0 != k
    ensures At(pairs, k) == []
  {
    if pairs == [] {
    } else {
      AtNone(pairs[..|pairs| - 1], k);
    }
  }

  lemma {:induction false} AtOne<T>(pairs: seq<(nat, T)>, i: nat)
    requires i < |pairs|
    requires forall j :: 0 <= j < |pairs| && j != i ==> pairs[j].0 != pairs[i].0
    ensures At(pairs, pairs[i].0) == [pairs[i].1]
  {
    if i == |pairs| - 1 {
      AtNone(pairs[..i], pairs[i].0);
    } else {
      AtOne(pairs[..|pairs| - 1], i);
    }
  }

  /** No pair of a call that is not among the open ones of `order`. */
  lemma {:induction false} CallPairsNone(tools: map<int, OpenCall>, order: seq<int>, k: nat)
    requires forall idx :: idx in order && idx in tools ==> tools[idx].oi != k
    ensures At(CallPairs(tools, order), k) == []
  {
    if order == [] {
    } else {
      var front, idx := order[..|order| - 1], order[|order| - 1];
      CallPairsNone(tools, front, k);
      AtAppend(CallPairs(tools, front), if idx in tools then [CallPair(tools[idx])] else [], k);
    }
  }

  lemma {:induction false} CallPairsOne(tools: map<int, OpenCall>, order: seq<int>, idx: int)
    requires Distinct(order) && idx in order && idx in tools
    requires forall a :: a in tools && a != idx ==> tools[a].oi != tools[idx].oi
    ensures At(CallPairs(tools, order), tools[idx].oi) == [CallPair(tools[idx]).1]
  {
    var front, last := order[..|order| - 1], order[|order| - 1];
    var k := tools[idx].oi;
    AtAppend(CallPairs(tools, front), if last in tools then [CallPair(tools[last])] else [], k);
    if last == idx {
      forall a | a in front && a in tools ensures tools[a].oi != k {
        assert a != idx;
      }
      CallPairsNone(tools, front, k);
    } else {
      assert idx in front;
      CallPairsOne(tools, front, idx);
    }
  }

  // ---- The rebuilt pieces agree with the view ------------------------------------

  predicate PieceMatches(pieces: seq<Piece>, seen: Seen) {
    match seen.shell
    case ReasoningShell => pieces == [] || pieces == [ReasoningPiece]
    case MessageShell =>
      |pieces| == 1 && pieces[0].MessagePiece? && seen.channel == Some(pieces[0].channel) && pieces[0].text == seen.text
    case CallShell(callId, name) =>
      && |pieces| == 1 && pieces[0].CallPiece? && seen.channel == Some(Arguments)
      && pieces[0].call.id == callId && pieces[0].call.args == seen.text
      && (name == "" || pieces[0].call.name == name)
  }

  /** The slot of one index is made of what the output, the open message and the open calls
      file under it. */
  lemma SlotParts(st: State, k: nat)
    ensures At(Pairs(st), k) == At(ClosedPairs(st.output), k) + At(TextPairs(st.text), k)
                                + At(CallPairs(st.tools, FirstOccurrences(st.toolOrder)), k)
  {
    var closed, order := ClosedPairs(st.output), FirstOccurrences(st.toolOrder);
    AtAppend(closed, TextPairs(st.text), k);
    AtAppend(closed + TextPairs(st.text), CallPairs(st.tools, order), k);
  }

  lemma DoneSlot(st: State, items: seq<Seen>, k: nat)
    requires Linked(st, items) && k < |items| && items[k].phase.Done?
    ensures At(Pairs(st), k) == [PieceOf(items[k].phase.item)] && Agrees(items[k], items[k].phase.item)
  {
    SlotParts(st, k);
    ClosedSlot(st.output, items, k);
    CallPairsNone(st.tools, FirstOccurrences(st.toolOrder), k);
    AtTextNone(st.text, k);
  }

  lemma ClosedSlot(output: seq<(nat, Item)>, items: seq<Seen>, k: nat)
    requires OutputLinked(output, items) && k < |items| && items[k].phase.Done? && Filed(output, k)
    ensures At(ClosedPairs(output), k) == [PieceOf(items[k].phase.item)] && Agrees(items[k], items[k].phase.item)
  {
    var i :| 0 <= i < |output| && output[i].0 == k;
    AtOne(ClosedPairs(output), i);
  }

  lemma NotClosed(st: State, items: seq<Seen>, k: nat)
    requires Linked(st, items) && k < |items| && !items[k].phase.Done?
    ensures At(ClosedPairs(st.output), k) == []
  {
    AtNone(ClosedPairs(st.output), k);
  }

  lemma OpenSlot(st: State, items: seq<Seen>, k: nat)
    requires Linked(st, items) && k < |items| && !items[k].phase.Done?
    ensures PieceMatches(At(Pairs(st), k), items[k])
  {
    var order := FirstOccurrences(st.toolOrder);
    FirstOccurrencesDistinct(st.toolOrder);
    SlotParts(st, k);
    NotClosed(st, items, k);
    assert OpenAt(st, k);
    if st.text.Some? && st.text.value.oi == k {
      CallPairsNone(st.tools, order, k);
      AtText(st.text.value);
    } else {
      AtTextNone(st.text, k);
      if exists idx :: idx in st.tools && st.tools[idx].oi == k {
        var idx :| idx in st.tools && st.tools[idx].oi == k;
        CallPairsOne(st.tools, order, idx);
      } else {
        CallPairsNone(st.tools, order, k);
      }
    }
  }

  lemma PiecesAt(st: State, items: seq<Seen>, k: nat)
    requires Linked(st, items) && k < |items|
    ensures PieceMatches(At(Pairs(st), k), items[k])
  {
    if items[k].phase.Done? { DoneSlot(st, items, k); } else { OpenSlot(st, items, k); }
  }

  lemma AtTextNone(text: Option<OpenText>, k: nat)
    requires text.Some? ==> text.value.oi != k
    ensures At(TextPairs(text), k) == []
  {
    AtNone(TextPairs(text), k);
  }

  lemma AtText(t: OpenText)
    ensures At(TextPairs(Some(t)), t.oi) == [MessagePiece(t.channel, Join(t.buf))]
  {
    AtOne(TextPairs(Some(t)), 0);
  }

  lemma PieceTextSnoc(pieces: seq<Piece>, p: Piece, channel: Channel)
    ensures PieceText(pieces + [p], channel) == PieceText(pieces, channel) + SaidBy(p, channel)
  {
    assert (pieces + [p])[..|pieces|] == pieces;
  }

  lemma PieceCallsSnoc(pieces: seq<Piece>, p: Piece)
    ensures PieceCalls(pieces + [p]) == PieceCalls(pieces) + CalledBy(p)
  {
    assert (pieces + [p])[..|pieces|] == pieces;
  }

  lemma {:induction false} PieceTextAppend(a: seq<Piece>, b: seq<Piece>, channel: Channel)
    ensures PieceText(a + b, channel) == PieceText(a, channel) + PieceText(b, channel)
  {
    if b == [] {
      assert a + b == a;
    } else {
      var front, last := b[..|b| - 1], b[|b| - 1];
      PieceTextAppend(a, front, channel);
      PieceTextSnoc(a + front, last, channel);
      SnocRegroup(a, b);
      Regroup(PieceText(a, channel), PieceText(front, channel), SaidBy(last, channel));
    }
  }

  lemma {:induction false} PieceCallsAppend(a: seq<Piece>, b: seq<Piece>)
    ensures PieceCalls(a + b) == PieceCalls(a) + PieceCalls(b)
  {
    if b == [] {
      assert a + b == a;
    } else {
      var front, last := b[..|b| - 1], b[|b| - 1];
      PieceCallsAppend(a, front);
      PieceCallsSnoc(a + front, last);
      SnocRegroup(a, b);
      Regroup(PieceCalls(a), PieceCalls(front), CalledBy(last));
    }
  }

  /** One slot has the pieces of the item the client saw at that index. */
  predicate SlotMatches(slot: seq<Piece>, seen: Seen) {
    PieceMatches(slot, seen) && (seen.shell == ReasoningShell ==> seen.channel == Some(ReasoningText))
  }

  predicate SlotsMatch(pairs: seq<(nat, Piece)>, items: seq<Seen>) {
    forall k :: 0 <= k < |items| ==> SlotMatches(At(pairs, k), items[k])
  }

  lemma OnePiece(p: Piece, channel: Channel)
    ensures PieceText([p], channel) == SaidBy(p, channel)
    ensures PieceCalls([p]) == CalledBy(p)
  {
    assert [p][..0] == [];
    assert PieceText([p][..0], channel) == "" && PieceCalls([p][..0]) == [];
  }

  /** One slot contributes to text and calls what the client saw of that item. */
  lemma SlotText(slot: seq<Piece>, seen: Seen, channel: Channel)
    requires SlotMatches(slot, seen) && (channel == OutputText || channel == RefusalText)
    ensures PieceText(slot, channel) == TextOf(seen, channel)
  {
    if slot == [] {
    } else {
      assert slot == [slot[0]];
      OnePiece(slot[0], channel);
    }
  }

  lemma SlotCalls(slot: seq<Piece>, seen: Seen)
    requires SlotMatches(slot, seen)
    ensures SameCalls(PieceCalls(slot), CallOf(seen))
  {
    if slot == [] {
    } else {
      assert slot == [slot[0]];
      OnePiece(slot[0], OutputText);
    }
  }

  lemma SameCallsAppend(a: seq<ToolCall>, b: seq<ToolCall>, x: seq<ToolCall>, y: seq<ToolCall>)
    requires SameCalls(a, x) && SameCalls(b, y)
    ensures SameCalls(a + b, x + y)
  {
  }

  lemma {:induction false} SortedText(pairs: seq<(nat, Piece)>, items: seq<Seen>, channel: Channel)
    requires SlotsMatch(pairs, items) && (channel == OutputText || channel == RefusalText)
    ensures PieceText(SortByIndex(pairs, |items|), channel) == Texts(items, channel)
  {
    if items == [] {
    } else {
      var n := |items| - 1;
      SortedText(pairs, items[..n], channel);
      PieceTextAppend(SortByIndex(pairs, n), At(pairs, n), channel);
      SlotText(At(pairs, n), items[n], channel);
    }
  }

  lemma {:induction false} SortedCalls(pairs: seq<(nat, Piece)>, items: seq<Seen>)
    requires SlotsMatch(pairs, items)
    ensures SameCalls(PieceCalls(SortByIndex(pairs, |items|)), Calls(items))
  {
    if items == [] {
    } else {
      var n := |items| - 1;
      SortedCalls(pairs, items[..n]);
      PieceCallsAppend(SortByIndex(pairs, n), At(pairs, n));
      SlotCalls(At(pairs, n), items[n]);
      SameCallsAppend(PieceCalls(SortByIndex(pairs, n)), PieceCalls(At(pairs, n)), Calls(items[..n]), CallOf(items[n]));
    }
  }

  lemma LinkedSlots(st: State, items: seq<Seen>)
    requires Linked(st, items)
    ensures SlotsMatch(Pairs(st), items)
  {
    forall k | 0 <= k < |items| ensures SlotMatches(At(Pairs(st), k), items[k]) {
      PiecesAt(st, items, k);
      ReasoningChannel(st, items, k);
    }
  }

  lemma ReasoningChannel(st: State, items: seq<Seen>, k: nat)
    requires Linked(st, items) && k < |items|
    ensures items[k].shell == ReasoningShell ==> items[k].channel == Some(ReasoningText)
  {
    if items[k].phase.Done? {
      var i :| 0 <= i < |st.output| && st.output[i].0 == k;
    } else {
      assert OpenAt(st, k);
    }
  }

  /** Closing the generator in a linked state records exactly what the client has seen. */
  lemma ClosingRecords(st: State, items: seq<Seen>)
    requires Linked(st, items) && st.holder.Unset?
    ensures Records(HolderIfClosed(st), items)
  {
    LinkedSlots(st, items);
    SortedText(Pairs(st), items, OutputText);
    SortedText(Pairs(st), items, RefusalText);
    SortedCalls(Pairs(st), items);
  }

  // ---- The finished output ---------------------------------------------------------

  lemma {:induction false} SortedOutput(output: seq<(nat, Item)>, items: seq<Seen>, n: nat)
    requires n <= |items| && OutputLinked(output, items)
    requires forall k :: 0 <= k < n && items[k].phase.Done? ==> Filed(output, k)
    ensures SortByIndex(output, n) == DoneItems(items[..n])
  {
    if n == 0 {
    } else {
      SortedOutput(output, items, n - 1);
      assert items[..n][..n - 1] == items[..n - 1];
      if items[n - 1].phase.Done? {
        var i :| 0 <= i < |output| && output[i].0 == n - 1;
        AtOne(output, i);
      } else {
        AtNone(output, n - 1);
      }
    }
  }
}
