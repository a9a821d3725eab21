/** The main results about `Convert`, for every sequence of chunks. */
module ResponsesTheorems {
  import opened Wrappers
  import opened Sequences
  import opened ChatChunks
  import opened ResponsesEvents
  import opened ResponsesMonitor
  import opened ResponsesBridge
  import opened ResponsesRecovery
  import opened ResponsesProtocol

  // ---- What acceptance by the monitor means ------------------------------------------

  lemma {:induction false} AcceptedNumbers(events: seq<Event>)
    requires WatchFrom(NOTHING, events).Some?
    ensures WatchFrom(NOTHING, events).value.count == |events|
    ensures forall k :: 0 <= k < |events| ==> events[k].seqNo == k
  {
    if events == [] {
    } else {
      var front := events[..|events| - 1];
      AcceptedNumbers(front);
      forall k | 0 <= k < |events| ensures events[k].seqNo == k {
        assert k < |front| ==> front[k] == events[k];
      }
    }
  }

  predicate IsTerminal(p: Payload) {
    p.Failed? || p.Terminal?
  }

  lemma {:induction false} TerminalIsLast(events: seq<Event>)
    requires WatchFrom(NOTHING, events).Some?
    ensures forall k :: 0 <= k < |events| && IsTerminal(events[k].payload) ==> k == |events| - 1
    ensures WatchFrom(NOTHING, events).value.stage in {Finished, Broken} ==>
              events != [] && IsTerminal(events[|events| - 1].payload)
    ensures events != [] && IsTerminal(events[|events| - 1].payload) ==>
              WatchFrom(NOTHING, events).value.stage in {Finished, Broken}
  {
    if events == [] {
    } else {
      var front := events[..|events| - 1];
      TerminalIsLast(front);
      assert WatchFrom(NOTHING, front).value.stage !in {Finished, Broken};
      assert forall k :: 0 <= k < |front| ==> front[k] == events[k] && !IsTerminal(front[k].payload);
    }
  }

  /** The text deltas addressed to one output index, concatenated. */
  function DeltaText(events: seq<Event>, oi: nat): string {
    if events == [] then ""
    else
      var p := events[|events| - 1].payload;
      DeltaText(events[..|events| - 1], oi) + (if p.Delta? && p.oi == oi then p.text else "")
  }

  function CountDone(events: seq<Event>, oi: nat): nat {
    if events == [] then 0
    else
      var p := events[|events| - 1].payload;
      CountDone(events[..|events| - 1], oi) + (if p.ItemDone? && p.oi == oi then 1 else 0)
  }

  function CountAdded(events: seq<Event>, oi: nat): nat {
    if events == [] then 0
    else
      var p := events[|events| - 1].payload;
      CountAdded(events[..|events| - 1], oi) + (if p.ItemAdded? && p.oi == oi then 1 else 0)
  }

  predicate Lifecycle(events: seq<Event>, oi: nat, seen: Seen) {
    && seen.text == DeltaText(events, oi)
    && CountAdded(events, oi) == 1
    && CountDone(events, oi) == (if seen.phase.Done? then 1 else 0)
    && (seen.phase.Done? ==> SaysText(seen, seen.phase.item))
  }

  /** The closed item repeats the call id it was announced with and the text it streamed. */
  predicate SaysText(seen: Seen, item: Item) {
    match item
    case ReasoningItem(_, _, text) => text == seen.text
    case MessageItem(_, _, _, text) => text == seen.text
    case CallItem(_, _, callId, _, args) => args == seen.text && seen.shell.CallShell? && seen.shell.callId == callId
  }

  /** What one accepted event does to the item at one index. */
  lemma ItemStep(v: View, e: Event, oi: nat)
    requires Watch(v, e).Some?
    requires oi < |v.items| && v.items[oi].phase.Done? ==> SaysText(v.items[oi], v.items[oi].phase.item)
    ensures var u, p := Watch(v, e).value, e.payload;
            if oi < |v.items| then
              && oi < |u.items|
              && u.items[oi].text == v.items[oi].text + (if p.Delta? && p.oi == oi then p.text else "")
              && (u.items[oi].phase.Done? <==> v.items[oi].phase.Done? || (p.ItemDone? && p.oi == oi))
              && (v.items[oi].phase.Done? ==> !(p.ItemDone? && p.oi == oi))
              && (u.items[oi].phase.Done? ==> SaysText(u.items[oi], u.items[oi].phase.item))
              && !(p.ItemAdded? && p.oi == oi)
            else
              && !(p.Delta? && p.oi == oi) && !(p.ItemDone? && p.oi == oi)
              && (oi < |u.items| <==> p.ItemAdded? && p.oi == oi)
              && (oi < |u.items| ==> u.items[oi].text == "" && !u.items[oi].phase.Done?)
  {
  }

  /** Every index below the count was added once, done at most once, with exactly its deltas. */
  lemma {:induction false} AcceptedLifecycles(events: seq<Event>, oi: nat)
    requires WatchFrom(NOTHING, events).Some?
    ensures var items := WatchFrom(NOTHING, events).value.items;
            if oi < |items| then Lifecycle(events, oi, items[oi])
            else DeltaText(events, oi) == "" && CountAdded(events, oi) == 0 && CountDone(events, oi) == 0
  {
    if events == [] {
    } else {
      var front, last := events[..|events| - 1], events[|events| - 1];
      AcceptedLifecycles(front, oi);
      ItemStep(WatchFrom(NOTHING, front).value, last, oi);
    }
  }

  lemma {:induction false} DoneItemsAt(items: seq<Seen>)
    requires AllDone(items)
    ensures |DoneItems(items)| == |items|
    ensures forall k :: 0 <= k < |items| ==> DoneItems(items)[k] == items[k].phase.item
  {
    if items == [] {
    } else {
      var front := items[..|items| - 1];
      DoneItemsAt(front);
    }
  }

  // ---- Start and end of a run ----------------------------------------------------------

  lemma PreambleShape()
    ensures Preamble() == Machine(INITIAL.(seqNo := 2),
                                  [] + Suspended([Event(0, Created)], INITIAL.(seqNo := 1))
                                  + Suspended([Event(1, Started)], INITIAL.(seqNo := 2)))
  {
    Bump1(INITIAL, Created);
    Bump1(INITIAL.(seqNo := 1), Started);
  }

  lemma PreambleGood()
    ensures Good(Preamble()) && Resting(Preamble().st)
  {
    var st1, st2 := INITIAL.(seqNo := 1), INITIAL.(seqNo := 2);
    PreambleShape();
    LinkedFaithful(Event(0, Created), st1, []);
    LinkedFaithful(Event(1, Started), st2, []);
    var t: seq<Yield> := [];
    assert EventsOf(t) == [];
    DeliverOne(t, NOTHING, st1, Event(0, Created), View(Greeting, 1, []));
    DeliverOne(t + Suspended([Event(0, Created)], st1), View(Greeting, 1, []), st2, Event(1, Started),
               View(Live, 2, []));
  }

  lemma CloseEverythingKeeps(m: Machine, o: Options)
    requires Good(m)
    ensures Good(CloseEverything(m, o)) && NothingOpen(CloseEverything(m, o).st)
  {
    var m1 := Deliver(m, CloseReasoning(m.st, o));
    CloseReasoningKeeps(m, o);
    var m2 := Deliver(m1, CloseText(m1.st, o));
    CloseTextKeeps(m1, o);
    CloseCallsInTurnKeeps(m2, o, m2.st.toolOrder);
    CloseCallsInTurnFrame(m2, o, m2.st.toolOrder);
    var m3 := CloseEverything(m, o);
    assert CallsLinked(m2.st, ViewOf(m2.trace).value.items);
    assert m3.st.tools == map[] by {
      forall i ensures i !in m3.st.tools {
        assert i in m2.st.tools ==> i in m2.st.toolOrder;
      }
    }
  }

  lemma {:induction false} NoCallPairs(order: seq<int>)
    ensures CallPairs(map[], order) == []
  {
    if order == [] {
    } else {
      NoCallPairs(order[..|order| - 1]);
    }
  }

  lemma PiecesOfAppend(a: seq<Item>, b: seq<Item>)
    ensures PiecesOf(a + b) == PiecesOf(a) + PiecesOf(b)
  {
  }

  lemma {:induction false} AtPieces(output: seq<(nat, Item)>, k: nat)
    ensures At(ClosedPairs(output), k) == PiecesOf(At(output, k))
  {
    if output == [] {
    } else {
      AtPieces(output[..|output| - 1], k);
      assert ClosedPairs(output)[..|output| - 1] == ClosedPairs(output[..|output| - 1]);
    }
  }

  lemma {:induction false} SortPieces(pairs: seq<(nat, Piece)>, output: seq<(nat, Item)>, n: nat)
    requires forall k: nat :: k < n ==> At(pairs, k) == PiecesOf(At(output, k))
    ensures SortByIndex(pairs, n) == PiecesOf(SortByIndex(output, n))
  {
    if n == 0 {
    } else {
      SortPieces(pairs, output, n - 1);
      PiecesOfAppend(SortByIndex(output, n - 1), At(output, n - 1));
    }
  }

  /** With nothing open, the holder built from the final output is the one closing would build. */
  lemma FinalHolder(st: State)
    requires NothingOpen(st) && st.holder.Unset?
    ensures FinalizeHolder(Unset, PiecesOf(SortByIndex(st.output, st.nextOi))) == HolderIfClosed(st)
  {
    forall k: nat | k < st.nextOi ensures At(ClosedPairs(st.output), k) == PiecesOf(At(st.output, k)) {
      AtPieces(st.output, k);
    }
    SortPieces(ClosedPairs(st.output), st.output, st.nextOi);
    NoCallPairs(FirstOccurrences(st.toolOrder));
    assert Pairs(st) == ClosedPairs(st.output);
  }

  lemma NothingOpenAllDone(st: State, items: seq<Seen>)
    requires Linked(st, items) && NothingOpen(st)
    ensures AllDone(items)
  {
    forall k | 0 <= k < |items| ensures items[k].phase.Done? {
      assert !OpenAt(st, k);
    }
  }

  // ---- The closing event --------------------------------------------------------------------

  /** The yield of the terminal event, the holder filled and the number taken. */
  function TerminalYield(st: State, o: Options): Yield {
    Yield(Event(st.seqNo, Terminal(ItemStatus(st, o), FiledItems(st))), Filled(st).(seqNo := st.seqNo + 1))
  }

  function FailedYield(st: State): Yield {
    Yield(Event(st.seqNo, Failed(FiledItems(st))), st.(holder := Blocked, seqNo := st.seqNo + 1))
  }

  lemma OneSuspended(e: Event, st: State)
    ensures Suspended([e], st) == [Yield(e, st)]
  {
  }

  lemma EndNormallyShape(m: Machine, o: Options)
    ensures var m1 := CloseEverything(m, o);
            var y := TerminalYield(m1.st, o);
            EndNormally(m, o) == Machine(y.at, m1.trace + [y])
  {
    var m1 := CloseEverything(m, o);
    var p := Terminal(ItemStatus(m1.st, o), FiledItems(m1.st));
    Bump1(Filled(m1.st), p);
    OneSuspended(Event(m1.st.seqNo, p), TerminalYield(m1.st, o).at);
  }

  lemma EndInErrorShape(m: Machine)
    ensures var y := FailedYield(m.st); EndInError(m) == Machine(y.at, m.trace + [y])
  {
    Bump1(m.st.(holder := Blocked), Failed(FiledItems(m.st)));
    OneSuspended(Event(m.st.seqNo, Failed(FiledItems(m.st))), FailedYield(m.st).at);
  }

  lemma LastEvent(trace: seq<Yield>, y: Yield)
    ensures EventsOf(trace + [y]) == EventsOf(trace) + [y.event]
  {
  }

  /** Everything filed is everything done. */
  lemma FiledIsDone(st: State, items: seq<Seen>)
    requires Linked(st, items)
    ensures FiledItems(st) == DoneItems(items)
  {
    SortedOutput(st.output, items, |items|);
    assert items[..|items|] == items;
  }

  lemma TerminalFaithful(st: State, o: Options, items: seq<Seen>)
    requires Linked(st, items) && NothingOpen(st) && st.holder.Unset?
    ensures Faithful(TerminalYield(st, o), items)
  {
    FinalHolder(st);
    ClosingRecords(st, items);
  }

  lemma TerminalWatched(v: View, e: Event)
    requires v.stage == Live && e.seqNo == v.count && AllDone(v.items)
    requires e.payload.Terminal? && e.payload.output == DoneItems(v.items) && e.payload.status != InProgress
    ensures Watch(v, e) == Some(View(Finished, v.count + 1, v.items))
  {
  }

  lemma ClosedWatched(st: State, o: Options, v: View)
    requires Linked(st, v.items) && NothingOpen(st) && v.stage == Live && v.count == st.seqNo
    ensures Watch(v, TerminalYield(st, o).event) == Some(View(Finished, v.count + 1, v.items))
  {
    NothingOpenAllDone(st, v.items);
    FiledIsDone(st, v.items);
    TerminalWatched(v, TerminalYield(st, o).event);
  }

  /** The terminal event is accepted behind everything closed. */
  lemma TerminalAccepted(trace: seq<Yield>, v: View, st: State, o: Options)
    requires Sound(trace) && ViewOf(trace) == Some(v) && v.stage == Live && v.count == st.seqNo
    requires Linked(st, v.items) && NothingOpen(st) && st.holder.Unset?
    ensures var t := trace + [TerminalYield(st, o)];
            Sound(t) && ViewOf(t) == Some(View(Finished, v.count + 1, v.items))
  {
    ClosedWatched(st, o, v);
    TerminalFaithful(st, o, v.items);
    DeliverYield(trace, v, TerminalYield(st, o), View(Finished, v.count + 1, v.items));
  }

  lemma EndNormallyAccepted(m: Machine, o: Options)
    requires Good(m)
    ensures Good(CloseEverything(m, o))
    ensures var t := EndNormally(m, o).trace;
            && Sound(t) && ViewOf(t).Some? && ViewOf(t).value.stage == Finished
            && AllDone(ViewOf(t).value.items)
            && ViewOf(t).value.items == ViewOf(CloseEverything(m, o).trace).value.items
            && |t| > 0
            && t[|t| - 1].event.payload
               == Terminal(ItemStatus(CloseEverything(m, o).st, o), DoneItems(ViewOf(t).value.items))
  {
    var m1 := CloseEverything(m, o);
    CloseEverythingKeeps(m, o);
    NothingOpenAllDone(m1.st, ViewOf(m1.trace).value.items);
    TerminalAccepted(m1.trace, ViewOf(m1.trace).value, m1.st, o);
    EndNormallyShape(m, o);
    FiledIsDone(m1.st, ViewOf(m1.trace).value.items);
  }

  lemma FailedAccepted(m: Machine)
    requires Good(m)
    ensures var v, t := ViewOf(m.trace).value, m.trace + [FailedYield(m.st)];
            Sound(t) && ViewOf(t) == Some(View(Broken, v.count + 1, v.items))
  {
    var v := ViewOf(m.trace).value;
    FiledIsDone(m.st, v.items);
    DeliverYield(m.trace, v, FailedYield(m.st), View(Broken, v.count + 1, v.items));
  }

  lemma EndInErrorAccepted(m: Machine)
    requires Good(m)
    ensures var t := EndInError(m).trace;
            && Sound(t) && ViewOf(t).Some? && ViewOf(t).value.stage == Broken
            && ViewOf(t).value.items == ViewOf(m.trace).value.items
            && |t| > 0 && t[|t| - 1].event.payload == Failed(DoneItems(ViewOf(t).value.items))
  {
    FailedAccepted(m);
    EndInErrorShape(m);
    FiledIsDone(m.st, ViewOf(m.trace).value.items);
  }

  // ---- Main results ----------------------------------------------------------------------

  /** The run up to its last chunk is good, and so is the whole of it. */
  lemma ConvertGood(chunks: seq<Chunk>, o: Options) returns (m: Machine)
    ensures m == OnChunks(Preamble(), o, BeforeError(chunks)) && Good(m) && Resting(m.st)
    ensures Convert(chunks, o) == if HasError(chunks) then EndInError(m) else EndNormally(m, o)
    ensures Sound(Convert(chunks, o).trace)
  {
    BeforeErrorIsPrefix(chunks);
    PreambleGood();
    m := OnChunks(Preamble(), o, BeforeError(chunks));
    OnChunksKeeps(Preamble(), o, BeforeError(chunks));
    if HasError(chunks) { EndInErrorAccepted(m); } else { EndNormallyAccepted(m, o); }
  }

  /** The items a client has seen when the stream is over. */
  function FinalItems(chunks: seq<Chunk>, o: Options): seq<Seen> {
    var v := ViewOf(Convert(chunks, o).trace);
    if v.Some? then v.value.items else []
  }

  /** Every run is accepted by the monitor, to its single terminal event. */
  lemma StreamAccepted(chunks: seq<Chunk>, o: Options)
    ensures var v := ViewOf(Convert(chunks, o).trace);
            && v.Some?
            && v.value.stage == (if HasError(chunks) then Broken else Finished)
            && (!HasError(chunks) ==> AllDone(v.value.items))
  {
    var m := ConvertGood(chunks, o);
    if HasError(chunks) { EndInErrorAccepted(m); } else { EndNormallyAccepted(m, o); }
  }

  /** Sequence numbers have no gap, and the one terminal event comes last. */
  lemma Numbering(chunks: seq<Chunk>, o: Options)
    ensures var events := EventsOf(Convert(chunks, o).trace);
            && (forall k :: 0 <= k < |events| ==> events[k].seqNo == k)
            && (forall k :: 0 <= k < |events| ==> (IsTerminal(events[k].payload) <==> k == |events| - 1))
  {
    StreamAccepted(chunks, o);
    AcceptedNumbers(EventsOf(Convert(chunks, o).trace));
    TerminalIsLast(EventsOf(Convert(chunks, o).trace));
  }

  lemma LastListsDone(chunks: seq<Chunk>, o: Options)
    requires !HasError(chunks)
    ensures var events, items := EventsOf(Convert(chunks, o).trace), FinalItems(chunks, o);
            && WatchFrom(NOTHING, events).Some? && WatchFrom(NOTHING, events).value.items == items && AllDone(items)
            && events != [] && events[|events| - 1].payload.Terminal?
            && events[|events| - 1].payload.output == DoneItems(items)
  {
    var m := ConvertGood(chunks, o);
    EndNormallyAccepted(m, o);
  }

  lemma AllLifecycles(events: seq<Event>, items: seq<Seen>)
    requires WatchFrom(NOTHING, events).Some? && WatchFrom(NOTHING, events).value.items == items
    ensures forall oi :: 0 <= oi < |items| ==> Lifecycle(events, oi, items[oi])
    ensures forall oi :: oi >= |items| ==> CountAdded(events, oi) == 0 && CountDone(events, oi) == 0
  {
    forall oi | 0 <= oi < |items| ensures Lifecycle(events, oi, items[oi]) {
      AcceptedLifecycles(events, oi);
    }
    forall oi | oi >= |items| ensures CountAdded(events, oi) == 0 && CountDone(events, oi) == 0 {
      AcceptedLifecycles(events, oi);
    }
  }

  /** In a stream that ends normally every item is added once and done once, with the text its
      deltas concatenate to, and the terminal event lists item k at position k. */
  lemma NormalLifecycle(chunks: seq<Chunk>, o: Options)
    requires !HasError(chunks)
    ensures var events, items := EventsOf(Convert(chunks, o).trace), FinalItems(chunks, o);
            && events != [] && events[|events| - 1].payload.Terminal?
            && |events[|events| - 1].payload.output| == |items|
            && (forall oi :: 0 <= oi < |items| ==>
                  Lifecycle(events, oi, items[oi]) && items[oi].phase == Done(events[|events| - 1].payload.output[oi]))
            && (forall oi :: oi >= |items| ==> CountAdded(events, oi) == 0 && CountDone(events, oi) == 0)
  {
    LastListsDone(chunks, o);
    var events, items := EventsOf(Convert(chunks, o).trace), FinalItems(chunks, o);
    DoneItemsAt(items);
    AllLifecycles(events, items);
  }

  /** Cancellation: at every yield of every run, closing the generator there leaves the holder
      saying what the events delivered so far said, and at most one kind of item is open. After an
      upstream error it is None. */
  lemma CancellationAtAnyYield(chunks: seq<Chunk>, o: Options, k: nat)
    requires k < |Convert(chunks, o).trace|
    ensures var t := Convert(chunks, o).trace;
            && ViewOf(t[..k + 1]).Some?
            && Exclusive(t[k].at)
            && (if t[k].event.payload.Failed? then HolderIfClosed(t[k].at) == Blocked
                else Records(HolderIfClosed(t[k].at), ViewOf(t[..k + 1]).value.items))
  {
    var m := ConvertGood(chunks, o);
    assert SoundAt(Convert(chunks, o).trace, k);
  }

  /** The same while the generator awaits its next chunk, which may be after names or a finish reason
      that no event has told yet. */
  lemma CancellationAtAnyAwait(chunks: seq<Chunk>, o: Options)
    ensures var m := OnChunks(Preamble(), o, chunks);
            && Good(m) && Exclusive(m.st)
            && Records(HolderIfClosed(m.st), ViewOf(m.trace).value.items)
  {
    PreambleGood();
    OnChunksKeeps(Preamble(), o, chunks);
    ClosingRecords(OnChunks(Preamble(), o, chunks).st, ViewOf(OnChunks(Preamble(), o, chunks).trace).value.items);
  }

  /** Once an item exists one stays open between chunks, so reasoning can only be item 0. */
  lemma OneReasoningItem(chunks: seq<Chunk>, o: Options)
    ensures Resting(OnChunks(Preamble(), o, BeforeError(chunks)).st)
    ensures forall oi :: 0 < oi < |FinalItems(chunks, o)| ==> FinalItems(chunks, o)[oi].shell != ReasoningShell
  {
    var m := ConvertGood(chunks, o);
    if HasError(chunks) {
      EndInErrorAccepted(m);
    } else {
      EndNormallyAccepted(m, o);
      CloseEverythingKeeps(m, o);
    }
  }
}
