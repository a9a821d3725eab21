/** The protocol proofs: every step of the bridge keeps `Good`, so every run does. */
module ResponsesProtocol {
  import opened Wrappers
  import opened Sequences
  import opened ChatChunks
  import opened ResponsesEvents
  import opened ResponsesMonitor
  import opened ResponsesBridge
  import opened ResponsesRecovery

  /** At most one of: reasoning, a message, some function call. */
  predicate Exclusive(st: State) {
    && !(st.reasoning.Some? && st.text.Some?)
    && !(st.reasoning.Some? && st.tools != map[])
    && !(st.text.Some? && st.tools != map[])
  }

  /** Once an item exists, one is open. Holds between chunks, not at every yield. */
  predicate Resting(st: State) {
    st.nextOi > 0 ==> !NothingOpen(st)
  }

  function ViewOf(trace: seq<Yield>): Option<View> {
    WatchFrom(NOTHING, EventsOf(trace))
  }

  /** At this yield the state is exclusive, and closing here records what the client has seen;
      after an upstream error it records nothing. */
  predicate Faithful(y: Yield, items: seq<Seen>) {
    && Exclusive(y.at)
    && (if y.event.payload.Failed? then HolderIfClosed(y.at) == Blocked else Records(HolderIfClosed(y.at), items))
  }

  predicate SoundAt(trace: seq<Yield>, k: nat)
    requires k < |trace|
  {
    var v := ViewOf(trace[..k + 1]);
    v.Some? && Faithful(trace[k], v.value.items)
  }

  predicate Sound(trace: seq<Yield>) {
    forall k :: 0 <= k < |trace| ==> SoundAt(trace, k)
  }

  predicate Good(m: Machine) {
    var v := ViewOf(m.trace);
    && v.Some? && v.value.stage == Live && v.value.count == m.st.seqNo
    && Linked(m.st, v.value.items) && Exclusive(m.st) && m.st.holder.Unset?
    && Sound(m.trace)
  }

  lemma SoundSnoc(trace: seq<Yield>, y: Yield)
    requires Sound(trace)
    requires ViewOf(trace + [y]).Some? && Faithful(y, ViewOf(trace + [y]).value.items)
    ensures Sound(trace + [y])
  {
    forall k | 0 <= k < |trace + [y]| ensures SoundAt(trace + [y], k) {
      if k < |trace| {
        assert (trace + [y])[..k + 1] == trace[..k + 1];
        assert SoundAt(trace, k);
      } else {
        assert (trace + [y])[..k + 1] == trace + [y];
      }
    }
  }

  /** A chain of quiet events at the end of a batch shows nothing new. */
  lemma {:induction false} QuietTail(v: View, events: seq<Event>, k: nat)
    requires 1 <= k <= |events| && WatchFrom(v, events).Some?
    requires forall i :: k <= i < |events| ==> Quiet(events[i].payload)
    ensures WatchFrom(v, events[..k]).Some?
    ensures Calls(WatchFrom(v, events[..k]).value.items) == Calls(WatchFrom(v, events).value.items)
    ensures AssistantText(WatchFrom(v, events[..k]).value.items) == AssistantText(WatchFrom(v, events).value.items)
  {
    if k == |events| {
      assert events[..k] == events;
    } else {
      var front, last := events[..|events| - 1], events[|events| - 1];
      QuietTail(v, front, k);
      assert front[..k] == events[..k];
      QuietKeepsContent(WatchFrom(v, front).value, last);
    }
  }

  lemma SameContentFaithful(y: Yield, a: seq<Seen>, b: seq<Seen>)
    requires Faithful(y, a)
    requires AssistantText(a) == AssistantText(b) && Calls(a) == Calls(b)
    ensures Faithful(y, b)
  {
  }

  lemma SuspendedSnoc(trace: seq<Yield>, st: State, events: seq<Event>, k: nat)
    requires 0 < k <= |events|
    ensures trace + Suspended(events[..k], st) == (trace + Suspended(events[..k - 1], st)) + [Yield(events[k - 1], st)]
    ensures EventsOf(trace + Suspended(events[..k], st)) == EventsOf(trace) + events[..k]
  {
  }

  /** Yielding a batch one event at a time is sound at every one of its yields. */
  lemma {:induction false} SuspendedSound(trace: seq<Yield>, v: View, st: State, events: seq<Event>, u: View, k: nat)
    requires Sound(trace) && ViewOf(trace) == Some(v) && WatchFrom(v, events) == Some(u)
    requires k <= |events|
    requires forall i :: 0 <= i < |events| ==> Faithful(Yield(events[i], st), u.items)
    requires forall i :: 1 <= i < |events| ==> Quiet(events[i].payload)
    ensures Sound(trace + Suspended(events[..k], st))
    ensures ViewOf(trace + Suspended(events[..k], st)) == WatchFrom(v, events[..k])
  {
    if k == 0 {
      assert trace + Suspended(events[..k], st) == trace;
    } else {
      SuspendedSound(trace, v, st, events, u, k - 1);
      SuspendedSnoc(trace, st, events, k);
      WatchFromAppend(NOTHING, EventsOf(trace), events[..k]);
      QuietTail(v, events, k);
      var w := WatchFrom(v, events[..k]).value;
      SameContentFaithful(Yield(events[k - 1], st), u.items, w.items);
      SoundSnoc(trace + Suspended(events[..k - 1], st), Yield(events[k - 1], st));
    }
  }

  lemma LinkedFaithful(e: Event, st: State, items: seq<Seen>)
    requires Linked(st, items) && Exclusive(st) && st.holder.Unset? && !e.payload.Failed?
    ensures Faithful(Yield(e, st), items)
  {
    ClosingRecords(st, items);
  }

  /** The one preservation argument: deliver a batch whose first event may say something new and
      whose other events are quiet, ending in a linked state. */
  lemma DeliverKeeps(m: Machine, b: Batch, u: View)
    requires Good(m)
    requires WatchFrom(ViewOf(m.trace).value, b.events) == Some(u) && u.stage == Live && u.count == b.st.seqNo
    requires Linked(b.st, u.items) && Exclusive(b.st) && b.st.holder.Unset?
    requires forall i :: 0 <= i < |b.events| ==> !b.events[i].payload.Failed?
    requires forall i :: 1 <= i < |b.events| ==> Quiet(b.events[i].payload)
    ensures Good(Deliver(m, b)) && ViewOf(Deliver(m, b).trace) == Some(u)
  {
    forall i | 0 <= i < |b.events| ensures Faithful(Yield(b.events[i], b.st), u.items) {
      LinkedFaithful(b.events[i], b.st, u.items);
    }
    SuspendedSound(m.trace, ViewOf(m.trace).value, b.st, b.events, u, |b.events|);
    assert b.events[..|b.events|] == b.events;
  }

  // ---- Computing the monitor on short batches ---------------------------------------

  lemma Watch1(v: View, a: Event)
    ensures WatchFrom(v, [a]) == Watch(v, a)
  {
    assert [a][..0] == [];
  }

  lemma Watch2(v: View, a: Event, b: Event)
    requires Watch(v, a).Some?
    ensures WatchFrom(v, [a, b]) == Watch(Watch(v, a).value, b)
  {
    Watch1(v, a);
    assert [a, b][..1] == [a];
  }

  lemma Watch3(v: View, a: Event, b: Event, c: Event)
    requires Watch(v, a).Some? && Watch(Watch(v, a).value, b).Some?
    ensures WatchFrom(v, [a, b, c]) == Watch(Watch(Watch(v, a).value, b).value, c)
  {
    Watch2(v, a, b);
    assert [a, b, c][..2] == [a, b];
  }

  lemma Bump1(st: State, a: Payload)
    ensures Bump(st, [a]).events == [Event(st.seqNo, a)]
  {
  }

  lemma Bump2(st: State, a: Payload, b: Payload)
    ensures Bump(st, [a, b]).events == [Event(st.seqNo, a), Event(st.seqNo + 1, b)]
  {
  }

  lemma Bump3(st: State, a: Payload, b: Payload, c: Payload)
    ensures Bump(st, [a, b, c]).events == [Event(st.seqNo, a), Event(st.seqNo + 1, b), Event(st.seqNo + 2, c)]
  {
  }

  // ---- Closing items -----------------------------------------------------------------

  /** Moving an open item to the output: the rest of the relation is untouched. */
  lemma OutputGrows(output: seq<(nat, Item)>, items: seq<Seen>, oi: nat, item: Item, x: Seen)
    requires OutputLinked(output, items) && oi < |items| && !items[oi].phase.Done?
    requires x == items[oi].(phase := Done(item)) && Agrees(items[oi], item)
    ensures OutputLinked(output + [(oi, item)], items[oi := x])
    ensures forall k :: Filed(output + [(oi, item)], k) <==> k == oi || Filed(output, k)
  {
    var out := output + [(oi, item)];
    forall k ensures Filed(out, k) <==> k == oi || Filed(output, k) {
      if k == oi { assert out[|output|].0 == k; }
      if Filed(output, k) {
        var i :| 0 <= i < |output| && output[i].0 == k;
        assert out[i].0 == k;
      }
    }
  }

  /** The three closing events of a reasoning or message item. */
  function ClosingEvents(n: nat, oi: nat, channel: Channel, item: Item): seq<Event>
    requires !item.CallItem?
  {
    [Event(n, TextDone(oi, item.id, channel, item.text)), Event(n + 1, PartDone(oi, item.id, channel, item.text)),
     Event(n + 2, ItemDone(oi, item))]
  }

  /** What the client has seen of an open text when it is closed. */
  predicate Closable(seen: Seen, channel: Channel, item: Item) {
    && seen.phase == Open && seen.id == item.id && seen.channel == Some(channel) && channel != Arguments
    && item.status != InProgress && !item.CallItem? && !seen.shell.CallShell? && Agrees(seen, item)
  }

  /** The view once an open item is done. */
  function DoneView(v: View, oi: nat, item: Item, n: nat): View
    requires oi < |v.items|
  {
    View(Live, v.count + n, v.items[oi := v.items[oi].(phase := Done(item))])
  }

  lemma WatchClosing(v: View, oi: nat, channel: Channel, item: Item)
    requires v.stage == Live && oi < |v.items| && Closable(v.items[oi], channel, item)
    ensures WatchFrom(v, ClosingEvents(v.count, oi, channel, item)) == Some(DoneView(v, oi, item, 3))
  {
    var seen, events := v.items[oi], ClosingEvents(v.count, oi, channel, item);
    var i1 := v.items[oi := seen.(phase := TextClosed)];
    var i2 := i1[oi := seen.(phase := PartClosed)];
    assert Watch(v, events[0]) == Some(View(Live, v.count + 1, i1));
    assert Watch(View(Live, v.count + 1, i1), events[1]) == Some(View(Live, v.count + 2, i2));
    assert Watch(View(Live, v.count + 2, i2), events[2])
        == Some(View(Live, v.count + 3, i2[oi := seen.(phase := Done(item))]));
    assert i2[oi := seen.(phase := Done(item))] == v.items[oi := seen.(phase := Done(item))];
    Watch3(v, events[0], events[1], events[2]);
  }

  lemma CloseReasoningLinked(st: State, o: Options, items: seq<Seen>)
    requires Linked(st, items) && st.reasoning.Some?
    ensures var r := st.reasoning.value;
            var item := ReasoningItem(r.id, ItemStatus(st, o), Join(r.buf));
            && Agrees(items[r.oi], item)
            && Linked(CloseReasoning(st, o).st, items[r.oi := items[r.oi].(phase := Done(item))])
  {
    var r := st.reasoning.value;
    var item := ReasoningItem(r.id, ItemStatus(st, o), Join(r.buf));
    var x := items[r.oi].(phase := Done(item));
    OutputGrows(st.output, items, r.oi, item, x);
    var st', items' := CloseReasoning(st, o).st, items[r.oi := x];
    assert CallsLinked(st', items');
    forall k | 0 <= k < |items'| && !items'[k].phase.Done? ensures OpenAt(st', k) {
      assert OpenAt(st, k);
    }
  }

  /** Only quiet events. */
  predicate Tacit(events: seq<Event>) {
    forall i :: 0 <= i < |events| ==> Quiet(events[i].payload)
  }

  lemma DeliverTacitly(m: Machine, b: Batch, u: View)
    requires Good(m) && Tacit(b.events)
    requires WatchFrom(ViewOf(m.trace).value, b.events) == Some(u) && u.stage == Live && u.count == b.st.seqNo
    requires Linked(b.st, u.items) && Exclusive(b.st) && b.st.holder.Unset?
    ensures Good(Deliver(m, b)) && ViewOf(Deliver(m, b).trace) == Some(u)
  {
    DeliverKeeps(m, b, u);
  }

  /** The item an open text is filed as. */
  function ReasoningOf(st: State, o: Options): Item
    requires st.reasoning.Some?
  {
    ReasoningItem(st.reasoning.value.id, ItemStatus(st, o), Join(st.reasoning.value.buf))
  }

  function MessageOf(st: State, o: Options): Item
    requires st.text.Some?
  {
    MessageItem(st.text.value.id, ItemStatus(st, o), st.text.value.channel, Join(st.text.value.buf))
  }

  lemma ReasoningClosable(st: State, o: Options, items: seq<Seen>)
    requires ReasoningLinked(st, items) && st.reasoning.Some?
    ensures st.reasoning.value.oi < |items|
    ensures Closable(items[st.reasoning.value.oi], ReasoningText, ReasoningOf(st, o))
  {
  }

  lemma TextClosable(st: State, o: Options, items: seq<Seen>)
    requires TextLinked(st, items) && st.text.Some?
    ensures st.text.value.oi < |items|
    ensures Closable(items[st.text.value.oi], st.text.value.channel, MessageOf(st, o))
  {
  }

  lemma CloseReasoningShape(st: State, o: Options)
    requires st.reasoning.Some?
    ensures var b := CloseReasoning(st, o);
            && b.events == ClosingEvents(st.seqNo, st.reasoning.value.oi, ReasoningText, ReasoningOf(st, o))
            && b.st.seqNo == st.seqNo + 3
  {
    var r, item := st.reasoning.value, ReasoningOf(st, o);
    Bump3(st.(output := st.output + [(r.oi, item)], reasoning := None),
          TextDone(r.oi, r.id, ReasoningText, item.text), PartDone(r.oi, r.id, ReasoningText, item.text),
          ItemDone(r.oi, item));
  }

  lemma CloseReasoningWatched(st: State, o: Options, v: View)
    requires ReasoningLinked(st, v.items) && st.reasoning.Some? && v.stage == Live && v.count == st.seqNo
    ensures st.reasoning.value.oi < |v.items|
    ensures var b := CloseReasoning(st, o);
            && WatchFrom(v, b.events) == Some(DoneView(v, st.reasoning.value.oi, ReasoningOf(st, o), 3))
            && Tacit(b.events) && b.st.seqNo == st.seqNo + 3
  {
    ReasoningClosable(st, o, v.items);
    CloseReasoningShape(st, o);
    WatchClosing(v, st.reasoning.value.oi, ReasoningText, ReasoningOf(st, o));
  }

  lemma CloseReasoningKeeps(m: Machine, o: Options)
    requires Good(m)
    ensures Good(Deliver(m, CloseReasoning(m.st, o)))
  {
    var b := CloseReasoning(m.st, o);
    if m.st.reasoning.None? {
      assert m.trace + Suspended(b.events, b.st) == m.trace;
    } else {
      var v := ViewOf(m.trace).value;
      CloseReasoningLinked(m.st, o, v.items);
      CloseReasoningWatched(m.st, o, v);
      DeliverTacitly(m, b, DoneView(v, m.st.reasoning.value.oi, ReasoningOf(m.st, o), 3));
    }
  }

  lemma CloseTextLinked(st: State, o: Options, items: seq<Seen>)
    requires Linked(st, items) && st.text.Some?
    ensures var t := st.text.value;
            var item := MessageItem(t.id, ItemStatus(st, o), t.channel, Join(t.buf));
            Agrees(items[t.oi], item) && Linked(CloseText(st, o).st, items[t.oi := items[t.oi].(phase := Done(item))])
  {
    var t := st.text.value;
    var item := MessageItem(t.id, ItemStatus(st, o), t.channel, Join(t.buf));
    var x := items[t.oi].(phase := Done(item));
    OutputGrows(st.output, items, t.oi, item, x);
    var st', items' := CloseText(st, o).st, items[t.oi := x];
    assert CallsLinked(st', items');
    forall k | 0 <= k < |items'| && !items'[k].phase.Done? ensures OpenAt(st', k) {
      assert OpenAt(st, k);
    }
  }

  lemma CloseTextShape(st: State, o: Options)
    requires st.text.Some?
    ensures var b, t := CloseText(st, o), st.text.value;
            b.events == ClosingEvents(st.seqNo, t.oi, t.channel, MessageOf(st, o)) && b.st.seqNo == st.seqNo + 3
  {
    var t, item := st.text.value, MessageOf(st, o);
    Bump3(st.(output := st.output + [(t.oi, item)], text := None),
          TextDone(t.oi, t.id, t.channel, item.text), PartDone(t.oi, t.id, t.channel, item.text),
          ItemDone(t.oi, item));
  }

  lemma CloseTextWatched(st: State, o: Options, v: View)
    requires TextLinked(st, v.items) && st.text.Some? && v.stage == Live && v.count == st.seqNo
    ensures st.text.value.oi < |v.items|
    ensures var b := CloseText(st, o);
            && WatchFrom(v, b.events) == Some(DoneView(v, st.text.value.oi, MessageOf(st, o), 3))
            && Tacit(b.events) && b.st.seqNo == st.seqNo + 3
  {
    TextClosable(st, o, v.items);
    CloseTextShape(st, o);
    WatchClosing(v, st.text.value.oi, st.text.value.channel, MessageOf(st, o));
  }

  lemma CloseTextKeeps(m: Machine, o: Options)
    requires Good(m)
    ensures Good(Deliver(m, CloseText(m.st, o)))
  {
    var b := CloseText(m.st, o);
    if m.st.text.None? {
      assert m.trace + Suspended(b.events, b.st) == m.trace;
    } else {
      var v := ViewOf(m.trace).value;
      CloseTextLinked(m.st, o, v.items);
      CloseTextWatched(m.st, o, v);
      DeliverTacitly(m, b, DoneView(v, m.st.text.value.oi, MessageOf(m.st, o), 3));
    }
  }

  function CallOf(st: State, o: Options, idx: int): Item
    requires idx in st.tools
  {
    var t := st.tools[idx];
    CallItem(t.id, ItemStatus(st, o), t.callId, t.name, Join(t.buf))
  }

  lemma CloseCallLinked(st: State, o: Options, idx: int, items: seq<Seen>)
    requires Linked(st, items) && idx in st.tools
    ensures var oi := st.tools[idx].oi;
            Linked(CloseCall(st, o, idx).st, items[oi := items[oi].(phase := Done(CallOf(st, o, idx)))])
  {
    var oi, item := st.tools[idx].oi, CallOf(st, o, idx);
    var x := items[oi].(phase := Done(item));
    OutputGrows(st.output, items, oi, item, x);
    var st', items' := CloseCall(st, o, idx).st, items[oi := x];
    forall k | 0 <= k < |items'| && !items'[k].phase.Done? ensures OpenAt(st', k) {
      assert OpenAt(st, k);
      if exists a :: a in st.tools && st.tools[a].oi == k {
        var a :| a in st.tools && st.tools[a].oi == k;
        assert a in st'.tools;
      }
    }
  }

  lemma WatchClosingCall(v: View, oi: nat, id: nat, item: Item)
    requires v.stage == Live && oi < |v.items| && v.items[oi].phase == Open && v.items[oi].id == item.id == id
    requires v.items[oi].channel == Some(Arguments) && v.items[oi].shell.CallShell?
    requires item.CallItem? && item.status != InProgress && Agrees(v.items[oi], item)
    ensures WatchFrom(v, [Event(v.count, TextDone(oi, id, Arguments, item.args)),
                          Event(v.count + 1, ItemDone(oi, item))])
            == Some(DoneView(v, oi, item, 2))
  {
    var e0, e1 := Event(v.count, TextDone(oi, id, Arguments, item.args)), Event(v.count + 1, ItemDone(oi, item));
    var i1 := v.items[oi := v.items[oi].(phase := TextClosed)];
    assert Watch(v, e0) == Some(View(Live, v.count + 1, i1));
    assert i1[oi := i1[oi].(phase := Done(item))] == v.items[oi := v.items[oi].(phase := Done(item))];
    Watch2(v, e0, e1);
  }

  lemma CloseCallWatched(st: State, o: Options, idx: int, v: View)
    requires Linked(st, v.items) && idx in st.tools && v.stage == Live && v.count == st.seqNo
    ensures var b := CloseCall(st, o, idx);
            && WatchFrom(v, b.events) == Some(DoneView(v, st.tools[idx].oi, CallOf(st, o, idx), 2))
            && Tacit(b.events) && b.st.seqNo == st.seqNo + 2
  {
    var t, item := st.tools[idx], CallOf(st, o, idx);
    WatchClosingCall(v, t.oi, t.id, item);
    Bump2(st.(output := st.output + [(t.oi, item)], tools := st.tools - {idx}),
          TextDone(t.oi, t.id, Arguments, item.args), ItemDone(t.oi, item));
  }

  /** Closing the call of an index, if there is one. */
  lemma CloseCallStep(st: State, o: Options, idx: int, v: View) returns (u: View)
    requires Linked(st, v.items) && v.stage == Live && v.count == st.seqNo
    ensures WatchFrom(v, CloseCall(st, o, idx).events) == Some(u) && Tacit(CloseCall(st, o, idx).events)
    ensures u.stage == Live && u.count == CloseCall(st, o, idx).st.seqNo
    ensures Linked(CloseCall(st, o, idx).st, u.items)
  {
    if idx !in st.tools {
      u := v;
    } else {
      CloseCallLinked(st, o, idx, v.items);
      CloseCallWatched(st, o, idx, v);
      u := DoneView(v, st.tools[idx].oi, CallOf(st, o, idx), 2);
    }
  }

  lemma CloseCallKeeps(m: Machine, o: Options, idx: int)
    requires Good(m)
    ensures Good(Deliver(m, CloseCall(m.st, o, idx)))
  {
    var b := CloseCall(m.st, o, idx);
    if idx !in m.st.tools {
      assert m.trace + Suspended(b.events, b.st) == m.trace;
    } else {
      var v := ViewOf(m.trace).value;
      var u := CloseCallStep(m.st, o, idx, v);
      DeliverTacitly(m, b, u);
    }
  }

  /** Closing calls touches only the output, the open calls and the counter. */
  lemma {:induction false} CloseCallsFrame(st: State, o: Options, order: seq<int>)
    ensures var b := CloseCalls(st, o, order);
            && b.st == st.(seqNo := b.st.seqNo, output := b.st.output, tools := b.st.tools)
            && b.st.seqNo == st.seqNo + |b.events|
            && (forall i :: i in b.st.tools <==> i in st.tools && i !in order)
            && (forall i :: 0 <= i < |b.events| ==> Quiet(b.events[i].payload))
  {
    if order == [] {
    } else {
      CloseCallsFrame(st, o, order[..|order| - 1]);
      assert order == order[..|order| - 1] + [order[|order| - 1]];
    }
  }

  lemma {:induction false} CloseCallsLinked(st: State, o: Options, order: seq<int>, v: View) returns (u: View)
    requires Linked(st, v.items) && v.stage == Live && v.count == st.seqNo
    ensures WatchFrom(v, CloseCalls(st, o, order).events) == Some(u)
    ensures u.stage == Live && u.count == CloseCalls(st, o, order).st.seqNo
    ensures Linked(CloseCalls(st, o, order).st, u.items)
  {
    if order == [] {
      u := v;
    } else {
      var front, idx := order[..|order| - 1], order[|order| - 1];
      var w := CloseCallsLinked(st, o, front, v);
      var before := CloseCalls(st, o, front);
      var last := CloseCall(before.st, o, idx);
      WatchFromAppend(v, before.events, last.events);
      u := CloseCallStep(before.st, o, idx, w);
    }
  }

  lemma CloseAllCallsKeeps(m: Machine, o: Options)
    requires Good(m)
    ensures Good(Deliver(m, CloseAllCalls(m.st, o)))
    ensures Deliver(m, CloseAllCalls(m.st, o)).st.tools == map[]
  {
    var u := CloseCallsLinked(m.st, o, m.st.toolOrder, ViewOf(m.trace).value);
    var b := CloseAllCalls(m.st, o);
    CloseCallsFrame(m.st, o, m.st.toolOrder);
    assert CallsLinked(m.st, ViewOf(m.trace).value.items);
    assert b.st.tools == map[] by {
      forall i ensures i !in b.st.tools {
        assert i in m.st.tools ==> i in m.st.toolOrder;
      }
    }
    DeliverKeeps(m, b, u);
  }

  lemma {:induction false} CloseCallsInTurnKeeps(m: Machine, o: Options, order: seq<int>)
    requires Good(m)
    ensures Good(CloseCallsInTurn(m, o, order))
  {
    if order == [] {
    } else {
      CloseCallsInTurnKeeps(m, o, order[..|order| - 1]);
      CloseCallKeeps(CloseCallsInTurn(m, o, order[..|order| - 1]), o, order[|order| - 1]);
    }
  }

  lemma {:induction false} CloseCallsInTurnFrame(m: Machine, o: Options, order: seq<int>)
    ensures var st := CloseCallsInTurn(m, o, order).st;
            && st == m.st.(seqNo := st.seqNo, output := st.output, tools := st.tools)
            && forall i :: i in st.tools <==> i in m.st.tools && i !in order
  {
    if order == [] {
    } else {
      CloseCallsInTurnFrame(m, o, order[..|order| - 1]);
      assert order == order[..|order| - 1] + [order[|order| - 1]];
    }
  }

  // ---- Opening items and appending to them ------------------------------------------

  /** A new item takes the next index; whatever was linked stays so. */
  lemma OpenMessageLinked(st: State, channel: Channel, items: seq<Seen>)
    requires Linked(st, items) && st.text.None? && (channel == OutputText || channel == RefusalText)
    ensures Linked(OpenMessage(st, channel).st, items + [Seen(st.minted, MessageShell, Some(channel), "", Open)])
  {
    var st', items' := OpenMessage(st, channel).st, items + [Seen(st.minted, MessageShell, Some(channel), "", Open)];
    forall k | 0 <= k < |items'| && !items'[k].phase.Done? ensures OpenAt(st', k) {
      assert k < |items| ==> OpenAt(st, k);
    }
  }

  lemma OpenMessageKeeps(m: Machine, channel: Channel)
    requires Good(m) && m.st.text.None? && m.st.reasoning.None? && m.st.tools == map[]
    requires channel == OutputText || channel == RefusalText
    ensures Good(Deliver(m, OpenMessage(m.st, channel)))
  {
    var st, v := m.st, ViewOf(m.trace).value;
    var b := OpenMessage(st, channel);
    OpenMessageLinked(st, channel, v.items);
    var e0, e1 := Event(v.count, ItemAdded(st.nextOi, st.minted, MessageShell)),
                  Event(v.count + 1, PartAdded(st.nextOi, st.minted, channel));
    var i1 := v.items + [Seen(st.minted, MessageShell, None, "", Bare)];
    var i2 := v.items + [Seen(st.minted, MessageShell, Some(channel), "", Open)];
    assert Watch(v, e0) == Some(View(Live, v.count + 1, i1));
    assert i1[st.nextOi := i1[st.nextOi].(channel := Some(channel), phase := Open)] == i2;
    assert Watch(View(Live, v.count + 1, i1), e1) == Some(View(Live, v.count + 2, i2));
    Watch2(v, e0, e1);
    Bump2(b.st.(seqNo := st.seqNo), e0.payload, e1.payload);
    DeliverKeeps(m, b, View(Live, v.count + 2, i2));
  }

  lemma AppendTextKeeps(m: Machine, piece: string)
    requires Good(m) && piece != ""
    ensures Good(AppendText(m, piece))
  {
    if m.st.text.Some? {
      var v, t := ViewOf(m.trace).value, m.st.text.value;
      var st := m.st.(text := Some(t.(buf := t.buf + [piece])));
      var items := v.items[t.oi := v.items[t.oi].(text := v.items[t.oi].text + piece)];
      JoinSnoc(t.buf, piece);
      forall k | 0 <= k < |items| && !items[k].phase.Done? ensures OpenAt(st, k) {
        assert OpenAt(m.st, k);
      }
      assert Linked(st, items);
      Watch1(v, Event(v.count, Delta(t.oi, t.id, t.channel, piece)));
      Bump1(st, Delta(t.oi, t.id, t.channel, piece));
      DeliverKeeps(m, Bump(st, [Delta(t.oi, t.id, t.channel, piece)]), View(Live, v.count + 1, items));
    }
  }

  lemma OnMessageKeeps(m: Machine, o: Options, channel: Channel, piece: string)
    requires Good(m) && piece != "" && (channel == OutputText || channel == RefusalText)
    ensures Good(OnMessage(m, o, channel, piece)) && OnMessage(m, o, channel, piece).st.text.Some?
  {
    var m1 := Deliver(m, CloseReasoning(m.st, o));
    CloseReasoningKeeps(m, o);
    var m2 := Deliver(m1, CloseAllCalls(m1.st, o));
    CloseAllCallsKeeps(m1, o);
    CloseCallsFrame(m1.st, o, m1.st.toolOrder);
    if m2.st.text.None? {
      OpenMessageKeeps(m2, channel);
      AppendTextKeeps(Deliver(m2, OpenMessage(m2.st, channel)), piece);
    } else if m2.st.text.value.channel != channel {
      var m4 := Deliver(m2, CloseText(m2.st, o));
      CloseTextKeeps(m2, o);
      OpenMessageKeeps(m4, channel);
      AppendTextKeeps(Deliver(m4, OpenMessage(m4.st, channel)), piece);
    } else {
      AppendTextKeeps(m2, piece);
    }
  }

  lemma OutputNeedsItems(output: seq<(nat, Item)>, items: seq<Seen>)
    requires OutputLinked(output, items) && output != []
    ensures items != []
  {
    assert output[0].0 < |items|;
  }

  lemma OpenReasoningLinked(st: State, r: OpenText)
    requires Linked(st, []) && NothingOpen(st) && r.oi == 0 && r.channel == ReasoningText && r.buf == []
    ensures Linked(st.(reasoning := Some(r), nextOi := 1), [Seen(r.id, ReasoningShell, Some(ReasoningText), "", Open)])
  {
    if st.output != [] { OutputNeedsItems(st.output, []); }
  }

  lemma WatchReasoningOpen(v: View, id: nat)
    requires v.stage == Live && v.items == []
    ensures Watch(v, Event(v.count, ItemAdded(0, id, ReasoningShell)))
            == Some(View(Live, v.count + 1, [Seen(id, ReasoningShell, None, "", Bare)]))
    ensures Watch(View(Live, v.count + 1, [Seen(id, ReasoningShell, None, "", Bare)]),
                  Event(v.count + 1, PartAdded(0, id, ReasoningText)))
            == Some(View(Live, v.count + 2, [Seen(id, ReasoningShell, Some(ReasoningText), "", Open)]))
  {
    var x := Seen(id, ReasoningShell, None, "", Bare);
    assert v.items + [x] == [x];
    assert [x][0 := x.(channel := Some(ReasoningText), phase := Open)]
        == [x.(channel := Some(ReasoningText), phase := Open)];
  }

  lemma DeliverOne(trace: seq<Yield>, v: View, st: State, e: Event, u: View)
    requires Sound(trace) && ViewOf(trace) == Some(v) && Watch(v, e) == Some(u) && Faithful(Yield(e, st), u.items)
    ensures Sound(trace + Suspended([e], st)) && ViewOf(trace + Suspended([e], st)) == Some(u)
  {
    Watch1(v, e);
    SuspendedSound(trace, v, st, [e], u, 1);
    assert [e][..1] == [e];
  }

  lemma DeliverYield(trace: seq<Yield>, v: View, y: Yield, u: View)
    requires Sound(trace) && ViewOf(trace) == Some(v) && Watch(v, y.event) == Some(u) && Faithful(y, u.items)
    ensures Sound(trace + [y]) && ViewOf(trace + [y]) == Some(u)
  {
    assert Suspended([y.event], y.at) == [y];
    DeliverOne(trace, v, y.at, y.event, u);
  }

  lemma OpenReasoningShape(m: Machine)
    requires NothingOpen(m.st) && m.st.nextOi == 0
    ensures var r := OpenText(m.st.minted, 0, ReasoningText, []);
            var st := m.st.(reasoning := Some(r), nextOi := 1, minted := m.st.minted + 1);
            var e0, e1 := Event(m.st.seqNo, ItemAdded(0, r.id, ReasoningShell)),
                          Event(m.st.seqNo + 1, PartAdded(0, r.id, ReasoningText));
            OpenReasoning(m) == Machine(st.(seqNo := m.st.seqNo + 2),
                                        m.trace + Suspended([e0], st.(seqNo := m.st.seqNo + 1))
                                        + Suspended([e1], st.(seqNo := m.st.seqNo + 2)))
  {
    var r := OpenText(m.st.minted, 0, ReasoningText, []);
    var st := m.st.(reasoning := Some(r), nextOi := 1, minted := m.st.minted + 1);
    Bump1(st, ItemAdded(0, r.id, ReasoningShell));
    Bump1(st.(seqNo := m.st.seqNo + 1), PartAdded(0, r.id, ReasoningText));
  }

  lemma ReasoningYields(trace: seq<Yield>, v: View, st1: State, st2: State, r: OpenText)
    requires Sound(trace) && ViewOf(trace) == Some(v) && v.stage == Live && v.items == []
    requires st1.(seqNo := st2.seqNo) == st2 && Exclusive(st2) && st2.holder.Unset?
    requires Linked(st2, [Seen(r.id, ReasoningShell, Some(ReasoningText), "", Open)])
    ensures var t := trace + Suspended([Event(v.count, ItemAdded(0, r.id, ReasoningShell))], st1)
                     + Suspended([Event(v.count + 1, PartAdded(0, r.id, ReasoningText))], st2);
            && Sound(t)
            && ViewOf(t) == Some(View(Live, v.count + 2, [Seen(r.id, ReasoningShell, Some(ReasoningText), "", Open)]))
  {
    var v1 := View(Live, v.count + 1, [Seen(r.id, ReasoningShell, None, "", Bare)]);
    var v2 := View(Live, v.count + 2, [Seen(r.id, ReasoningShell, Some(ReasoningText), "", Open)]);
    var e0, e1 := Event(v.count, ItemAdded(0, r.id, ReasoningShell)),
        Event(v.count + 1, PartAdded(0, r.id, ReasoningText));
    WatchReasoningOpen(v, r.id);
    LinkedFaithful(e0, st2, v2.items);
    LinkedFaithful(e1, st2, v2.items);
    ReasoningFaithful(e0, st1, st2, v1.items, v2.items);
    DeliverOne(trace, v, st1, e0, v1);
    DeliverOne(trace + Suspended([e0], st1), v1, st2, e1, v2);
  }

  /** Reasoning opens in two separate yields, with the item already in the state at the first. */
  lemma OpenReasoningKeeps(m: Machine)
    requires Good(m) && m.st.nextOi == 0 && NothingOpen(m.st)
    ensures Good(OpenReasoning(m)) && OpenReasoning(m).st.reasoning.Some?
  {
    var v := ViewOf(m.trace).value;
    assert v.items == [];
    var r := OpenText(m.st.minted, 0, ReasoningText, []);
    var st := m.st.(reasoning := Some(r), nextOi := 1, minted := m.st.minted + 1);
    OpenReasoningLinked(m.st.(minted := m.st.minted + 1), r);
    OpenReasoningShape(m);
    ReasoningYields(m.trace, v, st.(seqNo := v.count + 1), st.(seqNo := v.count + 2), r);
  }

  lemma ReasoningFaithful(e: Event, st1: State, st2: State, a: seq<Seen>, b: seq<Seen>)
    requires st1.(seqNo := st2.seqNo) == st2 && Faithful(Yield(e, st2), b) && !e.payload.Failed?
    requires |a| == |b| == 1 && SameContent(b[0], a[0]) && b[0].text == ""
    ensures Faithful(Yield(e, st1), a)
  {
    UpdateKeepsContent(b, 0, a[0]);
    assert b[0 := a[0]] == a;
    assert Pairs(st1) == Pairs(st2);
    SameContentFaithful(Yield(e, st2), b, a);
  }

  /** One more piece in the open reasoning item. */
  lemma AppendReasoningLinked(st: State, items: seq<Seen>, piece: string)
    requires Linked(st, items) && st.reasoning.Some?
    ensures var r := st.reasoning.value;
            r.oi < |items| && Linked(st.(reasoning := Some(r.(buf := r.buf + [piece])), seqNo := st.seqNo + 1),
                                     items[r.oi := items[r.oi].(text := items[r.oi].text + piece)])
  {
    var r := st.reasoning.value;
    var st' := st.(reasoning := Some(r.(buf := r.buf + [piece])), seqNo := st.seqNo + 1);
    var items' := items[r.oi := items[r.oi].(text := items[r.oi].text + piece)];
    JoinSnoc(r.buf, piece);
    forall k | 0 <= k < |items'| && !items'[k].phase.Done? ensures OpenAt(st', k) {
      assert OpenAt(st, k);
    }
  }

  /** The delta of one more piece, delivered. */
  function AppendReasoning(m: Machine, piece: string): Machine
    requires m.st.reasoning.Some?
  {
    var r := m.st.reasoning.value;
    Deliver(m, Bump(m.st.(reasoning := Some(r.(buf := r.buf + [piece]))), [Delta(r.oi, r.id, ReasoningText, piece)]))
  }

  lemma AppendReasoningKeeps(m: Machine, piece: string)
    requires Good(m) && m.st.reasoning.Some? && piece != ""
    ensures Good(AppendReasoning(m, piece))
  {
    var v, r := ViewOf(m.trace).value, m.st.reasoning.value;
    var st := m.st.(reasoning := Some(r.(buf := r.buf + [piece])));
    var items := v.items[r.oi := v.items[r.oi].(text := v.items[r.oi].text + piece)];
    AppendReasoningLinked(m.st, v.items, piece);
    Watch1(v, Event(v.count, Delta(r.oi, r.id, ReasoningText, piece)));
    Bump1(st, Delta(r.oi, r.id, ReasoningText, piece));
    DeliverKeeps(m, Bump(st, [Delta(r.oi, r.id, ReasoningText, piece)]), View(Live, v.count + 1, items));
  }

  lemma OnReasoningKeeps(m: Machine, piece: string)
    requires Good(m) && Resting(m.st) && piece != ""
    ensures Good(OnReasoning(m, piece)) && Resting(OnReasoning(m, piece).st)
  {
    if NothingOpen(m.st) {
      OpenReasoningKeeps(m);
      AppendReasoningKeeps(OpenReasoning(m), piece);
    } else if m.st.reasoning.Some? {
      AppendReasoningKeeps(m, piece);
    }
  }

  lemma OpenNewCallLinked(st: State, idx: int, t: OpenCall, items: seq<Seen>)
    requires Linked(st, items) && idx !in st.tools && t.oi == st.nextOi && t.buf == []
    ensures Linked(st.(tools := st.tools[idx := t], toolOrder := st.toolOrder + [idx], nextOi := st.nextOi + 1,
                       minted := st.minted + 2, seqNo := st.seqNo + 1),
                   items + [Seen(t.id, CallShell(t.callId, t.name), Some(Arguments), "", Open)])
  {
    var items' := items + [Seen(t.id, CallShell(t.callId, t.name), Some(Arguments), "", Open)];
    var st' := st.(tools := st.tools[idx := t], toolOrder := st.toolOrder + [idx], nextOi := st.nextOi + 1,
                   minted := st.minted + 2, seqNo := st.seqNo + 1);
    forall k | 0 <= k < |items'| && !items'[k].phase.Done? ensures OpenAt(st', k) {
      if k < |items| {
        assert OpenAt(st, k);
        if exists a :: a in st.tools && st.tools[a].oi == k {
          var a :| a in st.tools && st.tools[a].oi == k;
          assert st'.tools[a].oi == k;
        }
      } else {
        assert st'.tools[idx].oi == k;
      }
    }
  }

  lemma OpenNewCallKeeps(m: Machine, idx: int, d: ToolDelta)
    requires Good(m) && idx !in m.st.tools && m.st.text.None? && m.st.reasoning.None?
    ensures Good(OpenNewCall(m, idx, d)) && idx in OpenNewCall(m, idx, d).st.tools
  {
    var st, v := m.st, ViewOf(m.trace).value;
    var callId := if d.id != "" then Given(d.id) else Minted(st.minted + 1);
    var t := OpenCall(st.minted, st.nextOi, callId, d.id, d.name, []);
    OpenNewCallLinked(st, idx, t, v.items);
    var p := ItemAdded(t.oi, t.id, CallShell(callId, d.name));
    var st' := st.(tools := st.tools[idx := t], toolOrder := st.toolOrder + [idx],
                   nextOi := st.nextOi + 1, minted := st.minted + 2);
    Watch1(v, Event(v.count, p));
    Bump1(st', p);
    DeliverKeeps(m, Bump(st', [p]),
                 View(Live, v.count + 1, v.items + [Seen(t.id, CallShell(callId, d.name), Some(Arguments), "", Open)]));
  }

  /** Replacing an open call by one that still matches the item seen at its index. */
  lemma UpdateCallLinked(st: State, idx: int, t: OpenCall, items: seq<Seen>, x: Seen)
    requires Linked(st, items) && idx in st.tools && t.oi == st.tools[idx].oi
    requires MatchesCall(x, t) && x.shell == items[t.oi].shell
    ensures Linked(st.(tools := st.tools[idx := t]), items[t.oi := x])
  {
    var st', items' := st.(tools := st.tools[idx := t]), items[t.oi := x];
    forall k | 0 <= k < |items'| && !items'[k].phase.Done? ensures OpenAt(st', k) {
      assert OpenAt(st, k);
      if exists a :: a in st.tools && st.tools[a].oi == k {
        var a :| a in st.tools && st.tools[a].oi == k;
        assert st'.tools[a].oi == k;
      }
    }
  }

  lemma AppendArgsKeeps(m: Machine, idx: int, args: string)
    requires Good(m) && idx in m.st.tools
    ensures Good(AppendArgs(m, idx, args)) && idx in AppendArgs(m, idx, args).st.tools
  {
    if args != "" {
      var st, v, t := m.st, ViewOf(m.trace).value, m.st.tools[idx];
      var t' := t.(buf := t.buf + [args]);
      var x := v.items[t.oi].(text := v.items[t.oi].text + args);
      JoinSnoc(t.buf, args);
      UpdateCallLinked(st, idx, t', v.items, x);
      var st' := st.(tools := st.tools[idx := t']);
      var p := Delta(t.oi, t.id, Arguments, args);
      Watch1(v, Event(v.count, p));
      Bump1(st', p);
      DeliverKeeps(m, Bump(st', [p]), View(Live, v.count + 1, v.items[t.oi := x]));
    }
  }

  lemma OnToolKeeps(m: Machine, o: Options, d: ToolDelta)
    requires Good(m)
    ensures Good(OnTool(m, o, d))
    ensures d.index.Some? ==> OnTool(m, o, d).st.tools != map[]
    ensures d.index.None? ==> OnTool(m, o, d) == m
  {
    if d.index.Some? {
      var idx := d.index.value;
      if idx !in m.st.tools || IsNewCall(m.st.tools, idx, d.id) {
        var m1 := if idx in m.st.tools then Deliver(m, CloseCall(m.st, o, idx)) else m;
        CloseCallKeeps(m, o, idx);
        var m2 := Deliver(m1, CloseReasoning(m1.st, o));
        CloseReasoningKeeps(m1, o);
        var m3 := Deliver(m2, CloseText(m2.st, o));
        CloseTextKeeps(m2, o);
        OpenNewCallKeeps(m3, idx, d);
        AppendArgsKeeps(OpenNewCall(m3, idx, d), idx, d.args);
      } else {
        var v, t := ViewOf(m.trace).value, m.st.tools[idx];
        UpdateCallLinked(m.st, idx, Learn(t, d), v.items, v.items[t.oi]);
        assert v.items[t.oi := v.items[t.oi]] == v.items;
        AppendArgsKeeps(m.(st := m.st.(tools := m.st.tools[idx := Learn(t, d)])), idx, d.args);
      }
    }
  }

  lemma {:induction false} OnToolsKeeps(m: Machine, o: Options, ds: seq<ToolDelta>)
    requires Good(m) && Resting(m.st)
    ensures Good(OnTools(m, o, ds)) && Resting(OnTools(m, o, ds).st)
  {
    if ds == [] {
    } else {
      OnToolsKeeps(m, o, ds[..|ds| - 1]);
      OnToolKeeps(OnTools(m, o, ds[..|ds| - 1]), o, ds[|ds| - 1]);
    }
  }

  lemma FinishKeeps(m: Machine, finish: string)
    requires Good(m) && Resting(m.st)
    ensures Good(m.(st := m.st.(finish := finish))) && Resting(m.st.(finish := finish))
  {
    var st := m.st.(finish := finish);
    assert forall k :: OpenAt(m.st, k) ==> OpenAt(st, k);
  }

  lemma OnMessageAtRest(m: Machine, o: Options, channel: Channel, piece: string)
    requires Good(m) && Resting(m.st) && (channel == OutputText || channel == RefusalText)
    ensures var m' := if piece != "" then OnMessage(m, o, channel, piece) else m;
            Good(m') && Resting(m'.st)
  {
    if piece != "" { OnMessageKeeps(m, o, channel, piece); }
  }

  lemma OnChunkKeeps(m: Machine, o: Options, c: Chunk)
    requires Good(m) && Resting(m.st)
    ensures Good(OnChunk(m, o, c)) && Resting(OnChunk(m, o, c).st)
  {
    if c.Choice? {
      var m1 := AtReasoning(m, o, c);
      var m2 := AtContent(m1, o, c);
      var m3 := AtRefusal(m2, o, c);
      if o.emitReasoning && c.reasoning != "" { OnReasoningKeeps(m, c.reasoning); }
      OnMessageAtRest(m1, o, OutputText, c.content);
      OnMessageAtRest(m2, o, RefusalText, c.refusal);
      OnToolsKeeps(m3, o, c.tools);
      var m4 := OnTools(m3, o, c.tools);
      FinishKeeps(m4, if c.finish != "" then c.finish else m4.st.finish);
    }
  }

  lemma {:induction false} OnChunksKeeps(m: Machine, o: Options, chunks: seq<Chunk>)
    requires Good(m) && Resting(m.st)
    ensures Good(OnChunks(m, o, chunks)) && Resting(OnChunks(m, o, chunks).st)
  {
    if chunks == [] {
    } else {
      OnChunksKeeps(m, o, chunks[..|chunks| - 1]);
      OnChunkKeeps(OnChunks(m, o, chunks[..|chunks| - 1]), o, chunks[|chunks| - 1]);
    }
  }
}
