/** What one chunk does to a run besides its items: the events so far stay, the holder and the finish
    reason are left alone until the chunk is over, and every item that is closed gets the status that the
    finish reason of the chunks before gives it. */
module ResponsesFrame {
  import opened Wrappers
  import opened ChatChunks
  import opened ResponsesEvents
  import opened ResponsesMonitor
  import opened ResponsesBridge
  import opened ResponsesNames
  import RT = ResponsesTheorems

  /** Items are closed with this status only. */
  predicate ClosesAs(p: Payload, status: Status) {
    p.ItemDone? ==> p.item.status == status
  }

  /** `n` goes on from `m`: more events, the holder as it was at all of them. */
  predicate GoesOn(m: Machine, n: Machine, status: Status) {
    && m.trace <= n.trace && n.st.holder == m.st.holder
    && forall k :: |m.trace| <= k < |n.trace| ==>
         n.trace[k].at.holder == m.st.holder && ClosesAs(n.trace[k].event.payload, status)
  }

  /** The same, the finish reason unchanged as well. */
  predicate Follows(m: Machine, n: Machine, status: Status) {
    GoesOn(m, n, status) && n.st.finish == m.st.finish
  }

  lemma Transitive(a: Machine, b: Machine, c: Machine, status: Status)
    requires Follows(a, b, status) && Follows(b, c, status)
    ensures Follows(a, c, status)
  {
    forall k | |a.trace| <= k < |c.trace|
      ensures c.trace[k].at.holder == a.st.holder && ClosesAs(c.trace[k].event.payload, status) {
      if k < |b.trace| { assert c.trace[k] == b.trace[k]; }
    }
  }

  /** A batch that touches neither holder nor finish reason, and closes items with this status. */
  predicate Plain(st: State, b: Batch, status: Status) {
    && b.st.holder == st.holder && b.st.finish == st.finish
    && forall k :: 0 <= k < |b.events| ==> ClosesAs(b.events[k].payload, status)
  }

  lemma DeliverFollows(m: Machine, b: Batch, status: Status)
    requires Plain(m.st, b, status)
    ensures Follows(m, Deliver(m, b), status)
  {
  }

  lemma CloseReasoningPlain(st: State, o: Options)
    ensures Plain(st, CloseReasoning(st, o), ItemStatus(st, o))
  {
  }

  lemma CloseTextPlain(st: State, o: Options)
    ensures Plain(st, CloseText(st, o), ItemStatus(st, o))
  {
  }

  lemma CloseCallPlain(st: State, o: Options, idx: int)
    ensures Plain(st, CloseCall(st, o, idx), ItemStatus(st, o))
  {
  }

  lemma {:induction false} CloseCallsPlain(st: State, o: Options, order: seq<int>)
    ensures Plain(st, CloseCalls(st, o, order), ItemStatus(st, o))
  {
    if order == [] {
    } else {
      CloseCallsPlain(st, o, order[..|order| - 1]);
      CloseCallPlain(CloseCalls(st, o, order[..|order| - 1]).st, o, order[|order| - 1]);
    }
  }

  // ---- One piece ------------------------------------------------------------------------------------------

  lemma OpenReasoningFollows(m: Machine, status: Status)
    ensures Follows(m, OpenReasoning(m), status)
  {
    var r := OpenText(m.st.minted, m.st.nextOi, ReasoningText, []);
    var st1 := m.st.(reasoning := Some(r), nextOi := m.st.nextOi + 1, minted := m.st.minted + 1);
    var b := Bump(st1, [ItemAdded(r.oi, r.id, ReasoningShell)]);
    var m1 := Deliver(m, b);
    DeliverFollows(m, b, status);
    DeliverFollows(m1, Bump(m1.st, [PartAdded(r.oi, r.id, ReasoningText)]), status);
    Transitive(m, m1, OpenReasoning(m), status);
  }

  lemma OnReasoningFollows(m: Machine, piece: string, status: Status)
    ensures Follows(m, OnReasoning(m, piece), status)
  {
    var m1 := if NothingOpen(m.st) then OpenReasoning(m) else m;
    OpenReasoningFollows(m, status);
    if m1.st.reasoning.Some? {
      var r := m1.st.reasoning.value;
      DeliverFollows(m1, Bump(m1.st.(reasoning := Some(r.(buf := r.buf + [piece]))),
                              [Delta(r.oi, r.id, ReasoningText, piece)]), status);
      Transitive(m, m1, OnReasoning(m, piece), status);
    }
  }

  lemma CloseOthersFollows(m: Machine, o: Options)
    ensures Follows(m, CloseOthers(m, o), ItemStatus(m.st, o))
  {
    var status, m1 := ItemStatus(m.st, o), Deliver(m, CloseReasoning(m.st, o));
    CloseReasoningPlain(m.st, o);
    DeliverFollows(m, CloseReasoning(m.st, o), status);
    CloseCallsPlain(m1.st, o, m1.st.toolOrder);
    DeliverFollows(m1, CloseAllCalls(m1.st, o), status);
    Transitive(m, m1, CloseOthers(m, o), status);
  }

  lemma HaveMessageFollows(m: Machine, o: Options, channel: Channel)
    ensures Follows(m, HaveMessage(m, o, channel), ItemStatus(m.st, o))
  {
    var status, m1 := ItemStatus(m.st, o), Deliver(m, CloseText(m.st, o));
    CloseTextPlain(m.st, o);
    DeliverFollows(m, CloseText(m.st, o), status);
    DeliverFollows(m, OpenMessage(m.st, channel), status);
    DeliverFollows(m1, OpenMessage(m1.st, channel), status);
    Transitive(m, m1, Deliver(m1, OpenMessage(m1.st, channel)), status);
  }

  lemma AppendTextFollows(m: Machine, piece: string, status: Status)
    ensures Follows(m, AppendText(m, piece), status)
  {
  }

  lemma OnMessageFollows(m: Machine, o: Options, channel: Channel, piece: string)
    ensures Follows(m, OnMessage(m, o, channel, piece), ItemStatus(m.st, o))
  {
    var status, m1 := ItemStatus(m.st, o), CloseOthers(m, o);
    var m2 := HaveMessage(m1, o, channel);
    CloseOthersFollows(m, o);
    HaveMessageFollows(m1, o, channel);
    AppendTextFollows(m2, piece, status);
    Transitive(m, m1, m2, status);
    Transitive(m, m2, OnMessage(m, o, channel, piece), status);
  }

  /** What is closed to make room for a new call. */
  function MakeRoom(m: Machine, o: Options, idx: int): Machine {
    var m1 := if idx in m.st.tools then Deliver(m, CloseCall(m.st, o, idx)) else m;
    var m2 := Deliver(m1, CloseReasoning(m1.st, o));
    Deliver(m2, CloseText(m2.st, o))
  }

  lemma MakeRoomFollows(m: Machine, o: Options, idx: int)
    ensures Follows(m, MakeRoom(m, o, idx), ItemStatus(m.st, o))
  {
    var status := ItemStatus(m.st, o);
    var m1 := if idx in m.st.tools then Deliver(m, CloseCall(m.st, o, idx)) else m;
    var m2 := Deliver(m1, CloseReasoning(m1.st, o));
    CloseCallPlain(m.st, o, idx);
    DeliverFollows(m, CloseCall(m.st, o, idx), status);
    CloseReasoningPlain(m1.st, o);
    DeliverFollows(m1, CloseReasoning(m1.st, o), status);
    CloseTextPlain(m2.st, o);
    DeliverFollows(m2, CloseText(m2.st, o), status);
    Transitive(m, m1, m2, status);
    Transitive(m, m2, MakeRoom(m, o, idx), status);
  }

  lemma OpenNewCallFollows(m: Machine, idx: int, d: ToolDelta, status: Status)
    ensures Follows(m, OpenNewCall(m, idx, d), status) && idx in OpenNewCall(m, idx, d).st.tools
  {
  }

  lemma AppendArgsFollows(m: Machine, idx: int, args: string, status: Status)
    requires idx in m.st.tools
    ensures Follows(m, AppendArgs(m, idx, args), status)
  {
  }

  lemma NewCallFollows(m: Machine, o: Options, idx: int, d: ToolDelta)
    ensures var m2 := OpenNewCall(MakeRoom(m, o, idx), idx, d);
            idx in m2.st.tools && Follows(m, AppendArgs(m2, idx, d.args), ItemStatus(m.st, o))
  {
    var status, m1 := ItemStatus(m.st, o), MakeRoom(m, o, idx);
    var m2 := OpenNewCall(m1, idx, d);
    MakeRoomFollows(m, o, idx);
    OpenNewCallFollows(m1, idx, d, status);
    AppendArgsFollows(m2, idx, d.args, status);
    Transitive(m, m1, m2, status);
    Transitive(m, m2, AppendArgs(m2, idx, d.args), status);
  }

  lemma OnToolFollows(m: Machine, o: Options, d: ToolDelta)
    ensures Follows(m, OnTool(m, o, d), ItemStatus(m.st, o))
  {
    if d.index.Some? {
      var idx := d.index.value;
      if idx !in m.st.tools || IsNewCall(m.st.tools, idx, d.id) {
        NewCallFollows(m, o, idx, d);
      } else {
        var m1 := m.(st := m.st.(tools := m.st.tools[idx := Learn(m.st.tools[idx], d)]));
        AppendArgsFollows(m1, idx, d.args, ItemStatus(m.st, o));
        Transitive(m, m1, AppendArgs(m1, idx, d.args), ItemStatus(m.st, o));
      }
    }
  }

  lemma {:induction false} OnToolsFollows(m: Machine, o: Options, ds: seq<ToolDelta>)
    ensures Follows(m, OnTools(m, o, ds), ItemStatus(m.st, o))
  {
    if ds == [] {
    } else {
      var before := OnTools(m, o, ds[..|ds| - 1]);
      OnToolsFollows(m, o, ds[..|ds| - 1]);
      OnToolFollows(before, o, ds[|ds| - 1]);
      Transitive(m, before, OnTools(m, o, ds), ItemStatus(m.st, o));
    }
  }

  // ---- Chunks ----------------------------------------------------------------------------------------------

  /** One chunk: what it closes is closed before its own finish reason counts. */
  lemma OnChunkGoesOn(m: Machine, o: Options, c: Chunk)
    ensures GoesOn(m, OnChunk(m, o, c), ItemStatus(m.st, o))
  {
    if c.Choice? {
      var status, m1 := ItemStatus(m.st, o), AtReasoning(m, o, c);
      var m2 := AtContent(m1, o, c);
      var m3 := AtRefusal(m2, o, c);
      OnReasoningFollows(m, c.reasoning, status);
      OnMessageFollows(m1, o, OutputText, c.content);
      OnMessageFollows(m2, o, RefusalText, c.refusal);
      OnToolsFollows(m3, o, c.tools);
      Transitive(m, m1, m2, status);
      Transitive(m, m2, m3, status);
      Transitive(m, m3, OnTools(m3, o, c.tools), status);
    }
  }

  /** The holder was unset at every yield so far, and still is. */
  predicate Unheld(m: Machine) {
    m.st.holder.Unset? && forall k :: 0 <= k < |m.trace| ==> m.trace[k].at.holder.Unset?
  }

  lemma GoesOnUnheld(m: Machine, n: Machine, status: Status)
    requires Unheld(m) && GoesOn(m, n, status)
    ensures Unheld(n)
  {
    forall k | 0 <= k < |n.trace| ensures n.trace[k].at.holder.Unset? {
      if k < |m.trace| { assert n.trace[k] == m.trace[k]; }
    }
  }

  lemma {:induction false} OnChunksUnheld(m: Machine, o: Options, chunks: seq<Chunk>)
    requires Unheld(m)
    ensures Unheld(OnChunks(m, o, chunks))
  {
    if chunks == [] {
    } else {
      var before := OnChunks(m, o, chunks[..|chunks| - 1]);
      OnChunksUnheld(m, o, chunks[..|chunks| - 1]);
      OnChunkGoesOn(before, o, chunks[|chunks| - 1]);
      GoesOnUnheld(before, OnChunks(m, o, chunks), ItemStatus(before.st, o));
    }
  }

  lemma {:induction false} CloseCallsInTurnFollows(m: Machine, o: Options, order: seq<int>)
    ensures Follows(m, CloseCallsInTurn(m, o, order), ItemStatus(m.st, o))
  {
    if order == [] {
    } else {
      var before := CloseCallsInTurn(m, o, order[..|order| - 1]);
      CloseCallsInTurnFollows(m, o, order[..|order| - 1]);
      CloseCallPlain(before.st, o, order[|order| - 1]);
      DeliverFollows(before, CloseCall(before.st, o, order[|order| - 1]), ItemStatus(m.st, o));
      Transitive(m, before, CloseCallsInTurn(m, o, order), ItemStatus(m.st, o));
    }
  }

  lemma CloseEverythingFollows(m: Machine, o: Options)
    ensures Follows(m, CloseEverything(m, o), ItemStatus(m.st, o))
  {
    var status, m1 := ItemStatus(m.st, o), Deliver(m, CloseReasoning(m.st, o));
    var m2 := Deliver(m1, CloseText(m1.st, o));
    CloseReasoningPlain(m.st, o);
    DeliverFollows(m, CloseReasoning(m.st, o), status);
    CloseTextPlain(m1.st, o);
    DeliverFollows(m1, CloseText(m1.st, o), status);
    CloseCallsInTurnFollows(m2, o, m2.st.toolOrder);
    Transitive(m, m1, m2, status);
    Transitive(m, m2, CloseEverything(m, o), status);
  }

  // ---- The holder --------------------------------------------------------------------------------------------

  lemma PreambleUnheld()
    ensures Unheld(Preamble())
  {
  }

  /** At every yield but the last the holder is still unset. */
  lemma UnheldBeforeTheEnd(chunks: seq<Chunk>, o: Options, k: nat)
    requires k < |Convert(chunks, o).trace| - 1
    ensures Convert(chunks, o).trace[k].at.holder == Unset
  {
    BeforeErrorIsPrefix(chunks);
    var m := OnChunks(Preamble(), o, BeforeError(chunks));
    PreambleUnheld();
    OnChunksUnheld(Preamble(), o, BeforeError(chunks));
    if HasError(chunks) {
      RT.EndInErrorShape(m);
    } else {
      CloseEverythingFollows(m, o);
      GoesOnUnheld(m, CloseEverything(m, o), ItemStatus(m.st, o));
      RT.EndNormallyShape(m, o);
    }
  }

  // ---- Statuses ----------------------------------------------------------------------------------------------

  /** The events of a run up to the await for the chunk at `j`. */
  function UpTo(chunks: seq<Chunk>, o: Options, j: nat): seq<Yield>
    requires j <= |chunks|
  {
    OnChunks(Preamble(), o, chunks[..j]).trace
  }

  /** An item closed at `event` has the status that this finish reason means. */
  predicate ClosedBy(e: Event, finish: string, o: Options) {
    e.payload.ItemDone? ==> Means(e.payload.item.status, finish, o)
  }

  lemma StatusMeans(st: State, o: Options)
    ensures Means(ItemStatus(st, o), st.finish, o)
  {
  }

  lemma ClosedByFinish(n: Machine, from: nat, st: State, o: Options)
    requires forall k :: from <= k < |n.trace| ==> ClosesAs(n.trace[k].event.payload, ItemStatus(st, o))
    ensures forall k :: from <= k < |n.trace| ==> ClosedBy(n.trace[k].event, st.finish, o)
  {
    StatusMeans(st, o);
    forall k | from <= k < |n.trace| ensures ClosedBy(n.trace[k].event, st.finish, o) {
      assert ClosesAs(n.trace[k].event.payload, ItemStatus(st, o));
    }
  }

  /** Every item that is closed while chunk `j` is handled has the status that the last finish reason of the
      chunks before it means. */
  lemma ClosedWhileHandling(chunks: seq<Chunk>, o: Options, j: nat)
    requires j < |chunks|
    ensures UpTo(chunks, o, j) <= UpTo(chunks, o, j + 1)
    ensures var t := UpTo(chunks, o, j + 1);
            forall k :: |UpTo(chunks, o, j)| <= k < |t| ==> ClosedBy(t[k].event, LastFinish(chunks[..j]), o)
  {
    var m := OnChunks(Preamble(), o, chunks[..j]);
    assert chunks[..j + 1][..j] == chunks[..j];
    OnChunksKnown(o, chunks[..j]);
    OnChunkGoesOn(m, o, chunks[j]);
    ClosedByFinish(OnChunk(m, o, chunks[j]), |m.trace|, m.st, o);
  }

  /** Every item that is closed at the end has the status that the last finish reason of all chunks means. */
  lemma ClosedAtTheEnd(chunks: seq<Chunk>, o: Options)
    requires !HasError(chunks)
    ensures var t := Convert(chunks, o).trace;
            && UpTo(chunks, o, |chunks|) <= t
            && forall k :: |UpTo(chunks, o, |chunks|)| <= k < |t| ==> ClosedBy(t[k].event, LastFinish(chunks), o)
  {
    var m := OnChunks(Preamble(), o, chunks);
    assert chunks[..|chunks|] == chunks;
    BeforeErrorIsPrefix(chunks);
    assert BeforeError(chunks) == chunks;
    OnChunksKnown(o, chunks);
    CloseEverythingFollows(m, o);
    ClosedByFinish(CloseEverything(m, o), |m.trace|, m.st, o);
    RT.EndNormallyShape(m, o);
    var closed := CloseEverything(m, o);
    EndsAs(closed.trace, RT.TerminalYield(closed.st, o), |m.trace|, LastFinish(chunks), o);
  }

  lemma EndsAs(trace: seq<Yield>, y: Yield, from: nat, finish: string, o: Options)
    requires !y.event.payload.ItemDone?
    requires forall k :: from <= k < |trace| ==> ClosedBy(trace[k].event, finish, o)
    ensures var all := trace + [y]; forall k :: from <= k < |all| ==> ClosedBy(all[k].event, finish, o)
  {
  }

  /** The events up to an await stay at the front of the whole run. */
  lemma {:induction false} UpToIsPrefix(chunks: seq<Chunk>, o: Options, j: nat)
    requires !HasError(chunks) && j <= |chunks|
    ensures UpTo(chunks, o, j) <= Convert(chunks, o).trace
    decreases |chunks| - j
  {
    if j == |chunks| {
      ClosedAtTheEnd(chunks, o);
    } else {
      UpToIsPrefix(chunks, o, j + 1);
      ClosedWhileHandling(chunks, o, j);
    }
  }

  /** The finish reason that counted when the event at `k` was sent. */
  lemma {:induction false} SentWhileHandling(chunks: seq<Chunk>, o: Options, k: nat, j: nat) returns (i: nat)
    requires !HasError(chunks) && j <= |chunks| && 2 <= k < |Convert(chunks, o).trace|
    requires k < |UpTo(chunks, o, j)| || j == |chunks|
    ensures i <= j && |UpTo(chunks, o, i)| <= k && (i < |chunks| ==> k < |UpTo(chunks, o, i + 1)|)
    decreases j
  {
    if |UpTo(chunks, o, j)| <= k {
      i := j;
    } else if j == 0 {
      NoEventsYet(chunks, o);
      assert false;
    } else if |UpTo(chunks, o, j - 1)| <= k {
      i := j - 1;
    } else {
      i := SentWhileHandling(chunks, o, k, j - 1);
    }
  }

  lemma NoEventsYet(chunks: seq<Chunk>, o: Options)
    ensures |UpTo(chunks, o, 0)| == 2
  {
    RT.PreambleShape();
  }

  /** For every item closed in a complete run: it was closed while chunk `i` was handled, or at the end for
      `i == |chunks|`, and its status is Incomplete exactly when the last finish reason before that is
      "content_filter", or "length" unless that counts as completed; Completed otherwise. */
  lemma ItemStatuses(chunks: seq<Chunk>, o: Options, k: nat) returns (i: nat)
    requires !HasError(chunks) && 2 <= k < |Convert(chunks, o).trace|
    ensures i <= |chunks| && |UpTo(chunks, o, i)| <= k && (i < |chunks| ==> k < |UpTo(chunks, o, i + 1)|)
    ensures ClosedBy(Convert(chunks, o).trace[k].event, LastFinish(chunks[..i]), o)
  {
    i := SentWhileHandling(chunks, o, k, |chunks|);
    if i == |chunks| {
      ClosedAtTheEnd(chunks, o);
      assert chunks[..i] == chunks;
    } else {
      ClosedWhileHandling(chunks, o, i);
      UpToIsPrefix(chunks, o, i + 1);
    }
  }

  /** What an accepted stream has shown as done was sent. */
  lemma {:induction false} DoneWasSent(events: seq<Event>, oi: nat) returns (k: nat)
    requires WatchFrom(NOTHING, events).Some?
    requires var items := WatchFrom(NOTHING, events).value.items; oi < |items| && items[oi].phase.Done?
    ensures k < |events| && events[k].payload == ItemDone(oi, WatchFrom(NOTHING, events).value.items[oi].phase.item)
  {
    var front, last := events[..|events| - 1], events[|events| - 1];
    var before := WatchFrom(NOTHING, front).value;
    if oi < |before.items| && before.items[oi].phase.Done? {
      k := DoneWasSent(front, oi);
    } else {
      k := |front|;
    }
  }

  /** The two events before the first chunk close nothing. */
  lemma FirstTwo(chunks: seq<Chunk>, o: Options)
    requires !HasError(chunks)
    ensures var t := Convert(chunks, o).trace;
            |t| >= 2 && !t[0].event.payload.ItemDone? && !t[1].event.payload.ItemDone?
  {
    UpToIsPrefix(chunks, o, 0);
    RT.PreambleShape();
    var t := Convert(chunks, o).trace;
    assert UpTo(chunks, o, 0) == Preamble().trace && t[0] == Preamble().trace[0] && t[1] == Preamble().trace[1];
  }

  lemma ListedIsDone(chunks: seq<Chunk>, o: Options, oi: nat)
    requires !HasError(chunks) && oi < |TerminalOutput(chunks, o)|
    ensures var v := WatchFrom(NOTHING, EventsOf(Convert(chunks, o).trace));
            v.Some? && oi < |v.value.items| && v.value.items[oi].phase == Done(TerminalOutput(chunks, o)[oi])
  {
    RT.LastListsDone(chunks, o);
    RT.DoneItemsAt(RT.FinalItems(chunks, o));
  }

  lemma ListedSentAt(chunks: seq<Chunk>, o: Options, oi: nat) returns (k: nat)
    requires !HasError(chunks) && oi < |TerminalOutput(chunks, o)|
    ensures k < |Convert(chunks, o).trace|
    ensures Convert(chunks, o).trace[k].event.payload == ItemDone(oi, TerminalOutput(chunks, o)[oi])
  {
    ListedIsDone(chunks, o, oi);
    k := DoneWasSent(EventsOf(Convert(chunks, o).trace), oi);
  }

  /** So every item the terminal event lists has the status of its closing event. */
  lemma ListedWasSent(chunks: seq<Chunk>, o: Options, oi: nat) returns (k: nat)
    requires !HasError(chunks) && oi < |TerminalOutput(chunks, o)|
    ensures 2 <= k < |Convert(chunks, o).trace|
    ensures Convert(chunks, o).trace[k].event.payload == ItemDone(oi, TerminalOutput(chunks, o)[oi])
  {
    k := ListedSentAt(chunks, o, oi);
    FirstTwo(chunks, o);
  }
}
