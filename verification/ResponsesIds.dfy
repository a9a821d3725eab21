/** The ids of items, and those of calls that the bridge makes up: all different over a whole stream. */
module ResponsesIds {
  import opened Wrappers
  import opened ChatChunks
  import opened ResponsesEvents
  import opened ResponsesBridge

  /** The ids an event brings lie in this part of the supply. */
  predicate NewIds(p: Payload, low: nat, high: nat) {
    p.ItemAdded? ==>
      && low <= p.id < high
      && (p.shell.CallShell? && p.shell.callId.Minted? ==> low <= p.shell.callId.serial < high)
  }

  /** Two added items have different ids, and two made-up call ids differ. */
  predicate Different(p: Payload, q: Payload) {
    p.ItemAdded? && q.ItemAdded? ==>
      && p.id != q.id
      && (p.shell.CallShell? && q.shell.CallShell? && p.shell.callId.Minted? && q.shell.callId.Minted? ==>
            p.shell.callId != q.shell.callId)
  }

  predicate AllDifferent(trace: seq<Yield>) {
    forall j, k :: 0 <= j < k < |trace| ==> Different(trace[j].event.payload, trace[k].event.payload)
  }

  predicate FreshIds(m: Machine) {
    && AllDifferent(m.trace)
    && forall k :: 0 <= k < |m.trace| ==> NewIds(m.trace[k].event.payload, 0, m.st.minted)
  }

  /** A batch that takes its ids from the supply, for one item at most. */
  predicate Mints(b: Batch, low: nat) {
    && low <= b.st.minted
    && (forall k :: 0 <= k < |b.events| ==> NewIds(b.events[k].payload, low, b.st.minted))
    && forall k :: 0 < k < |b.events| ==> !b.events[k].payload.ItemAdded?
  }

  lemma DeliverFresh(m: Machine, b: Batch)
    requires FreshIds(m) && Mints(b, m.st.minted)
    ensures FreshIds(Deliver(m, b))
  {
    var n := Deliver(m, b);
    forall j, k | 0 <= j < k < |n.trace| ensures Different(n.trace[j].event.payload, n.trace[k].event.payload) {
      if k < |m.trace| {
        assert n.trace[j] == m.trace[j] && n.trace[k] == m.trace[k];
      } else {
        assert n.trace[k].event == b.events[k - |m.trace|];
        if j < |m.trace| { assert n.trace[j] == m.trace[j]; }
      }
    }
  }

  /** No item is added and nothing taken from the supply. */
  predicate AddsNone(b: Batch, low: nat) {
    b.st.minted == low && forall k :: 0 <= k < |b.events| ==> !b.events[k].payload.ItemAdded?
  }

  lemma ClosingAddsNone(st: State, o: Options)
    ensures AddsNone(CloseReasoning(st, o), st.minted) && AddsNone(CloseText(st, o), st.minted)
    ensures forall idx :: AddsNone(CloseCall(st, o, idx), st.minted)
  {
  }

  lemma {:induction false} ClosingCallsAddsNone(st: State, o: Options, order: seq<int>)
    ensures AddsNone(CloseCalls(st, o, order), st.minted)
  {
    if order == [] {
    } else {
      var before := CloseCalls(st, o, order[..|order| - 1]);
      ClosingCallsAddsNone(st, o, order[..|order| - 1]);
      ClosingAddsNone(before.st, o);
    }
  }

  lemma CloseOthersFresh(m: Machine, o: Options)
    requires FreshIds(m)
    ensures FreshIds(CloseOthers(m, o))
  {
    ClosingAddsNone(m.st, o);
    DeliverFresh(m, CloseReasoning(m.st, o));
    var m1 := Deliver(m, CloseReasoning(m.st, o));
    ClosingCallsAddsNone(m1.st, o, m1.st.toolOrder);
    DeliverFresh(m1, CloseAllCalls(m1.st, o));
  }

  lemma HaveMessageFresh(m: Machine, o: Options, channel: Channel)
    requires FreshIds(m)
    ensures FreshIds(HaveMessage(m, o, channel))
  {
    if m.st.text.None? {
      DeliverFresh(m, OpenMessage(m.st, channel));
    } else if m.st.text.value.channel != channel {
      ClosingAddsNone(m.st, o);
      DeliverFresh(m, CloseText(m.st, o));
      var m1 := Deliver(m, CloseText(m.st, o));
      DeliverFresh(m1, OpenMessage(m1.st, channel));
    }
  }

  lemma AppendTextFresh(m: Machine, piece: string)
    requires FreshIds(m)
    ensures FreshIds(AppendText(m, piece))
  {
    if m.st.text.Some? {
      var t := m.st.text.value;
      DeliverFresh(m, Bump(m.st.(text := Some(t.(buf := t.buf + [piece]))), [Delta(t.oi, t.id, t.channel, piece)]));
    }
  }

  lemma OnMessageFresh(m: Machine, o: Options, channel: Channel, piece: string)
    requires FreshIds(m)
    ensures FreshIds(OnMessage(m, o, channel, piece))
  {
    CloseOthersFresh(m, o);
    HaveMessageFresh(CloseOthers(m, o), o, channel);
    AppendTextFresh(HaveMessage(CloseOthers(m, o), o, channel), piece);
  }

  lemma OpenReasoningFresh(m: Machine)
    requires FreshIds(m)
    ensures FreshIds(OpenReasoning(m))
  {
    var r := OpenText(m.st.minted, m.st.nextOi, ReasoningText, []);
    var st1 := m.st.(reasoning := Some(r), nextOi := m.st.nextOi + 1, minted := m.st.minted + 1);
    var b := Bump(st1, [ItemAdded(r.oi, r.id, ReasoningShell)]);
    DeliverFresh(m, b);
    var m1 := Deliver(m, b);
    DeliverFresh(m1, Bump(m1.st, [PartAdded(r.oi, r.id, ReasoningText)]));
  }

  lemma OnReasoningFresh(m: Machine, piece: string)
    requires FreshIds(m)
    ensures FreshIds(OnReasoning(m, piece))
  {
    OpenReasoningFresh(m);
    var m1 := if NothingOpen(m.st) then OpenReasoning(m) else m;
    if m1.st.reasoning.Some? {
      var r := m1.st.reasoning.value;
      DeliverFresh(m1, Bump(m1.st.(reasoning := Some(r.(buf := r.buf + [piece]))),
                            [Delta(r.oi, r.id, ReasoningText, piece)]));
    }
  }

  lemma AppendArgsFresh(m: Machine, idx: int, args: string)
    requires FreshIds(m) && idx in m.st.tools
    ensures FreshIds(AppendArgs(m, idx, args))
  {
    if args != "" {
      var t := m.st.tools[idx];
      DeliverFresh(m, Bump(m.st.(tools := m.st.tools[idx := t.(buf := t.buf + [args])]),
                           [Delta(t.oi, t.id, Arguments, args)]));
    }
  }

  lemma OpenNewCallFresh(m: Machine, idx: int, d: ToolDelta)
    requires FreshIds(m)
    ensures FreshIds(OpenNewCall(m, idx, d))
  {
    var callId := if d.id != "" then Given(d.id) else Minted(m.st.minted + 1);
    var t := OpenCall(m.st.minted, m.st.nextOi, callId, d.id, d.name, []);
    DeliverFresh(m, Bump(m.st.(tools := m.st.tools[idx := t], toolOrder := m.st.toolOrder + [idx],
                               nextOi := m.st.nextOi + 1, minted := m.st.minted + 2),
                         [ItemAdded(t.oi, t.id, CallShell(callId, d.name))]));
  }

  lemma OnToolFresh(m: Machine, o: Options, d: ToolDelta)
    requires FreshIds(m)
    ensures FreshIds(OnTool(m, o, d))
  {
    if d.index.Some? {
      var idx := d.index.value;
      if idx !in m.st.tools || IsNewCall(m.st.tools, idx, d.id) {
        ClosingAddsNone(m.st, o);
        var m1 := if idx in m.st.tools then Deliver(m, CloseCall(m.st, o, idx)) else m;
        if idx in m.st.tools { DeliverFresh(m, CloseCall(m.st, o, idx)); }
        ClosingAddsNone(m1.st, o);
        DeliverFresh(m1, CloseReasoning(m1.st, o));
        var m2 := Deliver(m1, CloseReasoning(m1.st, o));
        ClosingAddsNone(m2.st, o);
        DeliverFresh(m2, CloseText(m2.st, o));
        var m3 := Deliver(m2, CloseText(m2.st, o));
        OpenNewCallFresh(m3, idx, d);
        AppendArgsFresh(OpenNewCall(m3, idx, d), idx, d.args);
      } else {
        AppendArgsFresh(m.(st := m.st.(tools := m.st.tools[idx := Learn(m.st.tools[idx], d)])), idx, d.args);
      }
    }
  }

  lemma {:induction false} OnToolsFresh(m: Machine, o: Options, ds: seq<ToolDelta>)
    requires FreshIds(m)
    ensures FreshIds(OnTools(m, o, ds))
  {
    if ds == [] {
    } else {
      OnToolsFresh(m, o, ds[..|ds| - 1]);
      OnToolFresh(OnTools(m, o, ds[..|ds| - 1]), o, ds[|ds| - 1]);
    }
  }

  lemma OnChunkFresh(m: Machine, o: Options, c: Chunk)
    requires FreshIds(m)
    ensures FreshIds(OnChunk(m, o, c))
  {
    if c.Choice? {
      var m1 := AtReasoning(m, o, c);
      if o.emitReasoning && c.reasoning != "" { OnReasoningFresh(m, c.reasoning); }
      var m2 := AtContent(m1, o, c);
      if c.content != "" { OnMessageFresh(m1, o, OutputText, c.content); }
      var m3 := AtRefusal(m2, o, c);
      if c.refusal != "" { OnMessageFresh(m2, o, RefusalText, c.refusal); }
      OnToolsFresh(m3, o, c.tools);
    }
  }

  lemma PreambleFresh()
    ensures FreshIds(Preamble())
  {
    DeliverFresh(Machine(INITIAL, []), Bump(INITIAL, [Created]));
    var m := Deliver(Machine(INITIAL, []), Bump(INITIAL, [Created]));
    DeliverFresh(m, Bump(m.st, [Started]));
  }

  lemma {:induction false} OnChunksFresh(o: Options, chunks: seq<Chunk>)
    ensures FreshIds(OnChunks(Preamble(), o, chunks))
  {
    if chunks == [] {
      PreambleFresh();
    } else {
      OnChunksFresh(o, chunks[..|chunks| - 1]);
      OnChunkFresh(OnChunks(Preamble(), o, chunks[..|chunks| - 1]), o, chunks[|chunks| - 1]);
    }
  }

  lemma {:induction false} CallsInTurnFresh(m: Machine, o: Options, order: seq<int>)
    requires FreshIds(m)
    ensures FreshIds(CloseCallsInTurn(m, o, order))
  {
    if order == [] {
    } else {
      CallsInTurnFresh(m, o, order[..|order| - 1]);
      var before := CloseCallsInTurn(m, o, order[..|order| - 1]);
      ClosingAddsNone(before.st, o);
      DeliverFresh(before, CloseCall(before.st, o, order[|order| - 1]));
    }
  }

  lemma EndFresh(m: Machine, o: Options)
    requires FreshIds(m)
    ensures FreshIds(EndNormally(m, o)) && FreshIds(EndInError(m))
  {
    ClosingAddsNone(m.st, o);
    DeliverFresh(m, CloseReasoning(m.st, o));
    var m1 := Deliver(m, CloseReasoning(m.st, o));
    ClosingAddsNone(m1.st, o);
    DeliverFresh(m1, CloseText(m1.st, o));
    var m2 := Deliver(m1, CloseText(m1.st, o));
    CallsInTurnFresh(m2, o, m2.st.toolOrder);
    var m3 := CloseEverything(m, o);
    DeliverFresh(m3, Bump(Filled(m3.st), [Terminal(ItemStatus(m3.st, o), FiledItems(m3.st))]));
    DeliverFresh(m, Bump(m.st.(holder := Blocked), [Failed(FiledItems(m.st))]));
  }

  /** In every stream all items have different ids, and all calls whose ids are made up different call ids. */
  lemma IdsDiffer(chunks: seq<Chunk>, o: Options)
    ensures AllDifferent(Convert(chunks, o).trace)
  {
    OnChunksFresh(o, BeforeError(chunks));
    EndFresh(OnChunks(Preamble(), o, BeforeError(chunks)), o);
  }
}
