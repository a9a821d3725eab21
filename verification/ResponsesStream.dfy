/** The Responses bridge as the program runs it: a stream state its helpers update in place, and
    a generator loop that yields what they return. */
module ResponsesStream {
  import opened Wrappers
  import opened Sequences
  import opened ChatChunks
  import opened ResponsesEvents
  import RB = ResponsesBridge

  class StreamState {
    const options: RB.Options
    var seqNo: nat
    var nextOi: nat
    var output: seq<(nat, Item)>
    var finish: string
    var reasoning: Option<RB.OpenText>
    var text: Option<RB.OpenText>
    var tools: map<int, RB.OpenCall>
    var toolOrder: seq<int>
    var holder: Holder
    var minted: nat
    /** The events yielded so far, and the state at each of those yields. */
    var emitted: seq<Event>
    ghost var trace: seq<RB.Yield>

    ghost predicate Valid()
      reads this
    {
      emitted == RB.EventsOf(trace)
    }

    function Value(): RB.State
      reads this
    {
      RB.State(seqNo, nextOi, output, finish, reasoning, text, tools, toolOrder, holder, minted)
    }

    ghost function Run(): RB.Machine
      reads this
    {
      RB.Machine(Value(), trace)
    }

    constructor (options: RB.Options)
      ensures Valid() && this.options == options && Run() == RB.Machine(RB.INITIAL, [])
    {
      this.options := options;
      seqNo, nextOi, output, finish, reasoning, text, tools, toolOrder := 0, 0, [], "", None, None, map[], [];
      holder, minted, emitted, trace := Unset, 0, [], [];
    }

    method Bump(payload: Payload) returns (e: Event)
      modifies this`seqNo
      ensures e == Event(old(seqNo), payload) && seqNo == old(seqNo) + 1
    {
      e := Event(seqNo, payload);
      seqNo := seqNo + 1;
    }

    method CloseReasoning() returns (events: seq<Event>)
      modifies this`seqNo, this`output, this`reasoning
      ensures RB.Batch(Value(), events) == RB.CloseReasoning(old(Value()), options)
    {
      if reasoning.None? { return []; }
      var r := reasoning.value;
      var full := Join(r.buf);
      var item := ReasoningItem(r.id, RB.FinishToStatus(finish, options.lengthAsCompleted), full);
      var e0 := Bump(TextDone(r.oi, r.id, ReasoningText, full));
      var e1 := Bump(PartDone(r.oi, r.id, ReasoningText, full));
      var e2 := Bump(ItemDone(r.oi, item));
      output := output + [(r.oi, item)];
      reasoning := None;
      events := [e0, e1, e2];
    }

    method OpenMessage(channel: Channel) returns (events: seq<Event>)
      modifies this`seqNo, this`nextOi, this`text, this`minted
      ensures RB.Batch(Value(), events) == RB.OpenMessage(old(Value()), channel)
    {
      var t := RB.OpenText(minted, nextOi, channel, []);
      minted := minted + 1;
      text := Some(t);
      nextOi := nextOi + 1;
      var e0 := Bump(ItemAdded(t.oi, t.id, MessageShell));
      var e1 := Bump(PartAdded(t.oi, t.id, channel));
      events := [e0, e1];
    }

    method CloseText() returns (events: seq<Event>)
      modifies this`seqNo, this`output, this`text
      ensures RB.Batch(Value(), events) == RB.CloseText(old(Value()), options)
    {
      if text.None? { return []; }
      var t := text.value;
      var full := Join(t.buf);
      var item := MessageItem(t.id, RB.FinishToStatus(finish, options.lengthAsCompleted), t.channel, full);
      var e0 := Bump(TextDone(t.oi, t.id, t.channel, full));
      var e1 := Bump(PartDone(t.oi, t.id, t.channel, full));
      var e2 := Bump(ItemDone(t.oi, item));
      output := output + [(t.oi, item)];
      text := None;
      events := [e0, e1, e2];
    }

    method CloseCall(idx: int) returns (events: seq<Event>)
      modifies this`seqNo, this`output, this`tools
      ensures RB.Batch(Value(), events) == RB.CloseCall(old(Value()), options, idx)
    {
      if idx !in tools { return []; }
      var t := tools[idx];
      var args := Join(t.buf);
      var item := CallItem(t.id, RB.FinishToStatus(finish, options.lengthAsCompleted), t.callId, t.name, args);
      var e0 := Bump(TextDone(t.oi, t.id, Arguments, args));
      var e1 := Bump(ItemDone(t.oi, item));
      output := output + [(t.oi, item)];
      tools := tools - {idx};
      events := [e0, e1];
    }

    method CloseAllCalls() returns (events: seq<Event>)
      modifies this`seqNo, this`output, this`tools
      ensures RB.Batch(Value(), events) == RB.CloseAllCalls(old(Value()), options)
    {
      events := [];
      var order := toolOrder;
      for i := 0 to |order|
        invariant RB.Batch(Value(), events) == RB.CloseCalls(old(Value()), options, order[..i])
      {
        var more := CloseCall(order[i]);
        events := events + more;
        assert order[..i + 1][..i] == order[..i];
      }
      assert order[..|order|] == order;
    }

    /** `for e in events: yield e`. */
    method YieldAll(events: seq<Event>)
      requires Valid()
      modifies this`emitted, this`trace
      ensures Valid() && trace == old(trace) + RB.Suspended(events, Value())
    {
      emitted := emitted + events;
      trace := trace + RB.Suspended(events, Value());
    }

    method YieldOne(payload: Payload)
      requires Valid()
      modifies this`seqNo, this`emitted, this`trace
      ensures Valid() && Run() == RB.Deliver(old(Run()), RB.Bump(old(Value()), [payload]))
    {
      var e := Bump(payload);
      YieldAll([e]);
      assert RB.Bump(old(Value()), [payload]).events == [e];
    }

    method EmitReasoning(piece: string)
      requires Valid()
      modifies this
      ensures Valid() && Run() == RB.OnReasoning(old(Run()), piece)
    {
      if reasoning.None? && text.None? && tools == map[] {
        var r := RB.OpenText(minted, nextOi, ReasoningText, []);
        minted := minted + 1;
        reasoning := Some(r);
        nextOi := nextOi + 1;
        YieldOne(ItemAdded(r.oi, r.id, ReasoningShell));
        YieldOne(PartAdded(r.oi, r.id, ReasoningText));
        assert Run() == RB.OpenReasoning(old(Run()));
      }
      if reasoning.Some? {
        var r := reasoning.value;
        reasoning := Some(r.(buf := r.buf + [piece]));
        YieldOne(Delta(r.oi, r.id, ReasoningText, piece));
      }
    }

    method CloseOthers()
      requires Valid()
      modifies this
      ensures Valid() && Run() == RB.CloseOthers(old(Run()), options)
    {
      var closed := CloseReasoning();
      YieldAll(closed);
      closed := CloseAllCalls();
      YieldAll(closed);
    }

    method HaveMessage(channel: Channel)
      requires Valid()
      modifies this
      ensures Valid() && Run() == RB.HaveMessage(old(Run()), options, channel)
      ensures text.Some?
    {
      if text.None? {
        var added := OpenMessage(channel);
        YieldAll(added);
      } else if text.value.channel != channel {
        var closed := CloseText();
        YieldAll(closed);
        var added := OpenMessage(channel);
        YieldAll(added);
      }
    }

    method EmitMessage(channel: Channel, piece: string)
      requires Valid()
      modifies this
      ensures Valid() && Run() == RB.OnMessage(old(Run()), options, channel, piece)
    {
      CloseOthers();
      HaveMessage(channel);
      var t := text.value;
      text := Some(t.(buf := t.buf + [piece]));
      YieldOne(Delta(t.oi, t.id, t.channel, piece));
    }

    method EmitArguments(idx: int, args: string)
      requires Valid() && idx in tools
      modifies this`tools, this`seqNo, this`emitted, this`trace
      ensures Valid() && Run() == RB.AppendArgs(old(Run()), idx, args)
    {
      if args != "" {
        var t := tools[idx];
        tools := tools[idx := t.(buf := t.buf + [args])];
        YieldOne(Delta(t.oi, t.id, Arguments, args));
      }
    }

    method OpenNewCall(idx: int, d: ToolDelta)
      requires Valid()
      modifies this
      ensures Valid() && Run() == RB.OpenNewCall(old(Run()), idx, d) && idx in tools
    {
      var callId := if d.id != "" then Given(d.id) else Minted(minted + 1);
      var t := RB.OpenCall(minted, nextOi, callId, d.id, d.name, []);
      minted := minted + 2;
      nextOi := nextOi + 1;
      tools := tools[idx := t];
      toolOrder := toolOrder + [idx];
      YieldOne(ItemAdded(t.oi, t.id, CallShell(callId, d.name)));
    }

    /** A call that had the index, reasoning and a message are closed for a new call. */
    method MakeRoom(idx: int)
      requires Valid()
      modifies this
      ensures Valid()
      ensures var m := old(Run());
              var m1 := if idx in m.st.tools then RB.Deliver(m, RB.CloseCall(m.st, options, idx)) else m;
              var m2 := RB.Deliver(m1, RB.CloseReasoning(m1.st, options));
              Run() == RB.Deliver(m2, RB.CloseText(m2.st, options))
    {
      if idx in tools {
        var closed := CloseCall(idx);
        YieldAll(closed);
      }
      var closed := CloseReasoning();
      YieldAll(closed);
      closed := CloseText();
      YieldAll(closed);
    }

    method HandleTool(d: ToolDelta)
      requires Valid()
      modifies this
      ensures Valid() && Run() == RB.OnTool(old(Run()), options, d)
    {
      if d.index.None? { return; }
      var idx := d.index.value;
      var isNewCall := RB.IsNewCall(tools, idx, d.id);
      if idx !in tools || isNewCall {
        MakeRoom(idx);
        OpenNewCall(idx, d);
      } else {
        tools := tools[idx := RB.Learn(tools[idx], d)];
      }
      EmitArguments(idx, d.args);
    }

    method HandleTools(ds: seq<ToolDelta>)
      requires Valid()
      modifies this
      ensures Valid() && Run() == RB.OnTools(old(Run()), options, ds)
    {
      for i := 0 to |ds|
        invariant Valid() && Run() == RB.OnTools(old(Run()), options, ds[..i])
      {
        HandleTool(ds[i]);
        assert ds[..i + 1][..i] == ds[..i];
      }
      assert ds[..|ds|] == ds;
    }

    method HandleChunk(c: Chunk)
      requires Valid()
      modifies this
      ensures Valid() && Run() == RB.OnChunk(old(Run()), options, c)
    {
      if !c.Choice? { return; }
      ghost var m := Run();
      if options.emitReasoning && c.reasoning != "" { EmitReasoning(c.reasoning); }
      assert Run() == RB.AtReasoning(m, options, c);
      if c.content != "" { EmitMessage(OutputText, c.content); }
      assert Run() == RB.AtContent(RB.AtReasoning(m, options, c), options, c);
      if c.refusal != "" { EmitMessage(RefusalText, c.refusal); }
      HandleTools(c.tools);
      if c.finish != "" { finish := c.finish; }
    }

    method CloseCallsInTurn()
      requires Valid()
      modifies this
      ensures Valid() && Run() == RB.CloseCallsInTurn(old(Run()), options, old(toolOrder))
    {
      var order := toolOrder;
      for i := 0 to |order|
        invariant Valid() && Run() == RB.CloseCallsInTurn(old(Run()), options, order[..i])
      {
        var closed := CloseCall(order[i]);
        YieldAll(closed);
        assert order[..i + 1][..i] == order[..i];
      }
      assert order[..|order|] == order;
    }

    method FinishNormally()
      requires Valid()
      modifies this
      ensures Valid() && Run() == RB.EndNormally(old(Run()), options)
    {
      var closed := CloseReasoning();
      YieldAll(closed);
      closed := CloseText();
      YieldAll(closed);
      CloseCallsInTurn();
      assert Run() == RB.CloseEverything(old(Run()), options);
      var final := RB.SortByIndex(output, nextOi);
      holder := RB.FinalizeHolder(holder, RB.PiecesOf(final));
      YieldOne(Terminal(RB.FinishToStatus(finish, options.lengthAsCompleted), final));
    }

    method FailUpstream()
      requires Valid()
      modifies this
      ensures Valid() && Run() == RB.EndInError(old(Run()))
    {
      holder := Blocked;
      YieldOne(Failed(RB.SortByIndex(output, nextOi)));
    }

    /** The `finally` block when the generator is closed in this state. */
    method Close() returns (kept: Holder)
      ensures kept == RB.HolderIfClosed(Value())
    {
      if holder != Unset { return holder; }
      var pairs := RB.ClosedPairs(output) + RB.TextPairs(text);
      var order := FirstOccurrences(toolOrder);
      for i := 0 to |order|
        invariant pairs == RB.ClosedPairs(output) + RB.TextPairs(text) + RB.CallPairs(tools, order[..i])
      {
        if order[i] in tools { pairs := pairs + [RB.CallPair(tools[order[i]])]; }
        assert order[..i + 1][..i] == order[..i];
      }
      assert order[..|order|] == order;
      kept := RB.FinalizeHolder(Unset, RB.SortByIndex(pairs, nextOi));
    }
  }

  lemma NextChunk(options: RB.Options, chunks: seq<Chunk>, i: nat)
    requires i < |chunks|
    ensures RB.OnChunks(RB.Preamble(), options, chunks[..i + 1])
            == RB.OnChunk(RB.OnChunks(RB.Preamble(), options, chunks[..i]), options, chunks[i])
  {
    assert chunks[..i + 1][..i] == chunks[..i];
  }

  /** The generator run to its end: the state it ends in, the events it yields, and the state at
      each yield are those of the specified conversion. */
  method StreamToResponsesEvents(chunks: seq<Chunk>, options: RB.Options)
    returns (out: seq<Event>, kept: Holder, ghost trace: seq<RB.Yield>)
    ensures trace == RB.Convert(chunks, options).trace && out == RB.EventsOf(trace)
    ensures kept == RB.HolderIfClosed(RB.Convert(chunks, options).st)
  {
    var state := new StreamState(options);
    state.YieldOne(Created);
    state.YieldOne(Started);
    assert state.Run() == RB.Preamble();
    for i := 0 to |chunks|
      invariant state.Valid() && fresh(state) && state.options == options
      invariant state.Run() == RB.OnChunks(RB.Preamble(), options, chunks[..i])
      invariant NoErrorBefore(chunks, i)
    {
      if chunks[i].UpstreamError? {
        StopsAtError(chunks, i);
        state.FailUpstream();
        kept := state.Close();
        return state.emitted, kept, state.trace;
      }
      NextChunk(options, chunks, i);
      state.HandleChunk(chunks[i]);
    }
    StopsAtError(chunks, |chunks|);
    assert chunks[..|chunks|] == chunks;
    state.FinishNormally();
    kept := state.Close();
    return state.emitted, kept, state.trace;
  }
}
