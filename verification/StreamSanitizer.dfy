/** The event sanitizer: a projection of arbitrary event sequences onto conforming ones. */
module StreamSanitizer {
  import opened Wrappers
  import opened Sequences
  import opened ChatChunks
  import opened AnthropicEvents

  predicate IsKnown(deltaKind: string) {
    deltaKind in {"text_delta", "thinking_delta", "signature_delta", "input_json_delta"}
  }

  /** The block types a known delta may appear in. */
  function CompatibleBlocks(deltaKind: string): set<string>
    requires IsKnown(deltaKind)
  {
    if deltaKind == "text_delta" then {"text"}
    else if deltaKind == "input_json_delta" then {"tool_use", "server_tool_use"}
    else {"thinking"}
  }

  function SyntheticBlock(deltaKind: string): Block
    requires IsKnown(deltaKind)
  {
    if deltaKind == "text_delta" then TEXT_BLOCK
    else if deltaKind == "input_json_delta" then ToolBlock(Given(""), "")
    else THINKING_BLOCK
  }

  predicate IsEmptyDelta(d: Delta) {
    IsKnown(d.kind) && d.payload == ""
  }

  /** The sanitizer's locals: `index` of the last block, and the type of the open one. */
  datatype State = State(seenMessageStart: bool, index: int, open: Option<string>)

  const INITIAL := State(false, -1, None)

  datatype Step = Step(st: State, events: seq<Event>)

  function CloseCurrent(st: State): seq<Event> {
    if st.open.Some? then [BlockStop(st.index, "")] else []
  }

  /** What happens to a delta: it goes, it gets a block of its own, or it passes into the open one. */
  datatype Fate = Drop | Wrap(block: Block) | Pass

  function FateOf(st: State, delta: Delta): Fate {
    if IsEmptyDelta(delta) then Drop
    else if IsKnown(delta.kind) && (st.open.None? || st.open.value !in CompatibleBlocks(delta.kind)) then
      Wrap(SyntheticBlock(delta.kind))
    else if st.open.None? then Drop
    else Pass
  }

  function OnDelta(st: State, delta: Delta, extra: string, fate: Fate): Step {
    match fate
    case Drop => Step(st, [])
    case Wrap(block) =>
      Step(st.(index := st.index + 1, open := Some(block.kind)),
           CloseCurrent(st) + [BlockStart(st.index + 1, block, ""), BlockDelta(st.index + 1, delta, extra)])
    case Pass => Step(st, [BlockDelta(st.index, delta, extra)])
  }

  /** What one upstream event becomes. */
  function OnEvent(st: State, e: Event): Step {
    match e
    case MessageStart(_) =>
      if st.seenMessageStart then Step(st, []) else Step(st.(seenMessageStart := true), [e])
    case BlockStart(_, block, extra) =>
      Step(st.(index := st.index + 1, open := Some(block.kind)),
           CloseCurrent(st) + [BlockStart(st.index + 1, block, extra)])
    case BlockDelta(_, delta, extra) => OnDelta(st, delta, extra, FateOf(st, delta))
    case BlockStop(_, _) => Step(st.(open := None), CloseCurrent(st))
    case MessageDelta(_, _) => Step(st.(open := None), CloseCurrent(st) + [e])
    case MessageStop(_) => Step(st.(open := None), CloseCurrent(st) + [e])
    case Error(_) => Step(st, [e])
    case Other(_) => Step(st, [e])
  }

  function Run(events: seq<Event>): Step {
    if events == [] then Step(INITIAL, [])
    else
      var before := Run(events[..|events| - 1]);
      var last := OnEvent(before.st, events[|events| - 1]);
      Step(last.st, before.events + last.events)
  }

  function Sanitize(events: seq<Event>): seq<Event> {
    Run(events).events
  }

  // ---- Conformance, read off the events alone ----------------------------------------------

  /** How many blocks an event sequence has started. */
  function Starts(events: seq<Event>): nat {
    |Filter(events, (e: Event) => e.BlockStart?)|
  }

  /** The type of the block left open by the events, by the last start or stop. */
  function OpenType(events: seq<Event>): Option<string> {
    if events == [] then None
    else
      var last := events[|events| - 1];
      if last.BlockStart? then Some(last.block.kind)
      else if last.BlockStop? then None
      else OpenType(events[..|events| - 1])
  }

  /** The deltas that have a payload to show. */
  predicate ShowsPayload(deltaKind: string) {
    || deltaKind == "text_delta" || deltaKind == "thinking_delta" || deltaKind == "signature_delta"
    || deltaKind == "input_json_delta"
  }

  predicate SaysNothing(d: Delta) {
    ShowsPayload(d.kind) && d.payload == ""
  }

  /** The blocks such a delta may stand in; any other delta may stand in every block. */
  predicate MayStandIn(deltaKind: string, blockKind: string) {
    && (deltaKind == "text_delta" ==> blockKind == "text")
    && (deltaKind == "thinking_delta" ==> blockKind == "thinking")
    && (deltaKind == "signature_delta" ==> blockKind == "thinking")
    && (deltaKind == "input_json_delta" ==> blockKind == "tool_use" || blockKind == "server_tool_use")
  }

  /** The sanitizer's own tests, in those terms. */
  lemma TestsAre(d: Delta)
    ensures IsKnown(d.kind) <==> ShowsPayload(d.kind)
    ensures IsEmptyDelta(d) <==> SaysNothing(d)
    ensures forall blockKind: string :: MayStandIn(d.kind, blockKind)
                                        <==> (IsKnown(d.kind) ==> blockKind in CompatibleBlocks(d.kind))
  {
  }

  /** Event `e` may follow `before` in a conforming stream. */
  predicate MayFollow(before: seq<Event>, e: Event) {
    match e
    case MessageStart(_) => forall k :: 0 <= k < |before| ==> !before[k].MessageStart?
    case BlockStart(index, _, _) => OpenType(before).None? && index == Starts(before)
    case BlockDelta(index, delta, _) =>
      && OpenType(before).Some? && index == Starts(before) - 1 && !SaysNothing(delta)
      && MayStandIn(delta.kind, OpenType(before).value)
    case BlockStop(index, extra) => OpenType(before).Some? && index == Starts(before) - 1 && extra == ""
    case MessageDelta(_, _) => OpenType(before).None?
    case MessageStop(_) => OpenType(before).None?
    case Error(_) => true
    case Other(_) => true
  }

  /** Well bracketed, consecutively indexed from 0, one `message_start`, compatible deltas. */
  predicate Conforms(events: seq<Event>) {
    forall k :: 0 <= k < |events| ==> MayFollow(events[..k], events[k])
  }

  lemma ConformsSnoc(events: seq<Event>, e: Event)
    ensures Conforms(events + [e]) <==> Conforms(events) && MayFollow(events, e)
  {
    var all := events + [e];
    assert all[..|events|] == events;
    assert forall k :: 0 <= k < |events| ==> all[..k] == events[..k] && all[k] == events[k];
    if Conforms(all) {
      assert MayFollow(all[..|events|], all[|events|]);
      forall k | 0 <= k < |events| ensures MayFollow(events[..k], events[k]) {
        assert MayFollow(all[..k], all[k]);
      }
    }
  }

  lemma OpenTypeSnoc(events: seq<Event>, e: Event)
    ensures OpenType(events + [e]) ==
            if e.BlockStart? then Some(e.block.kind) else if e.BlockStop? then None else OpenType(events)
    ensures Starts(events + [e]) == Starts(events) + (if e.BlockStart? then 1 else 0)
  {
    assert (events + [e])[..|events|] == events;
    FilterSnoc(events, e, (x: Event) => x.BlockStart?);
  }

  /** The sanitizer's locals describe what it has emitted. */
  predicate Describes(st: State, out: seq<Event>) {
    && Conforms(out)
    && st.index == Starts(out) - 1
    && st.open == OpenType(out)
    && (st.seenMessageStart <==> exists k :: 0 <= k < |out| && out[k].MessageStart?)
  }

  lemma Emit(st: State, out: seq<Event>, e: Event, st': State)
    requires Describes(st, out) && MayFollow(out, e)
    requires st'.index == st.index + (if e.BlockStart? then 1 else 0)
    requires st'.open == if e.BlockStart? then Some(e.block.kind) else if e.BlockStop? then None else st.open
    requires st'.seenMessageStart == (st.seenMessageStart || e.MessageStart?)
    ensures Describes(st', out + [e])
  {
    ConformsSnoc(out, e);
    OpenTypeSnoc(out, e);
    if e.MessageStart? { assert (out + [e])[|out|].MessageStart?; }
    if st.seenMessageStart {
      var k :| 0 <= k < |out| && out[k].MessageStart?;
      assert (out + [e])[k].MessageStart?;
    }
  }

  lemma EmitClose(st: State, out: seq<Event>)
    requires Describes(st, out)
    ensures Describes(st.(open := None), out + CloseCurrent(st))
  {
    if st.open.Some? {
      Emit(st, out, BlockStop(st.index, ""), st.(open := None));
    } else {
      assert out + CloseCurrent(st) == out;
    }
  }

  /** Close the current block, then emit one event that needs none open. */
  lemma CloseThenEmit(st: State, out: seq<Event>, e: Event, st': State)
    requires Describes(st, out) && !e.BlockDelta? && !e.BlockStop? && !e.MessageStart?
    requires e.BlockStart? ==> e.index == st.index + 1
    requires st' == State(st.seenMessageStart, st.index + (if e.BlockStart? then 1 else 0),
                          if e.BlockStart? then Some(e.block.kind) else None)
    ensures Describes(st', out + (CloseCurrent(st) + [e]))
  {
    EmitClose(st, out);
    Emit(st.(open := None), out + CloseCurrent(st), e, st');
    assert out + (CloseCurrent(st) + [e]) == out + CloseCurrent(st) + [e];
  }

  lemma TwoMore<T>(out: seq<T>, closing: seq<T>, a: T, b: T)
    ensures out + (closing + [a]) + [b] == out + (closing + [a, b])
  {
  }

  /** The delta may stand in a block of this type. */
  predicate Suits(delta: Delta, open: Option<string>) {
    open.Some? && !SaysNothing(delta) && MayStandIn(delta.kind, open.value)
  }

  lemma FateSuits(st: State, delta: Delta)
    ensures match FateOf(st, delta)
            case Drop => true
            case Wrap(block) => Suits(delta, Some(block.kind))
            case Pass => Suits(delta, st.open)
  {
    TestsAre(delta);
  }

  lemma EmitDelta(st: State, out: seq<Event>, delta: Delta, extra: string)
    requires Describes(st, out) && Suits(delta, st.open)
    ensures Describes(st, out + [BlockDelta(st.index, delta, extra)])
  {
    Emit(st, out, BlockDelta(st.index, delta, extra), st);
  }

  lemma OnDeltaDescribes(st: State, out: seq<Event>, delta: Delta, extra: string, fate: Fate)
    requires Describes(st, out)
    requires match fate
             case Drop => true
             case Wrap(block) => Suits(delta, Some(block.kind))
             case Pass => Suits(delta, st.open)
    ensures Describes(OnDelta(st, delta, extra, fate).st, out + OnDelta(st, delta, extra, fate).events)
  {
    match fate {
      case Drop => assert out + [] == out;
      case Pass => EmitDelta(st, out, delta, extra);
      case Wrap(block) =>
        var start, st' := BlockStart(st.index + 1, block, ""), OnDelta(st, delta, extra, fate).st;
        CloseThenEmit(st, out, start, st');
        EmitDelta(st', out + (CloseCurrent(st) + [start]), delta, extra);
        TwoMore(out, CloseCurrent(st), start, BlockDelta(st.index + 1, delta, extra));
    }
  }

  lemma OnEventDescribes(st: State, out: seq<Event>, e: Event)
    requires Describes(st, out)
    ensures Describes(OnEvent(st, e).st, out + OnEvent(st, e).events)
  {
    var step := OnEvent(st, e);
    match e {
      case MessageStart(_) =>
        if st.seenMessageStart { assert out + [] == out; } else { Emit(st, out, e, step.st); }
      case BlockStart(_, block, extra) =>
        CloseThenEmit(st, out, BlockStart(st.index + 1, block, extra), step.st);
      case BlockDelta(_, delta, extra) =>
        FateSuits(st, delta);
        OnDeltaDescribes(st, out, delta, extra, FateOf(st, delta));
      case BlockStop(_, _) => EmitClose(st, out);
      case MessageDelta(_, _) => CloseThenEmit(st, out, e, step.st);
      case MessageStop(_) => CloseThenEmit(st, out, e, step.st);
      case Error(_) => Emit(st, out, e, st);
      case Other(_) => Emit(st, out, e, st);
    }
  }

  lemma {:induction false} RunDescribes(events: seq<Event>)
    ensures Describes(Run(events).st, Sanitize(events))
  {
    if events == [] {
    } else {
      var front, last := events[..|events| - 1], events[|events| - 1];
      RunDescribes(front);
      OnEventDescribes(Run(front).st, Sanitize(front), last);
    }
  }

  /** Whatever comes in, what goes out conforms. */
  lemma SanitizeConforms(events: seq<Event>)
    ensures Conforms(Sanitize(events))
  {
    RunDescribes(events);
  }

  /** A conforming event passes unchanged. */
  lemma OnConformingEvent(st: State, out: seq<Event>, e: Event)
    requires Describes(st, out) && MayFollow(out, e)
    ensures OnEvent(st, e).events == [e]
  {
    if e.BlockDelta? { TestsAre(e.delta); }
  }

  lemma {:induction false} ConformingUnchanged(events: seq<Event>)
    requires Conforms(events)
    ensures Sanitize(events) == events
  {
    if events == [] {
    } else {
      var front, last := events[..|events| - 1], events[|events| - 1];
      assert events == front + [last];
      ConformsSnoc(front, last);
      ConformingUnchanged(front);
      RunDescribes(front);
      OnConformingEvent(Run(front).st, front, last);
    }
  }

  /** The sanitizer leaves a stream alone exactly when it conforms. */
  lemma FixedPointsConform(events: seq<Event>)
    ensures Sanitize(events) == events <==> Conforms(events)
  {
    SanitizeConforms(events);
    if Conforms(events) { ConformingUnchanged(events); }
  }

  lemma SanitizeIdempotent(events: seq<Event>)
    ensures Sanitize(Sanitize(events)) == Sanitize(events)
  {
    SanitizeConforms(events);
    ConformingUnchanged(Sanitize(events));
  }

  // ---- Nothing that matters is lost --------------------------------------------------------

  /** What a client must not lose: non-empty known payloads, and everything but block framing. */
  predicate IsEssential(e: Event) {
    match e
    case BlockDelta(_, delta, _) => ShowsPayload(delta.kind) && delta.payload != ""
    case MessageDelta(_, _) => true
    case MessageStop(_) => true
    case Error(_) => true
    case Other(_) => true
    case _ => false
  }

  /** The event up to its block index, which the sanitizer renumbers. */
  function Unindexed(e: Event): Event {
    if e.BlockDelta? then e.(index := 0) else e
  }

  function EssenceOf(e: Event): seq<Event> {
    if IsEssential(e) then [Unindexed(e)] else []
  }

  function Essence(events: seq<Event>): seq<Event> {
    if events == [] then [] else Essence(events[..|events| - 1]) + EssenceOf(events[|events| - 1])
  }

  lemma EssenceSnoc(events: seq<Event>, e: Event)
    ensures Essence(events + [e]) == Essence(events) + EssenceOf(e)
  {
    assert (events + [e])[..|events|] == events;
  }

  lemma {:induction false} EssenceAppend(a: seq<Event>, b: seq<Event>)
    ensures Essence(a + b) == Essence(a) + Essence(b)
  {
    if b == [] {
      assert a + b == a;
    } else {
      var front, last := b[..|b| - 1], b[|b| - 1];
      EssenceAppend(a, front);
      EssenceSnoc(a + front, last);
      SnocRegroup(a, b);
      Regroup(Essence(a), Essence(front), EssenceOf(last));
    }
  }

  lemma EssenceOne(e: Event)
    ensures Essence([e]) == EssenceOf(e)
  {
    assert [e][..0] == [];
  }

  lemma ClosingHasNoEssence(st: State, rest: seq<Event>)
    ensures Essence(CloseCurrent(st) + rest) == Essence(rest)
  {
    EssenceAppend(CloseCurrent(st), rest);
    if st.open.Some? { EssenceOne(BlockStop(st.index, "")); }
  }

  /** A synthetic block around a delta adds nothing to it. */
  lemma SyntheticEssence(st: State, start: Event, e: Event, out: seq<Event>)
    requires start.BlockStart? && out == CloseCurrent(st) + [start, e]
    ensures Essence(out) == EssenceOf(e)
  {
    ClosingHasNoEssence(st, [start, e]);
    EssenceOne(start);
    EssenceSnoc([start], e);
    assert [start] + [e] == [start, e];
  }

  lemma DropsNothingEssential(st: State, e: Event)
    requires e.BlockDelta? && FateOf(st, e.delta).Drop?
    ensures EssenceOf(e) == []
  {
    TestsAre(e.delta);
  }

  lemma MovedEssence(e: Event, index: int)
    requires e.BlockDelta?
    ensures EssenceOf(BlockDelta(index, e.delta, e.extra)) == EssenceOf(e)
  {
  }

  lemma DeltaEssence(st: State, e: Event, fate: Fate)
    requires e.BlockDelta? && (fate.Drop? ==> EssenceOf(e) == [])
    ensures Essence(OnDelta(st, e.delta, e.extra, fate).events) == EssenceOf(e)
  {
    match fate {
      case Drop => assert OnDelta(st, e.delta, e.extra, fate).events == [];
      case Wrap(block) =>
        SyntheticEssence(st, BlockStart(st.index + 1, block, ""), BlockDelta(st.index + 1, e.delta, e.extra),
                         OnDelta(st, e.delta, e.extra, fate).events);
        MovedEssence(e, st.index + 1);
      case Pass =>
        EssenceOne(BlockDelta(st.index, e.delta, e.extra));
        MovedEssence(e, st.index);
    }
  }

  lemma OnEventEssence(st: State, e: Event)
    ensures Essence(OnEvent(st, e).events) == EssenceOf(e)
  {
    EssenceOne(e);
    match e {
      case BlockStart(_, block, extra) =>
        ClosingHasNoEssence(st, [BlockStart(st.index + 1, block, extra)]);
        EssenceOne(BlockStart(st.index + 1, block, extra));
      case BlockDelta(_, delta, _) =>
        if FateOf(st, delta).Drop? { DropsNothingEssential(st, e); }
        DeltaEssence(st, e, FateOf(st, delta));
      case BlockStop(_, _) =>
        ClosingHasNoEssence(st, []);
        assert CloseCurrent(st) + [] == CloseCurrent(st);
      case MessageDelta(_, _) => ClosingHasNoEssence(st, [e]);
      case MessageStop(_) => ClosingHasNoEssence(st, [e]);
      case _ =>
    }
  }

  lemma EssenceGrows(out: seq<Event>, more: seq<Event>, events: seq<Event>)
    requires events != [] && Essence(out) == Essence(events[..|events| - 1])
    requires Essence(more) == EssenceOf(events[|events| - 1])
    ensures Essence(out + more) == Essence(events)
  {
    EssenceAppend(out, more);
  }

  /** What the last event adds to the output. */
  lemma LastAdds(events: seq<Event>) returns (more: seq<Event>)
    requires events != []
    ensures Sanitize(events) == Sanitize(events[..|events| - 1]) + more
    ensures Essence(more) == EssenceOf(events[|events| - 1])
  {
    var st, last := Run(events[..|events| - 1]).st, events[|events| - 1];
    more := OnEvent(st, last).events;
    OnEventEssence(st, last);
  }

  /** Every essential event comes out once, in order, with its payload. */
  lemma {:induction false} SanitizeKeepsEssence(events: seq<Event>)
    ensures Essence(Sanitize(events)) == Essence(events)
  {
    if events == [] {
    } else {
      SanitizeKeepsEssence(events[..|events| - 1]);
      var more := LastAdds(events);
      EssenceGrows(Sanitize(events[..|events| - 1]), more, events);
    }
  }

  // ---- Where the blocks come from ---------------------------------------------------------------------------

  /** The block starts among the events. */
  function StartsIn(events: seq<Event>): seq<Event> {
    if events == [] then []
    else StartsIn(events[..|events| - 1]) + (if events[|events| - 1].BlockStart? then [events[|events| - 1]] else [])
  }

  lemma StartsInSnoc(events: seq<Event>, e: Event)
    ensures StartsIn(events + [e]) == StartsIn(events) + (if e.BlockStart? then [e] else [])
  {
    assert (events + [e])[..|events|] == events;
  }

  lemma {:induction false} StartsInAppend(a: seq<Event>, b: seq<Event>)
    ensures StartsIn(a + b) == StartsIn(a) + StartsIn(b)
  {
    if b == [] {
      assert a + b == a;
    } else {
      var front, last := b[..|b| - 1], b[|b| - 1];
      StartsInAppend(a, front);
      StartsInSnoc(a + front, last);
      SnocRegroup(a, b);
      Regroup(StartsIn(a), StartsIn(front), if last.BlockStart? then [last] else []);
    }
  }

  /** A block starts as upstream started it, or is an empty one around a delta that had none to stand in. */
  predicate StartedFor(start: Event, e: Event) {
    start.BlockStart?
    && match e
       case BlockStart(_, block, extra) => start.block == block && start.extra == extra
       case BlockDelta(_, delta, _) =>
         && delta.payload != "" && start.extra == ""
         && if delta.kind == "text_delta" then start.block == Block("text", Plain)
            else if delta.kind == "input_json_delta" then start.block == Block("tool_use", Tool(Given(""), ""))
            else start.block == Block("thinking", Plain)
                 && (delta.kind == "thinking_delta" || delta.kind == "signature_delta")
       case _ => false
  }

  /** `origin` tells the upstream event for which each block starts: one after the other, none twice, and every
      upstream start among them. */
  ghost predicate StartsFrom(starts: seq<Event>, events: seq<Event>, origin: seq<nat>) {
    && |origin| == |starts|
    && (forall i, j :: 0 <= i < j < |origin| ==> origin[i] < origin[j])
    && (forall k :: 0 <= k < |origin| ==> origin[k] < |events| && StartedFor(starts[k], events[origin[k]]))
    && (forall i :: 0 <= i < |events| && events[i].BlockStart? ==> i in origin)
  }

  /** What closing the block, then these events start. */
  lemma ClosingStartsNothing(st: State, rest: seq<Event>, out: seq<Event>)
    requires out == CloseCurrent(st) + rest
    ensures StartsIn(out) == StartsIn(rest)
  {
    StartsInAppend(CloseCurrent(st), rest);
    if st.open.Some? { StartsInSnoc([], BlockStop(st.index, "")); }
  }

  lemma OneStart(e: Event)
    ensures StartsIn([e]) == if e.BlockStart? then [e] else []
  {
    StartsInSnoc([], e);
    assert [] + [e] == [e];
  }

  /** A block that is made up is the empty one for its delta. */
  lemma MadeUpFor(st: State, e: Event) returns (fate: Fate)
    requires e.BlockDelta?
    ensures OnEvent(st, e) == OnDelta(st, e.delta, e.extra, fate)
    ensures fate.Wrap? ==> StartedFor(BlockStart(st.index + 1, fate.block, ""), e)
  {
    TestsAre(e.delta);
    fate := FateOf(st, e.delta);
  }

  lemma OneStartOfTwo(st: State, start: Event, e: Event, out: seq<Event>)
    requires start.BlockStart? && !e.BlockStart? && out == CloseCurrent(st) + [start, e]
    ensures StartsIn(out) == [start]
  {
    ClosingStartsNothing(st, [start, e], out);
    StartsInSnoc([start], e);
    OneStart(start);
    assert [start] + [e] == [start, e];
  }

  lemma StartOfDelta(st: State, delta: Delta, extra: string, fate: Fate)
    ensures StartsIn(OnDelta(st, delta, extra, fate).events)
            == if fate.Wrap? then [BlockStart(st.index + 1, fate.block, "")] else []
  {
    match fate {
      case Drop =>
      case Pass => OneStart(BlockDelta(st.index, delta, extra));
      case Wrap(block) =>
        OneStartOfTwo(st, BlockStart(st.index + 1, block, ""), BlockDelta(st.index + 1, delta, extra),
                      OnDelta(st, delta, extra, fate).events);
    }
  }

  lemma StartOfOther(st: State, e: Event, out: seq<Event>)
    requires !e.BlockDelta? && out == OnEvent(st, e).events
    ensures StartsIn(out) == if e.BlockStart? then [BlockStart(st.index + 1, e.block, e.extra)] else []
  {
    if e.BlockStart? {
      OneStart(BlockStart(st.index + 1, e.block, e.extra));
      ClosingStartsNothing(st, [BlockStart(st.index + 1, e.block, e.extra)], out);
    } else if e.MessageDelta? || e.MessageStop? {
      OneStart(e);
      ClosingStartsNothing(st, [e], out);
    } else if e.BlockStop? {
      ClosingStartsNothing(st, [], out);
    } else {
      OneStart(e);
    }
  }

  lemma SameStart(index: int, e: Event)
    requires e.BlockStart?
    ensures StartedFor(BlockStart(index, e.block, e.extra), e)
  {
  }

  lemma StartOfEvent(st: State, e: Event) returns (starts: seq<Event>)
    ensures starts == StartsIn(OnEvent(st, e).events) && |starts| <= 1
    ensures starts != [] ==> StartedFor(starts[0], e)
    ensures e.BlockStart? ==> starts != []
  {
    starts := StartsIn(OnEvent(st, e).events);
    if e.BlockDelta? {
      var fate := MadeUpFor(st, e);
      StartOfDelta(st, e.delta, e.extra, fate);
    } else {
      StartOfOther(st, e, OnEvent(st, e).events);
      if e.BlockStart? { SameStart(st.index + 1, e); }
    }
  }

  lemma StartsFromNext(starts: seq<Event>, events: seq<Event>, origin: seq<nat>, e: Event, more: seq<Event>)
    returns (longer: seq<nat>)
    requires StartsFrom(starts, events, origin) && |more| <= 1
    requires (more != [] ==> StartedFor(more[0], e)) && (e.BlockStart? ==> more != [])
    ensures StartsFrom(starts + more, events + [e], longer)
  {
    longer := if more == [] then origin else origin + [|events|];
    var all := events + [e];
    forall i | 0 <= i < |all| && all[i].BlockStart? ensures i in longer {
      if i < |events| {
        assert events[i] == all[i] && i in origin;
      } else {
        assert longer[|origin|] == i;
      }
    }
  }

  /** Every block that upstream starts comes out in order as it was started; each other one that comes out is
      empty and opened for a delta. */
  lemma {:induction false} BlocksKept(events: seq<Event>) returns (origin: seq<nat>)
    ensures StartsFrom(StartsIn(Sanitize(events)), events, origin)
  {
    if events == [] {
      origin := [];
    } else {
      var front, last := events[..|events| - 1], events[|events| - 1];
      origin := BlocksKept(front);
      var more := StartOfEvent(Run(front).st, last);
      StartsInAppend(Sanitize(front), OnEvent(Run(front).st, last).events);
      origin := StartsFromNext(StartsIn(Sanitize(front)), front, origin, last, more);
      assert front + [last] == events;
    }
  }

  lemma NextEvent(upstream: seq<Event>, i: nat)
    requires i < |upstream|
    ensures var before, after := Run(upstream[..i]), Run(upstream[..i + 1]);
            var step := OnEvent(before.st, upstream[i]);
            after.st == step.st && after.events == before.events + step.events
  {
    assert upstream[..i + 1][..i] == upstream[..i];
  }

  /** One delta: what goes out for it, and the locals afterwards. */
  method HandleDelta(delta: Delta, extra: string, index: int, blockType: Option<string>, ghost seen: bool)
    returns (events: seq<Event>, currentIndex: int, currentBlockType: Option<string>)
    ensures var st := State(seen, index, blockType);
            Step(State(seen, currentIndex, currentBlockType), events) == OnDelta(st, delta, extra, FateOf(st, delta))
  {
    events, currentIndex, currentBlockType := [], index, blockType;
    if !IsEmptyDelta(delta) {
      if IsKnown(delta.kind)
         && (currentBlockType.None? || currentBlockType.value !in CompatibleBlocks(delta.kind)) {
        if currentBlockType.Some? { events := events + [BlockStop(currentIndex, "")]; }
        currentIndex := currentIndex + 1;
        var block := SyntheticBlock(delta.kind);
        currentBlockType := Some(block.kind);
        events := events + [BlockStart(currentIndex, block, "")];
      }
      if currentBlockType.Some? { events := events + [BlockDelta(currentIndex, delta, extra)]; }
    }
  }

  /** The loop itself. */
  method SanitizeEvents(upstream: seq<Event>) returns (out: seq<Event>)
    ensures out == Sanitize(upstream)
  {
    out := [];
    var seenMessageStart, currentIndex := false, -1;
    var currentBlockType: Option<string> := None;
    for i := 0 to |upstream|
      invariant Run(upstream[..i]) == Step(State(seenMessageStart, currentIndex, currentBlockType), out)
    {
      var e := upstream[i];
      NextEvent(upstream, i);
      var closing := if currentBlockType.Some? then [BlockStop(currentIndex, "")] else [];
      match e {
        case MessageStart(_) =>
          if !seenMessageStart {
            seenMessageStart := true;
            out := out + [e];
          }
        case BlockStart(_, block, extra) =>
          currentIndex := currentIndex + 1;
          currentBlockType := Some(block.kind);
          out := out + (closing + [BlockStart(currentIndex, block, extra)]);
        case BlockDelta(_, delta, extra) =>
          var events;
          events, currentIndex, currentBlockType :=
            HandleDelta(delta, extra, currentIndex, currentBlockType, seenMessageStart);
          out := out + events;
        case BlockStop(_, _) =>
          out := out + closing;
          currentBlockType := None;
        case MessageDelta(_, _) =>
          out := out + (closing + [e]);
          currentBlockType := None;
        case MessageStop(_) =>
          out := out + (closing + [e]);
          currentBlockType := None;
        case Error(_) => out := out + [e];
        case Other(_) => out := out + [e];
      }
    }
    assert upstream[..|upstream|] == upstream;
  }
}
