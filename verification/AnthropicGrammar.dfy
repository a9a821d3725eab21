/** The Anthropic stream grammar as a client reads it: message_start, then blocks numbered from 0
    each start delta* stop with no two adjacent blocks of one kind unless both are calls, then
    message_delta and message_stop; or a prefix of that followed by one error. */
module AnthropicGrammar {
  import opened Wrappers
  import opened ChatChunks
  import opened AnthropicEvents
  import StreamSanitizer

  datatype Phase = Before | Inside | Closing | Ended | Failed

  /** A block as the client accumulates it. */
  datatype Shown = Shown(block: Block, deltas: seq<Delta>)

  datatype View = View(phase: Phase, blocks: seq<Shown>, open: bool)

  const NOTHING := View(Before, [], false)

  /** The one delta type the bridge sends in a block type. */
  predicate Fits(deltaKind: string, blockKind: string) {
    || (deltaKind == "text_delta" && blockKind == "text")
    || (deltaKind == "thinking_delta" && blockKind == "thinking")
    || (deltaKind == "input_json_delta" && blockKind == "tool_use")
  }

  function AddDelta(blocks: seq<Shown>, d: Delta): seq<Shown>
    requires blocks != []
  {
    var k := |blocks| - 1;
    blocks[k := blocks[k].(deltas := blocks[k].deltas + [d])]
  }

  function Watch(v: View, e: Event): Option<View> {
    match e
    case MessageStart(_) => if v.phase == Before then Some(v.(phase := Inside)) else None
    case BlockStart(index, block, extra) =>
      if v.phase == Inside && !v.open && index == |v.blocks| && extra == ""
         && (block.kind == "tool_use" || v.blocks == [] || v.blocks[|v.blocks| - 1].block.kind != block.kind)
      then Some(v.(blocks := v.blocks + [Shown(block, [])], open := true)) else None
    case BlockDelta(index, delta, extra) =>
      if v.phase == Inside && v.open && v.blocks != [] && index == |v.blocks| - 1 && extra == ""
         && delta.payload != "" && Fits(delta.kind, v.blocks[|v.blocks| - 1].block.kind)
      then Some(v.(blocks := AddDelta(v.blocks, delta))) else None
    case BlockStop(index, extra) =>
      if v.phase == Inside && v.open && index == |v.blocks| - 1 && extra == ""
      then Some(v.(open := false)) else None
    case MessageDelta(_, _) => if v.phase == Inside && !v.open then Some(v.(phase := Closing)) else None
    case MessageStop(_) => if v.phase == Closing then Some(v.(phase := Ended)) else None
    case Error(_) => if v.phase == Before || v.phase == Inside then Some(v.(phase := Failed)) else None
    case Other(_) => None
  }

  function WatchFrom(v: View, events: seq<Event>): Option<View> {
    if events == [] then Some(v)
    else match WatchFrom(v, events[..|events| - 1])
      case None => None
      case Some(u) => Watch(u, events[|events| - 1])
  }

  lemma {:induction false} WatchFromAppend(v: View, a: seq<Event>, b: seq<Event>)
    requires WatchFrom(v, a).Some?
    ensures WatchFrom(v, a + b) == WatchFrom(WatchFrom(v, a).value, b)
  {
    if b == [] {
      assert a + b == a;
    } else {
      WatchFromAppend(v, a, b[..|b| - 1]);
      assert (a + b)[..|a + b| - 1] == a + b[..|b| - 1];
    }
  }

  lemma WatchSnoc(v: View, events: seq<Event>, e: Event)
    requires WatchFrom(v, events).Some?
    ensures WatchFrom(v, events + [e]) == Watch(WatchFrom(v, events).value, e)
  {
    assert (events + [e])[..|events|] == events;
  }

  // ---- The grammar is a special case of what the sanitizer lets through ---------------------

  predicate Agree(v: View, events: seq<Event>) {
    && StreamSanitizer.Starts(events) == |v.blocks|
    && (v.open ==> v.blocks != [] && StreamSanitizer.OpenType(events) == Some(v.blocks[|v.blocks| - 1].block.kind))
    && (!v.open ==> StreamSanitizer.OpenType(events) == None)
    && (v.phase == Before ==> forall k :: 0 <= k < |events| ==> !events[k].MessageStart?)
    && (v.phase in {Closing, Ended} ==> !v.open)
  }

  lemma AgreeSnoc(v: View, events: seq<Event>, e: Event)
    requires Agree(v, events) && Watch(v, e).Some?
    ensures StreamSanitizer.MayFollow(events, e) && Agree(Watch(v, e).value, events + [e])
  {
    StreamSanitizer.OpenTypeSnoc(events, e);
    if e.BlockDelta? {
      assert AddDelta(v.blocks, e.delta)[|v.blocks| - 1].block == v.blocks[|v.blocks| - 1].block;
    }
  }

  lemma {:induction false} GrammarConforms(events: seq<Event>)
    requires WatchFrom(NOTHING, events).Some?
    ensures StreamSanitizer.Conforms(events) && Agree(WatchFrom(NOTHING, events).value, events)
  {
    if events == [] {
    } else {
      var front, last := events[..|events| - 1], events[|events| - 1];
      assert events == front + [last];
      GrammarConforms(front);
      AgreeSnoc(WatchFrom(NOTHING, front).value, front, last);
      StreamSanitizer.ConformsSnoc(front, last);
    }
  }

  /** The sanitizer behind the bridge leaves every grammatical stream alone. */
  lemma SanitizerLeavesGrammarAlone(events: seq<Event>)
    requires WatchFrom(NOTHING, events).Some?
    ensures StreamSanitizer.Sanitize(events) == events
  {
    GrammarConforms(events);
    StreamSanitizer.ConformingUnchanged(events);
  }
}
