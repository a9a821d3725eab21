/** An independent reading of the Responses stream protocol, as a client sees it.

    `Watch` accepts one more event or rejects the stream. It checks the sequence numbers,
    the density of output indices, the added / part / delta / done lifecycle of every item
    with the text it claims, and the terminal `output[]`. */
module ResponsesMonitor {
  import opened Wrappers
  import opened ChatChunks
  import opened ResponsesEvents

  datatype Phase = Bare | Open | TextClosed | PartClosed | Done(item: Item)

  /** What the client has seen of one output item. */
  datatype Seen = Seen(id: nat, shell: Shell, channel: Option<Channel>, text: string, phase: Phase)

  datatype Stage = Opening | Greeting | Live | Finished | Broken

  datatype View = View(stage: Stage, count: nat, items: seq<Seen>)

  const NOTHING := View(Opening, 0, [])

  /** The item a client expects to be closed, given what it has seen of it. */
  predicate Closes(seen: Seen, item: Item) {
    && item.id == seen.id
    && item.status != InProgress
    && match seen.shell {
         case ReasoningShell => seen.phase == PartClosed && item.ReasoningItem? && item.text == seen.text
         case MessageShell =>
           seen.phase == PartClosed && item.MessageItem? && seen.channel == Some(item.channel) && item.text == seen.text
         case CallShell(callId, name) =>
           seen.phase == TextClosed && item.CallItem? && item.callId == callId && item.args == seen.text
           && (name == "" || item.name == name)
       }
  }

  function DoneItems(items: seq<Seen>): seq<Item> {
    if items == [] then []
    else
      var last := items[|items| - 1];
      DoneItems(items[..|items| - 1]) + (if last.phase.Done? then [last.phase.item] else [])
  }

  predicate AllDone(items: seq<Seen>) {
    forall k :: 0 <= k < |items| ==> items[k].phase.Done?
  }

  function WatchPayload(v: View, p: Payload): Option<View> {
    match p
    case Created => if v.stage == Opening then Some(v.(stage := Greeting)) else None
    case Started => if v.stage == Greeting then Some(v.(stage := Live)) else None
    case ItemAdded(oi, id, shell) =>
      if v.stage == Live && oi == |v.items|
      then Some(v.(items := v.items + [if shell.CallShell? then Seen(id, shell, Some(Arguments), "", Open)
                                       else Seen(id, shell, None, "", Bare)]))
      else None
    case PartAdded(oi, id, channel) =>
      if v.stage == Live && oi < |v.items| && v.items[oi].id == id && v.items[oi].phase == Bare
         && v.items[oi].text == "" && channel != Arguments
         && (v.items[oi].shell == ReasoningShell <==> channel == ReasoningText)
      then Some(v.(items := v.items[oi := v.items[oi].(channel := Some(channel), phase := Open)]))
      else None
    case Delta(oi, id, channel, text) =>
      if v.stage == Live && oi < |v.items| && v.items[oi].id == id && v.items[oi].phase == Open
         && v.items[oi].channel == Some(channel) && text != ""
      then Some(v.(items := v.items[oi := v.items[oi].(text := v.items[oi].text + text)]))
      else None
    case TextDone(oi, id, channel, text) =>
      if v.stage == Live && oi < |v.items| && v.items[oi].id == id && v.items[oi].phase == Open
         && v.items[oi].channel == Some(channel) && v.items[oi].text == text
      then Some(v.(items := v.items[oi := v.items[oi].(phase := TextClosed)]))
      else None
    case PartDone(oi, id, channel, text) =>
      if v.stage == Live && oi < |v.items| && v.items[oi].id == id && v.items[oi].phase == TextClosed
         && v.items[oi].channel == Some(channel) && channel != Arguments && v.items[oi].text == text
      then Some(v.(items := v.items[oi := v.items[oi].(phase := PartClosed)]))
      else None
    case ItemDone(oi, item) =>
      if v.stage == Live && oi < |v.items| && Closes(v.items[oi], item)
      then Some(v.(items := v.items[oi := v.items[oi].(phase := Done(item))]))
      else None
    case Failed(output) =>
      if v.stage == Live && output == DoneItems(v.items) then Some(v.(stage := Broken)) else None
    case Terminal(status, output) =>
      if v.stage == Live && AllDone(v.items) && output == DoneItems(v.items) && status != InProgress
      then Some(v.(stage := Finished)) else None
  }

  /** One more event: its number must be the count of the events before it. */
  function Watch(v: View, e: Event): Option<View> {
    if e.seqNo != v.count then None
    else match WatchPayload(v, e.payload)
      case None => None
      case Some(u) => Some(u.(count := v.count + 1))
  }

  function WatchFrom(v: View, events: seq<Event>): Option<View> {
    if events == [] then Some(v)
    else match WatchFrom(v, events[..|events| - 1])
      case None => None
      case Some(u) => Watch(u, events[|events| - 1])
  }

  /** All the text carried on one channel, in output order. */
  function Texts(items: seq<Seen>, channel: Channel): string {
    if items == [] then "" else Texts(items[..|items| - 1], channel) + TextOf(items[|items| - 1], channel)
  }

  function TextOf(seen: Seen, channel: Channel): string {
    if seen.channel == Some(channel) then seen.text else ""
  }

  /** The announced calls with the argument text delivered for each. */
  function Calls(items: seq<Seen>): seq<ToolCall> {
    if items == [] then [] else Calls(items[..|items| - 1]) + CallOf(items[|items| - 1])
  }

  function CallOf(seen: Seen): seq<ToolCall> {
    if seen.shell.CallShell? then [ToolCall(seen.shell.callId, seen.shell.name, seen.text)] else []
  }

  /** The assistant text of a turn: its output text, or its refusal when there is none. */
  function AssistantText(items: seq<Seen>): string {
    if Texts(items, OutputText) != "" then Texts(items, OutputText) else Texts(items, RefusalText)
  }

  /** Same calls in the same order; a call announced without a name may have learnt it since. */
  predicate SameCalls(kept: seq<ToolCall>, seen: seq<ToolCall>) {
    && |kept| == |seen|
    && forall i :: 0 <= i < |seen| ==>
         kept[i].id == seen[i].id && kept[i].args == seen[i].args
         && (seen[i].name == "" || kept[i].name == seen[i].name)
  }

  /** The transcript entry says what the events carried; no entry when they carried nothing. */
  predicate Records(holder: Holder, items: seq<Seen>) {
    var text, calls := AssistantText(items), Calls(items);
    match holder
    case Unset => text == "" && calls == []
    case Blocked => false
    case Stored(content, toolCalls) =>
      (text != "" || calls != []) && content == text && SameCalls(toolCalls, calls)
  }

  lemma {:induction false} WatchFromAppend(v: View, a: seq<Event>, b: seq<Event>)
    requires WatchFrom(v, a).Some?
    ensures WatchFrom(v, a + b) == WatchFrom(WatchFrom(v, a).value, b)
  {
    if b == [] {
      assert a + b == a;
    } else {
      WatchFromAppend(v, a, b[..|b| - 1]);
      assert (a + b)[..|a + b| - 1] == a + b[..|b| - 1];
    }
  }

  /** Events that close things carry nothing new. */
  predicate Quiet(p: Payload) {
    p.PartAdded? || p.TextDone? || p.PartDone? || p.ItemDone?
  }

  /** An item update that keeps the shell and the text read on the message channels. */
  predicate SameContent(a: Seen, b: Seen) {
    && a.shell == b.shell && a.text == b.text
    && (a.channel == b.channel || a.text == "")
  }

  lemma {:induction false} UpdateKeepsContent(items: seq<Seen>, k: nat, x: Seen)
    requires k < |items| && SameContent(items[k], x)
    ensures Calls(items[k := x]) == Calls(items)
    ensures Texts(items[k := x], OutputText) == Texts(items, OutputText)
    ensures Texts(items[k := x], RefusalText) == Texts(items, RefusalText)
  {
    var n := |items| - 1;
    if k == n {
      assert items[k := x][..n] == items[..n];
    } else {
      UpdateKeepsContent(items[..n], k, x);
      assert items[k := x][..n] == items[..n][k := x];
    }
  }

  lemma QuietKeepsContent(v: View, e: Event)
    requires Quiet(e.payload) && Watch(v, e).Some?
    ensures Calls(Watch(v, e).value.items) == Calls(v.items)
    ensures AssistantText(Watch(v, e).value.items) == AssistantText(v.items)
  {
    var u := Watch(v, e).value;
    var oi := e.payload.oi;
    assert u.items == v.items[oi := u.items[oi]];
    UpdateKeepsContent(v.items, oi, u.items[oi]);
  }
}
