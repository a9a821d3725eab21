/** Responses items to chat messages and back. A client may chain by `previous_response_id`, when the
    stored assistant message is used, or send the output items back as input, when they are read. */
module Replay {
  import opened Wrappers
  import opened ChatChunks
  import opened Transcript

  // ---- Request items ---------------------------------------------------------------------------------

  /** A part of an item's content. An image is given as its `image_url` object, "" without a url. */
  datatype InputPart = TextIn(text: string) | RefusalIn(text: string) | ImageIn(json: string) | OtherIn

  datatype InputContent = StringIn(text: string) | PartsIn(parts: seq<InputPart>) | NoTextIn

  /** A part of a tool output: an object with text, another object, or no object at all. */
  datatype OutputPart = TextOut(text: string) | OtherOut | JunkOut

  datatype ToolOutput = StringOut(text: string) | PartsOut(parts: seq<OutputPart>) | JsonOut(dump: string)

  /** An element of the request's `input`. Empty strings stand for absent fields. */
  datatype InputItem =
    | MessageIn(role: string, content: InputContent)
    | CallIn(callId: CallId, itemId: string, name: string, args: Arguments)
    | OutputIn(answers: string, output: ToolOutput)
    | IgnoredIn

  function MapRole(role: string): Role {
    if role == "developer" || role == "system" then SystemRole
    else if role == "assistant" then AssistantRole
    else if role == "tool" then ToolRole
    else UserRole
  }

  function PartsText(parts: seq<InputPart>): string {
    if parts == [] then ""
    else
      var last := parts[|parts| - 1];
      PartsText(parts[..|parts| - 1]) + (if last.TextIn? || last.RefusalIn? then last.text else "")
  }

  function Multimodal(parts: seq<InputPart>): seq<Part> {
    if parts == [] then []
    else
      var front, last := Multimodal(parts[..|parts| - 1]), parts[|parts| - 1];
      if last.TextIn? then front + [TextPart(last.text)]
      else if last.ImageIn? && last.json != "" then front + [OtherPart(last.json)]
      else front
  }

  predicate HasImage(parts: seq<InputPart>) {
    exists k :: 0 <= k < |parts| && parts[k].ImageIn? && parts[k].json != ""
  }

  /** `_content_to_chat`. */
  function ContentToChat(content: InputContent): Content {
    match content
    case StringIn(text) => Text(text)
    case NoTextIn => Text("")
    case PartsIn(parts) => if HasImage(parts) then Parts(Multimodal(parts)) else Text(PartsText(parts))
  }

  function OutputTexts(parts: seq<OutputPart>): string {
    if parts == [] then ""
    else OutputTexts(parts[..|parts| - 1]) + (if parts[|parts| - 1].TextOut? then parts[|parts| - 1].text else "")
  }

  function Omitted(parts: seq<OutputPart>): nat {
    if parts == [] then 0 else Omitted(parts[..|parts| - 1]) + (if parts[|parts| - 1].OtherOut? then 1 else 0)
  }

  function Decimal(n: nat): string {
    if n < 10 then [('0' as int + n) as char] else Decimal(n / 10) + [('0' as int + n % 10) as char]
  }

  function Placeholder(omitted: nat): string {
    "[" + Decimal(omitted) + " non-text tool output part(s) omitted: tool results reach this model as text only]"
  }

  /** A chat tool message is text only; what cannot be passed on is counted. */
  function OutputToChat(output: ToolOutput): string {
    match output
    case StringOut(text) => text
    case JsonOut(dump) => dump
    case PartsOut(parts) =>
      var texts, n := OutputTexts(parts), Omitted(parts);
      if n == 0 then texts else if texts == "" then Placeholder(n) else texts + "\n" + Placeholder(n)
  }

  predicate FalsyJson(json: string) {
    json in ["null", "false", "0", "0.0", "-0.0", "[]", "{}", "\"\""]
  }

  function ArgsText(args: Arguments): string {
    match args
    case ArgText(text) => text
    case ArgJson(dump) => if FalsyJson(dump) then "{}" else dump
  }

  /** The first id that is not empty, or a minted one. */
  function CallIdOf(callId: CallId, itemId: string, minted: nat): CallId {
    if callId.Minted? || callId.id != "" then callId
    else if itemId != "" then Given(itemId)
    else Minted(minted)
  }

  /** Items read so far; while `pending`, calls go to the last message. */
  datatype Reading = Reading(messages: seq<Message>, pending: bool, minted: nat)

  function Plain(role: Role, content: Content): Message {
    Message(role, content, [], "", "")
  }

  predicate Foldable(messages: seq<Message>) {
    messages != [] && IsAssistant(messages[|messages| - 1]) && messages[|messages| - 1].toolCalls == []
  }

  function AddCall(messages: seq<Message>, call: CallEntry): seq<Message>
    requires messages != []
  {
    var n := |messages| - 1;
    messages[n := messages[n].(toolCalls := messages[n].toolCalls + [call])]
  }

  function CallOf(item: InputItem, minted: nat): CallEntry
    requires item.CallIn?
  {
    CallEntry(CallIdOf(item.callId, item.itemId, minted), "function", Some(item.name), ArgText(ArgsText(item.args)), "")
  }

  function ReadItem(r: Reading, item: InputItem): Reading {
    match item
    case IgnoredIn => r
    case MessageIn(role, content) =>
      Reading(r.messages + [Plain(MapRole(role), ContentToChat(content))], false, r.minted)
    case OutputIn(answers, output) =>
      Reading(r.messages + [Message(ToolRole, Text(OutputToChat(output)), [], answers, "")], false, r.minted)
    case CallIn(_, _, _, _) =>
      var call := CallOf(item, r.minted);
      if r.messages != [] && (r.pending || Foldable(r.messages)) then
        Reading(AddCall(r.messages, call), true, r.minted + 1)
      else
        Reading(r.messages + [Plain(AssistantRole, Text("")).(toolCalls := [call])], true, r.minted + 1)
  }

  function ReadItems(r: Reading, items: seq<InputItem>): Reading {
    if items == [] then r else ReadItem(ReadItems(r, items[..|items| - 1]), items[|items| - 1])
  }

  /** `_input_to_messages`, with minted ids numbered from `minted`. */
  function InputToMessages(items: seq<InputItem>, minted: nat): seq<Message> {
    ReadItems(Reading([], false, minted), items).messages
  }

  // ---- The source's loop, with its aliased pending message --------------------------------------------

  class Cell {
    var message: Message

    constructor (message: Message)
      ensures this.message == message
    {
      this.message := message;
    }
  }

  /** The values of the cells. */
  ghost function Values(cells: seq<Cell>): seq<Message>
    reads cells
  {
    seq(|cells|, k requires 0 <= k < |cells| reads cells => cells[k].message)
  }

  method Collapse(parts: seq<OutputPart>) returns (texts: string, omitted: nat)
    ensures texts == OutputTexts(parts) && omitted == Omitted(parts)
  {
    texts, omitted := "", 0;
    for i := 0 to |parts|
      invariant texts == OutputTexts(parts[..i]) && omitted == Omitted(parts[..i])
    {
      assert parts[..i + 1][..i] == parts[..i];
      match parts[i]
      case JunkOut =>
      case TextOut(text) => texts := texts + text;
      case OtherOut => omitted := omitted + 1;
    }
    assert parts[..|parts|] == parts;
  }

  ghost predicate NoDuplicates(cells: seq<Cell>) {
    forall j, k :: 0 <= j < k < |cells| ==> cells[j] != cells[k]
  }

  /** `pending` is None or another reference to the last message in the list. */
  ghost predicate PendingIsLast(cells: seq<Cell>, pending: Cell?) {
    pending != null ==> cells != [] && pending == cells[|cells| - 1]
  }

  method AppendMessage(cells: seq<Cell>, message: Message) returns (more: seq<Cell>)
    requires NoDuplicates(cells)
    ensures NoDuplicates(more) && |more| == |cells| + 1 && more[..|cells|] == cells && fresh(more[|cells|])
    ensures Values(more) == old(Values(cells)) + [message]
  {
    var cell := new Cell(message);
    more := cells + [cell];
  }

  /** A call joins the pending message, the toolless assistant message before it, or a new one. */
  method AppendCall(cells: seq<Cell>, current: Cell?, call: CallEntry) returns (more: seq<Cell>, pending: Cell)
    requires NoDuplicates(cells) && PendingIsLast(cells, current)
    modifies cells
    ensures NoDuplicates(more) && PendingIsLast(more, pending)
    ensures more == cells || (|more| == |cells| + 1 && more[..|cells|] == cells && fresh(more[|cells|]))
    ensures Values(more) == if cells != [] && (current != null || Foldable(old(Values(cells))))
                            then AddCall(old(Values(cells)), call)
                            else old(Values(cells)) + [Plain(AssistantRole, Text("")).(toolCalls := [call])]
  {
    more := cells;
    assert [] + [call] == [call];
    ghost var was := Values(cells);
    if current != null {
      pending := current;
      pending.message := pending.message.(toolCalls := pending.message.toolCalls + [call]);
    } else if cells != [] && IsAssistant(cells[|cells| - 1].message) && cells[|cells| - 1].message.toolCalls == [] {
      pending := cells[|cells| - 1];
      pending.message := pending.message.(toolCalls := [call]);
    } else {
      more := AppendMessage(cells, Plain(AssistantRole, Text("")).(toolCalls := [call]));
      pending := more[|cells|];
    }
    assert more == cells ==> Values(more) == AddCall(was, call);
  }

  lemma ReadNext(r: Reading, items: seq<InputItem>, i: nat)
    requires i < |items|
    ensures ReadItems(r, items[..i + 1]) == ReadItem(ReadItems(r, items[..i]), items[i])
  {
    assert items[..i + 1][..i] == items[..i];
  }

  /** One item; the list grows by at most one new cell. */
  method ReadNextItem(cells: seq<Cell>, current: Cell?, supply: nat, item: InputItem)
    returns (more: seq<Cell>, pending: Cell?, used: nat)
    requires NoDuplicates(cells) && PendingIsLast(cells, current)
    modifies cells
    ensures NoDuplicates(more) && PendingIsLast(more, pending)
    ensures more == cells || (|more| == |cells| + 1 && more[..|cells|] == cells && fresh(more[|cells|]))
    ensures Reading(Values(more), pending != null, used)
            == ReadItem(Reading(old(Values(cells)), current != null, supply), item)
  {
    more, pending, used := cells, current, supply;
    match item
    case IgnoredIn =>
    case MessageIn(role, content) =>
      pending := null;
      more := AppendMessage(cells, Plain(MapRole(role), ContentToChat(content)));
    case OutputIn(answers, output) =>
      pending := null;
      var text := OutputText(output);
      more := AppendMessage(cells, Message(ToolRole, Text(text), [], answers, ""));
    case CallIn(_, _, _, _) =>
      more, pending := AppendCall(cells, pending, CallOf(item, supply));
      used := supply + 1;
  }

  method ReadInput(items: seq<InputItem>, minted: nat) returns (cells: seq<Cell>)
    ensures fresh(cells) && Values(cells) == InputToMessages(items, minted)
  {
    cells := [];
    var pending: Cell? := null;
    var supply := minted;
    for i := 0 to |items|
      invariant fresh(cells) && NoDuplicates(cells) && PendingIsLast(cells, pending)
      invariant ReadItems(Reading([], false, minted), items[..i]) == Reading(Values(cells), pending != null, supply)
    {
      ReadNext(Reading([], false, minted), items, i);
      cells, pending, supply := ReadNextItem(cells, pending, supply, items[i]);
    }
    assert items[..|items|] == items;
  }

  method OutputText(output: ToolOutput) returns (text: string)
    ensures text == OutputToChat(output)
  {
    match output
    case StringOut(t) => text := t;
    case JsonOut(dump) => text := dump;
    case PartsOut(parts) =>
      var omitted: nat;
      text, omitted := Collapse(parts);
      if omitted > 0 {
        var placeholder := Placeholder(omitted);
        text := if text == "" then placeholder else text + "\n" + placeholder;
      }
  }

  // ---- Answers: one-shot -----------------------------------------------------------------------------------

  /** The message of a chat completion; an absent field is null. */
  datatype ChatMessage = ChatMessage(reasoning: Content, content: Content, refusal: Content, toolCalls: seq<CallEntry>)

  predicate Truthy(c: Content) {
    match c
    case Text(text) => text != ""
    case Parts(parts) => parts != []
    case Junk(json) => !FalsyJson(json)
  }

  /** The text of a string, "" for anything else. */
  function StringOf(c: Content): string {
    if c.Text? then c.text else ""
  }

  /** The id under which the client learns of a call, minted when the upstream gave none. */
  function Identified(call: CallEntry, minted: nat): CallEntry {
    match call
    case JunkEntry(_) => call
    case CallEntry(id, _, _, _, _) => if id == Given("") then call.(id := Minted(minted)) else call
  }

  /** The calls after the ids were written back, the k-th from its own place in the supply. */
  function WithIds(calls: seq<CallEntry>, minted: nat): seq<CallEntry> {
    seq(|calls|, k requires 0 <= k < |calls| => Identified(calls[k], minted + k))
  }

  function CallItems(calls: seq<CallEntry>): seq<InputItem> {
    if calls == [] then []
    else
      var front, last := CallItems(calls[..|calls| - 1]), calls[|calls| - 1];
      match last
      case JunkEntry(_) => front
      case CallEntry(id, _, name, args, _) => front + [CallIn(id, "fc", name.GetOr(""), ArgText(ArgsText(args)))]
  }

  function TextParts(m: ChatMessage): seq<InputPart> {
    (if StringOf(m.content) != "" then [TextIn(StringOf(m.content))] else [])
    + (if StringOf(m.refusal) != "" then [RefusalIn(StringOf(m.refusal))] else [])
  }

  function ReasoningItems(m: ChatMessage, emitReasoning: bool): seq<InputItem> {
    if emitReasoning && StringOf(m.reasoning) != "" then [IgnoredIn] else []
  }

  function MessageItems(m: ChatMessage): seq<InputItem> {
    if TextParts(m) == [] then [] else [MessageIn("assistant", PartsIn(TextParts(m)))]
  }

  /** The `output` of `chat_response_to_responses_body`, as a client sends it back. */
  function OutputItems(m: ChatMessage, emitReasoning: bool, minted: nat): seq<InputItem> {
    ReasoningItems(m, emitReasoning) + MessageItems(m) + CallItems(WithIds(m.toolCalls, minted))
  }

  /** `assistant_message_from_chat`, called on the message whose ids were written back. */
  function AssistantMessage(m: ChatMessage): Message {
    Message(AssistantRole,
            if Truthy(m.content) then m.content else if Truthy(m.refusal) then m.refusal else Text(""),
            m.toolCalls, "", "")
  }

  function StoredMessage(m: ChatMessage, minted: nat): Message {
    AssistantMessage(m.(toolCalls := WithIds(m.toolCalls, minted)))
  }

  lemma CallItemsNext(calls: seq<CallEntry>, i: nat)
    requires i < |calls|
    ensures CallItems(calls[..i + 1])
            == match calls[i]
               case JunkEntry(_) => CallItems(calls[..i])
               case CallEntry(id, _, name, args, _) =>
                 CallItems(calls[..i]) + [CallIn(id, "fc", name.GetOr(""), ArgText(ArgsText(args)))]
  {
    assert calls[..i + 1][..i] == calls[..i];
  }

  /** The loop over the calls, which writes minted ids into the caller's message. */
  method AppendCallItems(calls: array<CallEntry>, minted: nat) returns (items: seq<InputItem>)
    modifies calls
    ensures calls[..] == WithIds(old(calls[..]), minted)
    ensures items == CallItems(WithIds(old(calls[..]), minted))
  {
    items := [];
    ghost var was := calls[..];
    ghost var done := WithIds(was, minted);
    for i := 0 to calls.Length
      invariant calls[..i] == done[..i] && calls[i..] == was[i..]
      invariant items == CallItems(done[..i])
    {
      assert calls[i] == was[i];
      CallItemsNext(done, i);
      var call := calls[i];
      if call.CallEntry? {
        if call.id == Given("") {
          call := call.(id := Minted(minted + i));
          calls[i] := call;
        }
        items := items + [CallIn(call.id, "fc", call.name.GetOr(""), ArgText(ArgsText(call.args)))];
      }
      assert calls[..i + 1] == done[..i + 1];
    }
    assert calls[..] == done && done[..calls.Length] == done;
  }

  // ---- Reading items back ------------------------------------------------------------------------------------

  lemma ReadSnoc(r: Reading, items: seq<InputItem>, item: InputItem)
    ensures ReadItems(r, items + [item]) == ReadItem(ReadItems(r, items), item)
  {
    assert (items + [item])[..|items|] == items;
  }

  lemma {:induction false} ReadAppend(r: Reading, a: seq<InputItem>, b: seq<InputItem>)
    ensures ReadItems(r, a + b) == ReadItems(ReadItems(r, a), b)
  {
    if b == [] {
      assert a + b == a;
    } else {
      var front, last := b[..|b| - 1], b[|b| - 1];
      ReadAppend(r, a, front);
      ReadSnoc(r, a + front, last);
      assert a + front + [last] == a + b;
    }
  }

  lemma ReadOne(r: Reading, item: InputItem)
    ensures ReadItems(r, [item]) == ReadItem(r, item)
  {
    assert [item] == [] + [item];
    ReadSnoc(r, [], item);
  }

  predicate AllCalls(items: seq<InputItem>) {
    forall k :: 0 <= k < |items| ==>
      items[k].CallIn? && CallIdOf(items[k].callId, items[k].itemId, 0) == items[k].callId
  }

  /** The entries that calls with ids of their own are read as. */
  function EntriesOf(items: seq<InputItem>): seq<CallEntry>
    requires AllCalls(items)
  {
    seq(|items|, k requires 0 <= k < |items| => CallOf(items[k], 0))
  }

  /** Calls behind an assistant message all go to it. */
  lemma {:induction false} ReadCalls(r: Reading, items: seq<InputItem>)
    requires AllCalls(items) && r.messages != [] && (r.pending || Foldable(r.messages))
    ensures var out, n := ReadItems(r, items), |r.messages| - 1;
            && out.messages == r.messages[n := r.messages[n].(toolCalls := r.messages[n].toolCalls + EntriesOf(items))]
            && out.pending == (r.pending || items != [])
    decreases |items|
  {
    if items == [] {
      var n := |r.messages| - 1;
      assert r.messages[n].toolCalls + [] == r.messages[n].toolCalls;
    } else {
      var front, last := items[..|items| - 1], items[|items| - 1];
      ReadCalls(r, front);
      assert EntriesOf(items) == EntriesOf(front) + [CallOf(last, 0)];
      assert CallOf(last, ReadItems(r, front).minted) == CallOf(last, 0);
      var n := |r.messages| - 1;
      assert r.messages[n].toolCalls + EntriesOf(front) + [CallOf(last, 0)]
          == r.messages[n].toolCalls + EntriesOf(items);
    }
  }
}
