/** What the items of a request say as chat messages, told of each item by looking back over those before it:
    no message is pending and nothing is folded into another. */
module ReplayReading {
  import opened Wrappers
  import opened Sequences
  import opened Layout
  import opened ChatChunks
  import opened Transcript
  import opened Replay

  // ---- Roles and contents --------------------------------------------------------------------------------

  predicate RoleIs(r: Role, name: string) {
    && (r == SystemRole <==> name == "system" || name == "developer")
    && (r == AssistantRole <==> name == "assistant")
    && (r == ToolRole <==> name == "tool")
    && (r == UserRole <==> name != "system" && name != "developer" && name != "assistant" && name != "tool")
  }

  lemma RoleRead(name: string)
    ensures RoleIs(MapRole(name), name)
  {
  }

  /** What a part adds to a text. */
  function SaidIn(): InputPart -> seq<string> {
    (p: InputPart) => if p.TextIn? || p.RefusalIn? then [p.text] else []
  }

  /** What a part adds to structured content. */
  function ShownIn(): InputPart -> seq<Part> {
    (p: InputPart) =>
      if p.TextIn? then [TextPart(p.text)] else if p.ImageIn? && p.json != "" then [OtherPart(p.json)] else []
  }

  /** A list becomes structured content when it has an image with a url; else it becomes its texts, with nothing
      in between. */
  predicate ContentIs(c: Content, content: InputContent) {
    match content
    case StringIn(text) => c == Text(text)
    case NoTextIn => c == Text("")
    case PartsIn(parts) =>
      if exists k :: 0 <= k < |parts| && parts[k].ImageIn? && parts[k].json != ""
      then c == Parts(FlatMap(ShownIn(), parts))
      else c.Text? && LaidOut(c.text, FlatMap(SaidIn(), parts), "")
  }

  lemma {:induction false} SaidTogether(parts: seq<InputPart>)
    ensures LaidOut(PartsText(parts), FlatMap(SaidIn(), parts), "")
  {
    if parts == [] {
    } else {
      var front, last := parts[..|parts| - 1], parts[|parts| - 1];
      SaidTogether(front);
      if last.TextIn? || last.RefusalIn? {
        LaidOutNext(PartsText(front), FlatMap(SaidIn(), front), last.text);
      } else {
        assert PartsText(front) + "" == PartsText(front);
        assert FlatMap(SaidIn(), front) + [] == FlatMap(SaidIn(), front);
      }
    }
  }

  lemma {:induction false} ShownTogether(parts: seq<InputPart>)
    ensures Multimodal(parts) == FlatMap(ShownIn(), parts)
  {
    if parts == [] {
    } else {
      ShownTogether(parts[..|parts| - 1]);
    }
  }

  lemma ContentRead(content: InputContent)
    ensures ContentIs(ContentToChat(content), content)
  {
    if content.PartsIn? {
      SaidTogether(content.parts);
      ShownTogether(content.parts);
    }
  }

  // ---- Tool outputs -----------------------------------------------------------------------------------------

  /** The number that decimal digits write. */
  function NumberOf(digits: string): nat
    requires forall k :: 0 <= k < |digits| ==> '0' <= digits[k] <= '9'
  {
    if digits == "" then 0
    else NumberOf(digits[..|digits| - 1]) * 10 + (digits[|digits| - 1] as int - '0' as int)
  }

  predicate WritesNumber(digits: string, n: nat) {
    && digits != "" && (forall k :: 0 <= k < |digits| ==> '0' <= digits[k] <= '9')
    && NumberOf(digits) == n && (digits[0] == '0' ==> n == 0 && |digits| == 1)
  }

  lemma {:induction false} DecimalWrites(n: nat)
    ensures WritesNumber(Decimal(n), n)
  {
    if n < 10 {
      assert [Decimal(n)[0]][..0] == [];
    } else {
      DecimalWrites(n / 10);
      var front, last := Decimal(n / 10), ('0' as int + n % 10) as char;
      assert (front + [last])[..|front|] == front;
    }
  }

  /** The note that stands for `n` parts that are no text. */
  ghost predicate NoteIs(note: string, n: nat) {
    exists digits :: WritesNumber(digits, n)
      && note
         == "[" + digits + " non-text tool output part(s) omitted: tool results reach this model as text only]"
  }

  function TextsOut(): OutputPart -> seq<string> {
    (p: OutputPart) => if p.TextOut? then [p.text] else []
  }

  function NoTextOut(): OutputPart -> bool {
    (p: OutputPart) => p.OtherOut?
  }

  predicate AllEmpty(texts: seq<string>) {
    forall k :: 0 <= k < |texts| ==> texts[k] == ""
  }

  lemma AllEmptySnoc(texts: seq<string>, last: string)
    ensures AllEmpty(texts + [last]) <==> AllEmpty(texts) && last == ""
  {
    assert (texts + [last])[|texts|] == last;
    assert forall k :: 0 <= k < |texts| ==> (texts + [last])[k] == texts[k];
  }

  /** The texts of an output with nothing in between and, on a line of its own, how many parts are no text. */
  ghost predicate OutputIs(text: string, output: ToolOutput) {
    match output
    case StringOut(t) => text == t
    case JsonOut(dump) => text == dump
    case PartsOut(parts) =>
      var texts, n := FlatMap(TextsOut(), parts), |Filter(parts, NoTextOut())|;
      if n == 0 then LaidOut(text, texts, "")
      else if AllEmpty(texts) then NoteIs(text, n)
      else exists note :: NoteIs(note, n) && LaidOut(text, texts + ["\n"] + [note], "")
  }

  lemma {:induction false} TextsTogether(parts: seq<OutputPart>)
    ensures LaidOut(OutputTexts(parts), FlatMap(TextsOut(), parts), "")
    ensures OutputTexts(parts) == "" <==> AllEmpty(FlatMap(TextsOut(), parts))
    ensures Omitted(parts) == |Filter(parts, NoTextOut())|
  {
    if parts == [] {
    } else {
      var front, last := parts[..|parts| - 1], parts[|parts| - 1];
      TextsTogether(front);
      var texts := FlatMap(TextsOut(), front);
      if last.TextOut? {
        LaidOutNext(OutputTexts(front), texts, last.text);
        AllEmptySnoc(texts, last.text);
      } else {
        assert OutputTexts(front) + "" == OutputTexts(front) && texts + [] == texts;
      }
    }
  }

  lemma OutputRead(output: ToolOutput)
    ensures OutputIs(OutputToChat(output), output)
  {
    if output.PartsOut? && Omitted(output.parts) > 0 {
      var texts, n := OutputTexts(output.parts), Omitted(output.parts);
      var note := Placeholder(n);
      TextsTogether(output.parts);
      DecimalWrites(n);
      assert NoteIs(note, n);
      LaidOutNext(texts, FlatMap(TextsOut(), output.parts), "\n");
      LaidOutNext(texts + "\n", FlatMap(TextsOut(), output.parts) + ["\n"], note);
    } else if output.PartsOut? {
      TextsTogether(output.parts);
    }
  }

  // ---- Calls --------------------------------------------------------------------------------------------------

  /** Arguments that are no string are dumped, those that are false in Python as an empty object. */
  predicate ArgumentsAre(text: string, args: Arguments) {
    match args
    case ArgText(t) => text == t
    case ArgJson(dump) =>
      if dump == "null" || dump == "false" || dump == "0" || dump == "0.0" || dump == "-0.0" || dump == "[]"
         || dump == "{}" || dump == "\"\""
      then text == "{}" else text == dump
  }

  /** The id a call was given, else the id of its item, else its own number of the supply. */
  predicate CallIs(entry: CallEntry, item: InputItem, serial: nat)
    requires item.CallIn?
  {
    && entry.CallEntry? && entry.kind == "function" && entry.name == Some(item.name) && entry.extra == ""
    && entry.args.ArgText? && ArgumentsAre(entry.args.text, item.args)
    && entry.id == (if item.callId != Given("") then item.callId
                    else if item.itemId != "" then Given(item.itemId) else Minted(serial))
  }

  lemma CallRead(item: InputItem, serial: nat)
    requires item.CallIn?
    ensures CallIs(CallOf(item, serial), item, serial)
  {
  }

  // ---- Where an item goes -----------------------------------------------------------------------------------

  /** The last item that is not dropped. */
  function LastItem(items: seq<InputItem>): Option<InputItem> {
    if items == [] then None
    else if items[|items| - 1].IgnoredIn? then LastItem(items[..|items| - 1])
    else Some(items[|items| - 1])
  }

  predicate IsAnswer(item: InputItem) {
    item.CallIn? || (item.MessageIn? && item.role == "assistant")
  }

  /** A call goes to the message of the call or the assistant message right before it. */
  predicate Joins(before: seq<InputItem>, item: InputItem) {
    item.CallIn? && LastItem(before).Some? && IsAnswer(LastItem(before).value)
  }

  predicate Opens(before: seq<InputItem>, item: InputItem) {
    !item.IgnoredIn? && !Joins(before, item)
  }

  /** How many messages the items begin. */
  function Opened(items: seq<InputItem>): nat {
    if items == [] then 0
    else Opened(items[..|items| - 1]) + (if Opens(items[..|items| - 1], items[|items| - 1]) then 1 else 0)
  }

  /** How many calls the last message has. */
  function CallsAtEnd(items: seq<InputItem>): nat {
    if items == [] then 0
    else
      var front, last := items[..|items| - 1], items[|items| - 1];
      if last.IgnoredIn? then CallsAtEnd(front)
      else if !last.CallIn? then 0
      else if Joins(front, last) then CallsAtEnd(front) + 1
      else 1
  }

  function CallCount(items: seq<InputItem>): nat {
    if items == [] then 0 else CallCount(items[..|items| - 1]) + (if items[|items| - 1].CallIn? then 1 else 0)
  }

  /** All calls of the messages. */
  function TotalCalls(ms: seq<Message>): nat {
    if ms == [] then 0 else TotalCalls(ms[..|ms| - 1]) + |ms[|ms| - 1].toolCalls|
  }

  /** How item `item`, behind the items `before`, is found in the messages. */
  ghost predicate FoundIn(out: seq<Message>, before: seq<InputItem>, item: InputItem, minted: nat) {
    var at := Opened(before + [item]) - 1;
    0 <= at < |out|
    && match item
       case IgnoredIn => true
       case MessageIn(role, content) =>
         && RoleIs(out[at].role, role) && ContentIs(out[at].content, content)
         && out[at].toolCallId == "" && out[at].extra == ""
       case OutputIn(answers, output) =>
         && out[at] == Message(ToolRole, out[at].content, [], answers, "")
         && out[at].content.Text? && OutputIs(out[at].content.text, output)
       case CallIn(_, _, _, _) =>
         var j := CallsAtEnd(before + [item]) - 1;
         && IsAssistant(out[at]) && 0 <= j < |out[at].toolCalls|
         && CallIs(out[at].toolCalls[j], item, minted + CallCount(before))
         && (Opens(before, item) ==>
               j == 0 && out[at].(toolCalls := []) == Message(AssistantRole, Text(""), [], "", ""))
  }

  /** The reader after these items. */
  predicate Behind(r: Reading, items: seq<InputItem>, minted: nat) {
    var last := LastItem(items);
    && |r.messages| == Opened(items) && TotalCalls(r.messages) == CallCount(items)
    && r.minted == minted + CallCount(items)
    && (r.pending <==> last.Some? && last.value.CallIn?)
    && (r.messages == [] <==> last.None?)
    && (r.messages != [] ==>
          var m := r.messages[|r.messages| - 1];
          && |m.toolCalls| == CallsAtEnd(items) && (IsAssistant(m) <==> IsAnswer(last.value))
          && (last.value.CallIn? <==> m.toolCalls != []))
  }

  ghost predicate AllFound(out: seq<Message>, items: seq<InputItem>, minted: nat) {
    forall k :: 0 <= k < |items| && !items[k].IgnoredIn? ==> FoundIn(out, items[..k], items[k], minted)
  }

  lemma NextOpened(items: seq<InputItem>, item: InputItem)
    ensures Opened(items + [item]) == Opened(items) + (if Opens(items, item) then 1 else 0)
    ensures CallCount(items + [item]) == CallCount(items) + (if item.CallIn? then 1 else 0)
    ensures LastItem(items + [item]) == if item.IgnoredIn? then LastItem(items) else Some(item)
    ensures CallsAtEnd(items + [item])
            == if item.IgnoredIn? then CallsAtEnd(items)
               else if !item.CallIn? then 0 else if Joins(items, item) then CallsAtEnd(items) + 1 else 1
  {
    assert (items + [item])[..|items|] == items;
  }

  lemma TotalSnoc(ms: seq<Message>, m: Message)
    ensures TotalCalls(ms + [m]) == TotalCalls(ms) + |m.toolCalls|
  {
    assert (ms + [m])[..|ms|] == ms;
  }

  lemma TotalAddCall(ms: seq<Message>, call: CallEntry)
    requires ms != []
    ensures TotalCalls(AddCall(ms, call)) == TotalCalls(ms) + 1
  {
    var front, m := ms[..|ms| - 1], ms[|ms| - 1];
    assert AddCall(ms, call) == front + [m.(toolCalls := m.toolCalls + [call])];
    TotalSnoc(front, m.(toolCalls := m.toolCalls + [call]));
  }

  lemma JoinsIff(r: Reading, items: seq<InputItem>, minted: nat, item: InputItem)
    requires Behind(r, items, minted) && item.CallIn?
    ensures Joins(items, item) <==> r.messages != [] && (r.pending || Foldable(r.messages))
  {
  }

  lemma BehindOpened(r: Reading, items: seq<InputItem>, minted: nat, item: InputItem, m: Message)
    requires Behind(r, items, minted) && (item.MessageIn? || item.OutputIn?)
    requires m.toolCalls == [] && (IsAssistant(m) <==> IsAnswer(item))
    ensures Behind(Reading(r.messages + [m], false, r.minted), items + [item], minted)
  {
    NextOpened(items, item);
    TotalSnoc(r.messages, m);
  }

  lemma BehindNewCall(r: Reading, items: seq<InputItem>, minted: nat, item: InputItem, call: CallEntry)
    requires Behind(r, items, minted) && item.CallIn? && !Joins(items, item)
    ensures var m := Plain(AssistantRole, Text("")).(toolCalls := [call]);
            Behind(Reading(r.messages + [m], true, r.minted + 1), items + [item], minted)
  {
    NextOpened(items, item);
    TotalSnoc(r.messages, Plain(AssistantRole, Text("")).(toolCalls := [call]));
  }

  lemma BehindJoinedCall(r: Reading, items: seq<InputItem>, minted: nat, item: InputItem, call: CallEntry)
    requires Behind(r, items, minted) && item.CallIn? && Joins(items, item) && r.messages != []
    ensures Behind(Reading(AddCall(r.messages, call), true, r.minted + 1), items + [item], minted)
  {
    NextOpened(items, item);
    TotalAddCall(r.messages, call);
  }

  lemma BehindNext(r: Reading, items: seq<InputItem>, minted: nat, item: InputItem)
    requires Behind(r, items, minted)
    ensures Behind(ReadItem(r, item), items + [item], minted)
  {
    match item
    case IgnoredIn =>
      NextOpened(items, item);
    case MessageIn(role, content) =>
      RoleRead(role);
      BehindOpened(r, items, minted, item, Plain(MapRole(role), ContentToChat(content)));
    case OutputIn(answers, output) =>
      BehindOpened(r, items, minted, item, Message(ToolRole, Text(OutputToChat(output)), [], answers, ""));
    case CallIn(_, _, _, _) =>
      JoinsIff(r, items, minted, item);
      var call := CallOf(item, r.minted);
      if Joins(items, item) {
        BehindJoinedCall(r, items, minted, item, call);
      } else {
        BehindNewCall(r, items, minted, item, call);
      }
  }

  /** An item that was found stays where it is when the messages only grow at the end. */
  lemma StillFound(out: seq<Message>, more: seq<Message>, before: seq<InputItem>, item: InputItem, minted: nat)
    requires FoundIn(out, before, item, minted) && !item.IgnoredIn? && |out| <= |more|
    requires forall k :: 0 <= k < |out| - 1 ==> more[k] == out[k]
    requires more[|out| - 1] == out[|out| - 1]
             || (IsAssistant(out[|out| - 1])
                 && more[|out| - 1] == out[|out| - 1].(toolCalls := more[|out| - 1].toolCalls)
                 && out[|out| - 1].toolCalls <= more[|out| - 1].toolCalls)
    ensures FoundIn(more, before, item, minted)
  {
  }

  lemma NewFound(r: Reading, items: seq<InputItem>, minted: nat, item: InputItem)
    requires Behind(r, items, minted) && !item.IgnoredIn?
    ensures FoundIn(ReadItem(r, item).messages, items, item, minted)
  {
    NextOpened(items, item);
    match item
    case MessageIn(role, content) =>
      RoleRead(role);
      ContentRead(content);
    case OutputIn(answers, output) =>
      OutputRead(output);
    case CallIn(_, _, _, _) =>
      JoinsIff(r, items, minted, item);
      CallRead(item, r.minted);
  }

  lemma AllStillFound(r: Reading, items: seq<InputItem>, minted: nat, item: InputItem)
    requires Behind(r, items, minted) && AllFound(r.messages, items, minted)
    ensures AllFound(ReadItem(r, item).messages, items, minted)
  {
    var out, more := r.messages, ReadItem(r, item).messages;
    if item.CallIn? { JoinsIff(r, items, minted, item); }
    forall k | 0 <= k < |items| && !items[k].IgnoredIn? ensures FoundIn(more, items[..k], items[k], minted) {
      StillFound(out, more, items[..k], items[k], minted);
    }
  }

  lemma AllFoundSnoc(out: seq<Message>, items: seq<InputItem>, item: InputItem, minted: nat)
    requires AllFound(out, items, minted) && (!item.IgnoredIn? ==> FoundIn(out, items, item, minted))
    ensures AllFound(out, items + [item], minted)
  {
    var all := items + [item];
    forall k | 0 <= k < |all| && !all[k].IgnoredIn? ensures FoundIn(out, all[..k], all[k], minted) {
      assert all[..k] == items[..k];
      if k == |items| { assert items[..k] == items; }
    }
  }

  lemma {:induction false} ReadBehindAll(items: seq<InputItem>, minted: nat)
    ensures var r := ReadItems(Reading([], false, minted), items);
            Behind(r, items, minted) && AllFound(r.messages, items, minted)
  {
    if items == [] {
    } else {
      var front, last := items[..|items| - 1], items[|items| - 1];
      ReadBehindAll(front, minted);
      var r := ReadItems(Reading([], false, minted), front);
      BehindNext(r, front, minted, last);
      AllStillFound(r, front, minted, last);
      if !last.IgnoredIn? { NewFound(r, front, minted, last); }
      AllFoundSnoc(ReadItem(r, last).messages, front, last, minted);
      assert front + [last] == items;
    }
  }

  /** The messages read from a request's items: one for each item that begins one, with no other call than those
      of the items, and every item where looking back over those before it puts it. */
  lemma InputIsRead(items: seq<InputItem>, minted: nat)
    ensures var out := InputToMessages(items, minted);
            && |out| == Opened(items) && TotalCalls(out) == CallCount(items)
            && AllFound(out, items, minted)
  {
    ReadBehindAll(items, minted);
  }

  // ---- The stored answer --------------------------------------------------------------------------------------

  /** What Python takes for true. */
  predicate IsSomething(c: Content) {
    match c
    case Text(text) => |text| > 0
    case Parts(parts) => |parts| > 0
    case Junk(dump) =>
      !(dump == "null" || dump == "false" || dump == "0" || dump == "0.0" || dump == "-0.0" || dump == "[]"
        || dump == "{}" || dump == "\"\"")
  }

  lemma SomethingIff(c: Content)
    ensures IsSomething(c) <==> Truthy(c)
  {
  }

  /** The message stored for a one-shot answer: its content if that is something, else its refusal, and its calls,
      those without an id under minted ones of their own. */
  lemma StoredIs(m: ChatMessage, minted: nat)
    ensures var stored := StoredMessage(m, minted);
            && stored.role == AssistantRole && stored.toolCallId == "" && stored.extra == ""
            && (IsSomething(m.content) ==> stored.content == m.content)
            && (!IsSomething(m.content) && IsSomething(m.refusal) ==> stored.content == m.refusal)
            && (!IsSomething(m.content) && !IsSomething(m.refusal) ==> stored.content == Text(""))
            && |stored.toolCalls| == |m.toolCalls|
            && forall k :: 0 <= k < |m.toolCalls| ==>
                 if m.toolCalls[k].CallEntry? && m.toolCalls[k].id == Given("")
                 then stored.toolCalls[k] == m.toolCalls[k].(id := Minted(minted + k))
                 else stored.toolCalls[k] == m.toolCalls[k]
  {
  }

  // ---- The answer as the client gets it -------------------------------------------------------------------------

  /** A call that is an object, as an item: under its id, with its name and its arguments as text. */
  predicate ItemIs(item: InputItem, call: CallEntry) {
    && item.CallIn? && call.CallEntry? && item.callId == call.id
    && item.name == (if call.name.Some? then call.name.value else "")
    && item.args.ArgText? && ArgumentsAre(item.args.text, call.args)
  }

  predicate ItemsAre(items: seq<InputItem>, calls: seq<CallEntry>) {
    |items| == |calls| && forall k :: 0 <= k < |items| ==> ItemIs(items[k], calls[k])
  }

  function IsObject(): CallEntry -> bool {
    (call: CallEntry) => call.CallEntry?
  }

  lemma OneItem(call: CallEntry)
    requires call.CallEntry?
    ensures ItemIs(CallIn(call.id, "fc", call.name.GetOr(""), ArgText(ArgsText(call.args))), call)
  {
  }

  lemma {:induction false} CallsListed(calls: seq<CallEntry>)
    ensures ItemsAre(CallItems(calls), Filter(calls, IsObject()))
  {
    if calls == [] {
    } else {
      var front, last := calls[..|calls| - 1], calls[|calls| - 1];
      CallsListed(front);
      if last.CallEntry? { OneItem(last); }
    }
  }

  /** The output of an answer: its reasoning if that is wanted and some text, one message with its text and its
      refusal if either is some text, and an item for each call that is an object, under the id that is stored. */
  lemma AnswerIsListed(m: ChatMessage, emitReasoning: bool, minted: nat)
    returns (reasoning: seq<InputItem>, message: seq<InputItem>, calls: seq<InputItem>)
    ensures OutputItems(m, emitReasoning, minted) == reasoning + message + calls
    ensures reasoning == if emitReasoning && m.reasoning.Text? && |m.reasoning.text| > 0 then [IgnoredIn] else []
    ensures var text := if m.content.Text? && |m.content.text| > 0 then [TextIn(m.content.text)] else [];
            var refusal := if m.refusal.Text? && |m.refusal.text| > 0 then [RefusalIn(m.refusal.text)] else [];
            message == if text + refusal == [] then [] else [MessageIn("assistant", PartsIn(text + refusal))]
    ensures ItemsAre(calls, Filter(StoredMessage(m, minted).toolCalls, IsObject()))
  {
    reasoning, message := ReasoningItems(m, emitReasoning), MessageItems(m);
    calls := CallItems(WithIds(m.toolCalls, minted));
    CallsListed(WithIds(m.toolCalls, minted));
  }
}
