/** Tool results next to the `tool_calls` turn they answer. */
module ToolNorm {
  import opened Transcript
  import Sequences

  predicate NoAssistant(ms: seq<Message>) {
    forall k :: 0 <= k < |ms| ==> !IsAssistant(ms[k])
  }

  /** The tool results of a window, in order. */
  function Results(window: seq<Message>): seq<Message> {
    if window == [] then []
    else
      var front, last := Results(window[..|window| - 1]), window[|window| - 1];
      if IsTool(last) then front + [last] else front
  }

  /** Every other message of a window, in order. */
  function Rest(window: seq<Message>): seq<Message> {
    if window == [] then []
    else
      var front, last := Rest(window[..|window| - 1]), window[|window| - 1];
      if IsTool(last) then front else front + [last]
  }

  /** A transcript read so far: what is settled, and the window of the last calling turn. */
  datatype Reading = Reading(settled: seq<Message>, calling: bool, results: seq<Message>, rest: seq<Message>)

  const NOTHING := Reading([], false, [], [])

  function Read(r: Reading, m: Message): Reading {
    if IsAssistant(m) then Reading(Written(r) + [m], CallsTools(m), [], [])
    else if !r.calling then r.(settled := r.settled + [m])
    else if IsTool(m) then r.(results := r.results + [m])
    else r.(rest := r.rest + [m])
  }

  /** Results first, then the rest of the window. */
  function Written(r: Reading): seq<Message> {
    r.settled + r.results + r.rest
  }

  function ReadAll(r: Reading, ms: seq<Message>): Reading {
    if ms == [] then r else Read(ReadAll(r, ms[..|ms| - 1]), ms[|ms| - 1])
  }

  /** Every window of a calling turn becomes its results, then the rest. */
  function Normalize(ms: seq<Message>): seq<Message> {
    Written(ReadAll(NOTHING, ms))
  }

  lemma ReadSnoc(r: Reading, ms: seq<Message>, m: Message)
    ensures ReadAll(r, ms + [m]) == Read(ReadAll(r, ms), m)
  {
    assert (ms + [m])[..|ms|] == ms;
  }

  lemma {:induction false} ReadAppend(r: Reading, a: seq<Message>, b: seq<Message>)
    ensures ReadAll(r, a + b) == ReadAll(ReadAll(r, a), b)
  {
    if b == [] {
      assert a + b == a;
    } else {
      var front, last := b[..|b| - 1], b[|b| - 1];
      ReadAppend(r, a, front);
      ReadSnoc(r, a + front, last);
      Sequences.SnocRegroup(a, b);
    }
  }

  /** Reading the messages of one window files them as results and rest. */
  lemma {:induction false} ReadWindow(r: Reading, window: seq<Message>)
    requires r.calling && NoAssistant(window)
    ensures ReadAll(r, window) == r.(results := r.results + Results(window), rest := r.rest + Rest(window))
  {
    if window == [] {
    } else {
      ReadWindow(r, window[..|window| - 1]);
    }
  }

  lemma ReadOne(ms: seq<Message>, i: nat)
    requires i < |ms|
    ensures ReadAll(NOTHING, ms[..i + 1]) == Read(ReadAll(NOTHING, ms[..i]), ms[i])
  {
    assert ms[..i] + [ms[i]] == ms[..i + 1];
    ReadSnoc(NOTHING, ms[..i], ms[i]);
  }

  /** A calling turn and the whole of its window. */
  function Filed(r: Reading, window: seq<Message>): Reading {
    Reading(r.settled, r.calling, Results(window), Rest(window))
  }

  lemma FiledAfresh(r: Reading, window: seq<Message>)
    requires r.calling && r.results == [] && r.rest == [] && NoAssistant(window)
    ensures ReadAll(r, window) == Filed(r, window)
    ensures Written(Filed(r, window)) == Written(r) + Results(window) + Rest(window)
  {
    ReadWindow(r, window);
    assert [] + Results(window) == Results(window) && [] + Rest(window) == Rest(window);
    assert Written(r) == r.settled;
  }

  lemma ReadSlice(ms: seq<Message>, i: nat, end: nat)
    requires i <= end <= |ms| && NoAssistant(ms[i..end])
    requires var r := ReadAll(NOTHING, ms[..i]); r.calling && r.results == [] && r.rest == []
    ensures var r, window := ReadAll(NOTHING, ms[..i]), ms[i..end];
            && ReadAll(NOTHING, ms[..end]) == Filed(r, window)
            && Written(Filed(r, window)) == Written(r) + Results(window) + Rest(window)
  {
    assert ms[..i] + ms[i..end] == ms[..end];
    ReadAppend(NOTHING, ms[..i], ms[i..end]);
    FiledAfresh(ReadAll(NOTHING, ms[..i]), ms[i..end]);
  }

  method FindWindowEnd(messages: seq<Message>, i: nat) returns (end: nat)
    requires i <= |messages|
    ensures i <= end <= |messages| && NoAssistant(messages[i..end])
    ensures end < |messages| ==> IsAssistant(messages[end])
  {
    end := i;
    while end < |messages| && !IsAssistant(messages[end])
      invariant i <= end <= |messages| && forall k :: i <= k < end ==> !IsAssistant(messages[k])
    {
      end := end + 1;
    }
  }

  /** The source's loop, which looks ahead for the end of each window. */
  method NormalizeToolMessages(messages: seq<Message>, gate: bool) returns (out: seq<Message>)
    ensures out == if gate then Normalize(messages) else messages
  {
    if !gate { return messages; }
    out := [];
    ghost var r := NOTHING;
    var i := 0;
    while i < |messages|
      invariant 0 <= i <= |messages|
      invariant r == ReadAll(NOTHING, messages[..i]) && out == Written(r)
      invariant i < |messages| && r.calling ==> IsAssistant(messages[i])
      invariant !r.calling ==> r.results == [] && r.rest == []
    {
      ReadOne(messages, i);
      var message := messages[i];
      r := Read(r, message);
      out := out + [message];
      i := i + 1;
      if CallsTools(message) {
        var end := FindWindowEnd(messages, i);
        var window := messages[i..end];
        out := out + Results(window) + Rest(window);
        ReadSlice(messages, i, end);
        r := Filed(r, window);
        i := end;
      }
    }
    assert messages[..|messages|] == messages;
  }

  // ---- The concatenation law -----------------------------------------------------------------

  lemma {:induction false} ResultsOfTools(ms: seq<Message>)
    requires forall k :: 0 <= k < |ms| ==> IsTool(ms[k])
    ensures Results(ms) == ms && Rest(ms) == []
  {
    if ms == [] {
    } else {
      ResultsOfTools(ms[..|ms| - 1]);
    }
  }

  lemma {:induction false} RestOfOthers(ms: seq<Message>)
    requires forall k :: 0 <= k < |ms| ==> !IsTool(ms[k])
    ensures Results(ms) == [] && Rest(ms) == ms
  {
    if ms == [] {
    } else {
      RestOfOthers(ms[..|ms| - 1]);
    }
  }

  /** What a reading holds, and that its settled part reads back to it. */
  predicate Settled(r: Reading) {
    && (forall k :: 0 <= k < |r.results| ==> IsTool(r.results[k]))
    && (forall k :: 0 <= k < |r.rest| ==> !IsTool(r.rest[k]))
    && NoAssistant(r.rest)
    && (!r.calling ==> r.results == [] && r.rest == [])
    && ReadAll(NOTHING, r.settled) == Reading(r.settled, r.calling, [], [])
  }

  /** Reading what was written gives the same reading back. */
  lemma WrittenReadsBack(r: Reading)
    requires Settled(r)
    ensures ReadAll(NOTHING, Written(r)) == r
  {
    ReadAppend(NOTHING, r.settled + r.results, r.rest);
    ReadAppend(NOTHING, r.settled, r.results);
    if r.calling {
      var r1 := Reading(r.settled, true, [], []);
      ResultsOfTools(r.results);
      RestOfOthers(r.rest);
      ReadWindow(r1, r.results);
      assert [] + r.results == r.results;
      ReadWindow(r1.(results := r.results), r.rest);
      assert [] + r.rest == r.rest && r.results + [] == r.results;
    }
  }

  lemma ReadSettles(r: Reading, m: Message)
    requires Settled(r)
    ensures Settled(Read(r, m))
  {
    if IsAssistant(m) {
      WrittenReadsBack(r);
      ReadSnoc(NOTHING, Written(r), m);
    } else if !r.calling {
      ReadSnoc(NOTHING, r.settled, m);
    }
  }

  lemma {:induction false} ReadingSettles(ms: seq<Message>)
    ensures Settled(ReadAll(NOTHING, ms))
  {
    if ms == [] {
    } else {
      ReadingSettles(ms[..|ms| - 1]);
      ReadSettles(ReadAll(NOTHING, ms[..|ms| - 1]), ms[|ms| - 1]);
    }
  }

  /** Normalising a transcript that was already normalised up to some point is normalising the
      raw transcript: the concatenation law. */
  lemma NormalizeChained(a: seq<Message>, b: seq<Message>)
    ensures Normalize(Normalize(a) + b) == Normalize(a + b)
  {
    ReadingSettles(a);
    WrittenReadsBack(ReadAll(NOTHING, a));
    ReadAppend(NOTHING, Normalize(a), b);
    ReadAppend(NOTHING, a, b);
  }

  /** A reading with one more settled message in front. */
  function Shifted(head: Message, r: Reading): Reading {
    r.(settled := [head] + r.settled)
  }

  lemma ReadShifted(head: Message, r: Reading, m: Message)
    ensures Read(Shifted(head, r), m) == Shifted(head, Read(r, m))
    ensures Written(Shifted(head, r)) == [head] + Written(r)
  {
    assert [head] + r.settled + r.results + r.rest == [head] + (r.settled + r.results + r.rest);
    assert [head] + (Written(r) + [m]) == [head] + Written(r) + [m];
    assert [head] + r.settled + [m] == [head] + (r.settled + [m]);
  }

  lemma ReadHead(head: Message)
    requires !IsAssistant(head)
    ensures ReadAll(NOTHING, [head]) == Shifted(head, NOTHING)
  {
    ReadSnoc(NOTHING, [], head);
    assert [] + [head] == [head] && [head] + [] == [head];
  }

  lemma {:induction false} ReadAllShifted(head: Message, ms: seq<Message>)
    requires !IsAssistant(head)
    ensures ReadAll(NOTHING, [head] + ms) == Shifted(head, ReadAll(NOTHING, ms))
  {
    if ms == [] {
      ReadHead(head);
      assert [head] + [] == [head];
    } else {
      var front, last := ms[..|ms| - 1], ms[|ms| - 1];
      ReadAllShifted(head, front);
      ReadSnoc(NOTHING, [head] + front, last);
      ReadShifted(head, ReadAll(NOTHING, front), last);
      Sequences.SnocRegroup([head], ms);
    }
  }

  /** A message that is no assistant passes at the front. */
  lemma NormalizePlainHead(head: Message, ms: seq<Message>)
    requires !IsAssistant(head)
    ensures Normalize([head] + ms) == [head] + Normalize(ms)
  {
    ReadAllShifted(head, ms);
    ReadShifted(head, ReadAll(NOTHING, ms), head);
  }

  // ---- What the result looks like -------------------------------------------------------------

  /** The last assistant message calls tools. */
  predicate InCallingWindow(ms: seq<Message>) {
    if ms == [] then false
    else if ms[|ms| - 1].role == AssistantRole then ms[|ms| - 1].toolCalls != []
    else InCallingWindow(ms[..|ms| - 1])
  }

  /** Something other than a tool result stands after the last assistant message. */
  predicate Wedged(ms: seq<Message>) {
    if ms == [] || ms[|ms| - 1].role == AssistantRole then false
    else ms[|ms| - 1].role != ToolRole || Wedged(ms[..|ms| - 1])
  }

  /** The shape the strict template wants: in the window of a calling turn no tool result comes
      after another kind of message. */
  predicate Legal(ms: seq<Message>) {
    forall k :: 0 <= k < |ms| && ms[k].role == ToolRole && InCallingWindow(ms[..k]) ==> !Wedged(ms[..k])
  }

  lemma LegalSnoc(ms: seq<Message>, m: Message)
    ensures Legal(ms + [m]) <==> Legal(ms) && (IsTool(m) && InCallingWindow(ms) ==> !Wedged(ms))
  {
    var all := ms + [m];
    assert all[..|ms|] == ms;
    assert forall k :: 0 <= k < |ms| ==> all[..k] == ms[..k] && all[k] == ms[k];
    if Legal(all) {
      assert IsTool(all[|ms|]) && InCallingWindow(all[..|ms|]) ==> !Wedged(all[..|ms|]);
      forall k | 0 <= k < |ms| && IsTool(ms[k]) && InCallingWindow(ms[..k]) ensures !Wedged(ms[..k]) {
        assert all[..k] == ms[..k] && IsTool(all[k]);
      }
    }
  }

  /** The reading knows whether it is in a calling window, and whether one is wedged. */
  lemma {:induction false} ReadingKnows(ms: seq<Message>)
    ensures ReadAll(NOTHING, ms).calling == InCallingWindow(ms)
    ensures InCallingWindow(ms) ==> (Wedged(ms) <==> ReadAll(NOTHING, ms).rest != [])
  {
    if ms == [] {
    } else {
      ReadingKnows(ms[..|ms| - 1]);
    }
  }

  lemma {:induction false} LegalIsFixed(ms: seq<Message>)
    requires Legal(ms)
    ensures Normalize(ms) == ms
  {
    if ms == [] {
    } else {
      var front, last := ms[..|ms| - 1], ms[|ms| - 1];
      assert ms == front + [last];
      LegalSnoc(front, last);
      LegalIsFixed(front);
      ReadingKnows(front);
      ReadingSettles(front);
    }
  }

  /** Legal messages appended one by one. */
  lemma {:induction false} LegalTools(ms: seq<Message>, results: seq<Message>)
    requires Legal(ms) && !Wedged(ms) && forall k :: 0 <= k < |results| ==> IsTool(results[k])
    ensures Legal(ms + results) && !Wedged(ms + results)
  {
    if results == [] {
      assert ms + results == ms;
    } else {
      var front, last := results[..|results| - 1], results[|results| - 1];
      LegalTools(ms, front);
      LegalSnoc(ms + front, last);
      assert ms + results == ms + front + [last];
      assert (ms + front + [last])[..|ms + front|] == ms + front;
    }
  }

  lemma {:induction false} LegalRest(ms: seq<Message>, rest: seq<Message>)
    requires Legal(ms) && forall k :: 0 <= k < |rest| ==> !IsTool(rest[k])
    ensures Legal(ms + rest)
  {
    if rest == [] {
      assert ms + rest == ms;
    } else {
      var front, last := rest[..|rest| - 1], rest[|rest| - 1];
      LegalRest(ms, front);
      LegalSnoc(ms + front, last);
      assert ms + rest == ms + front + [last];
    }
  }

  /** The settled part is legal, and is not wedged when its window is still open. */
  predicate SettledLegal(r: Reading) {
    Settled(r) && Legal(r.settled) && (r.calling ==> !Wedged(r.settled))
    && InCallingWindow(r.settled) == r.calling
  }

  lemma WrittenLegal(r: Reading)
    requires SettledLegal(r)
    ensures Legal(Written(r))
  {
    if r.calling {
      LegalTools(r.settled, r.results);
    } else {
      assert r.settled + r.results == r.settled;
    }
    LegalRest(r.settled + r.results, r.rest);
  }

  lemma ReadLegal(r: Reading, m: Message)
    requires SettledLegal(r)
    ensures SettledLegal(Read(r, m))
  {
    ReadSettles(r, m);
    if IsAssistant(m) {
      WrittenLegal(r);
      LegalSnoc(Written(r), m);
    } else if !r.calling {
      LegalSnoc(r.settled, m);
      assert (r.settled + [m])[..|r.settled|] == r.settled;
    }
  }

  lemma {:induction false} ReadingLegal(ms: seq<Message>)
    ensures SettledLegal(ReadAll(NOTHING, ms))
  {
    if ms == [] {
    } else {
      ReadingLegal(ms[..|ms| - 1]);
      ReadLegal(ReadAll(NOTHING, ms[..|ms| - 1]), ms[|ms| - 1]);
    }
  }

  /** Normalising always reaches the legal shape, and leaves a transcript alone exactly when it is
      already in it. */
  lemma FixedIffLegal(ms: seq<Message>)
    ensures Legal(Normalize(ms))
    ensures Normalize(ms) == ms <==> Legal(ms)
  {
    ReadingLegal(ms);
    WrittenLegal(ReadAll(NOTHING, ms));
    if Legal(ms) { LegalIsFixed(ms); }
  }

  // ---- A rearrangement that moves nothing but results past other messages -----------------------

  lemma ResultsSnoc(ms: seq<Message>, m: Message)
    ensures Results(ms + [m]) == if IsTool(m) then Results(ms) + [m] else Results(ms)
    ensures Rest(ms + [m]) == if IsTool(m) then Rest(ms) else Rest(ms) + [m]
  {
    assert (ms + [m])[..|ms|] == ms;
  }

  lemma {:induction false} ResultsAppend(a: seq<Message>, b: seq<Message>)
    ensures Results(a + b) == Results(a) + Results(b)
  {
    if b == [] {
      assert a + b == a;
    } else {
      var front, last := b[..|b| - 1], b[|b| - 1];
      ResultsAppend(a, front);
      ResultsSnoc(a + front, last);
      Sequences.SnocRegroup(a, b);
      if IsTool(last) { Sequences.Regroup(Results(a), Results(front), [last]); }
    }
  }

  lemma {:induction false} RestAppend(a: seq<Message>, b: seq<Message>)
    ensures Rest(a + b) == Rest(a) + Rest(b)
  {
    if b == [] {
      assert a + b == a;
    } else {
      var front, last := b[..|b| - 1], b[|b| - 1];
      RestAppend(a, front);
      ResultsSnoc(a + front, last);
      Sequences.SnocRegroup(a, b);
      if !IsTool(last) { Sequences.Regroup(Rest(a), Rest(front), [last]); }
    }
  }

  /** Tool results keep their order, and so does everything else. */
  predicate KeepsOrders(out: seq<Message>, ms: seq<Message>) {
    Results(out) == Results(ms) && Rest(out) == Rest(ms)
  }

  /** Assistant messages keep their absolute positions. */
  predicate KeepsAssistants(out: seq<Message>, ms: seq<Message>) {
    && |out| == |ms|
    && forall k :: 0 <= k < |ms| && (out[k].role == AssistantRole || ms[k].role == AssistantRole) ==>
         out[k] == ms[k]
  }

  lemma ResultsOfThree(settled: seq<Message>, results: seq<Message>, rest: seq<Message>)
    requires Results(results) == results && Results(rest) == []
    ensures Results(settled + results + rest) == Results(settled) + results
  {
    ResultsAppend(settled + results, rest);
    ResultsAppend(settled, results);
  }

  lemma RestOfThree(settled: seq<Message>, results: seq<Message>, rest: seq<Message>)
    requires Rest(results) == [] && Rest(rest) == rest
    ensures Rest(settled + results + rest) == Rest(settled) + rest
  {
    RestAppend(settled + results, rest);
    RestAppend(settled, results);
  }

  lemma PartsOfThree(settled: seq<Message>, results: seq<Message>, rest: seq<Message>)
    requires forall k :: 0 <= k < |results| ==> IsTool(results[k])
    requires forall k :: 0 <= k < |rest| ==> !IsTool(rest[k])
    ensures Results(settled + results + rest) == Results(settled) + results
    ensures Rest(settled + results + rest) == Rest(settled) + rest
  {
    ResultsOfTools(results);
    RestOfOthers(rest);
    ResultsOfThree(settled, results, rest);
    RestOfThree(settled, results, rest);
  }

  lemma PartsOfWritten(r: Reading)
    requires Settled(r)
    ensures Results(Written(r)) == Results(r.settled) + r.results
    ensures Rest(Written(r)) == Rest(r.settled) + r.rest
  {
    PartsOfThree(r.settled, r.results, r.rest);
  }

  lemma AssistantOrders(r: Reading, m: Message)
    requires Settled(r) && IsAssistant(m)
    ensures KeepsOrders(Written(Read(r, m)), Written(r) + [m])
  {
    assert Written(Read(r, m)) == Written(r) + [m];
  }

  lemma PlainOrders(r: Reading, m: Message)
    requires Settled(r) && !IsAssistant(m) && !r.calling
    ensures KeepsOrders(Written(Read(r, m)), Written(r) + [m])
  {
    assert Written(Read(r, m)) == Written(r) + [m];
  }

  lemma ToolOrders(r: Reading, m: Message)
    requires Settled(r) && IsTool(m)
    ensures KeepsOrders(r.settled + (r.results + [m]) + r.rest, Written(r) + [m])
  {
    PartsOfWritten(r);
    PartsOfThree(r.settled, r.results + [m], r.rest);
    ResultsSnoc(Written(r), m);
    assert Results(r.settled) + (r.results + [m]) == Results(r.settled) + r.results + [m];
  }

  lemma OtherOrders(r: Reading, m: Message)
    requires Settled(r) && !IsTool(m)
    ensures KeepsOrders(r.settled + r.results + (r.rest + [m]), Written(r) + [m])
  {
    assert r.settled + r.results + (r.rest + [m]) == Written(r) + [m];
  }

  lemma WrittenOrders(r: Reading, m: Message)
    requires Settled(r)
    ensures KeepsOrders(Written(Read(r, m)), Written(r) + [m])
  {
    if IsAssistant(m) {
      AssistantOrders(r, m);
    } else if r.calling {
      if IsTool(m) { ToolOrders(r, m); } else { OtherOrders(r, m); }
    } else {
      PlainOrders(r, m);
    }
  }

  lemma OrdersSnoc(out: seq<Message>, ms: seq<Message>, m: Message)
    requires KeepsOrders(out, ms)
    ensures KeepsOrders(out + [m], ms + [m])
  {
    ResultsSnoc(out, m);
    ResultsSnoc(ms, m);
  }

  lemma {:induction false} NormalizeKeepsOrders(ms: seq<Message>)
    ensures KeepsOrders(Normalize(ms), ms)
  {
    if ms == [] {
    } else {
      var front, last := ms[..|ms| - 1], ms[|ms| - 1];
      NormalizeKeepsOrders(front);
      ReadingSettles(front);
      WrittenOrders(ReadAll(NOTHING, front), last);
      OrdersSnoc(Normalize(front), front, last);
      assert ms == front + [last];
    }
  }

  lemma WrittenAssistants(r: Reading, m: Message)
    requires Settled(r)
    ensures KeepsAssistants(Written(Read(r, m)), Written(r) + [m])
  {
    var out, raw := Written(Read(r, m)), Written(r) + [m];
    forall k | 0 <= k < |raw| && k < |out| && (IsAssistant(out[k]) || IsAssistant(raw[k])) ensures out[k] == raw[k] {
      if k < |r.settled| { assert out[k] == r.settled[k] == raw[k]; }
    }
  }

  lemma {:induction false} NormalizeKeepsAssistants(ms: seq<Message>)
    ensures KeepsAssistants(Normalize(ms), ms)
  {
    if ms == [] {
    } else {
      var front, last := ms[..|ms| - 1], ms[|ms| - 1];
      NormalizeKeepsAssistants(front);
      ReadingSettles(front);
      WrittenAssistants(ReadAll(NOTHING, front), last);
    }
  }

  /** The results and the rest together are all there is. */
  lemma {:induction false} PartsAreAll(ms: seq<Message>)
    ensures multiset(Results(ms)) + multiset(Rest(ms)) == multiset(ms)
  {
    if ms == [] {
    } else {
      PartsAreAll(ms[..|ms| - 1]);
      assert ms == ms[..|ms| - 1] + [ms[|ms| - 1]];
    }
  }

  /** A permutation that keeps assistants where they are and both relative orders. */
  lemma NormalizeRearranges(ms: seq<Message>)
    ensures KeepsAssistants(Normalize(ms), ms) && KeepsOrders(Normalize(ms), ms)
    ensures multiset(Normalize(ms)) == multiset(ms)
  {
    NormalizeKeepsAssistants(ms);
    NormalizeKeepsOrders(ms);
    PartsAreAll(ms);
    PartsAreAll(Normalize(ms));
  }
}
