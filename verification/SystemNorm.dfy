/** System messages where a strict template accepts them.

    Placement does not depend on how texts are merged, so it is written over a `Merger`, the
    content that replaces a list of system messages; `MergedContent` is the one in use. */
module SystemNorm {
  import opened Transcript
  import Sequences

  datatype Policy = AsIs | HoistAll | DemoteLater

  type Merger = seq<Message> -> Content

  // ---- Placement ------------------------------------------------------------------------------

  predicate AllSystem(ms: seq<Message>) {
    forall k :: 0 <= k < |ms| ==> IsSystem(ms[k])
  }

  predicate NoSystem(ms: seq<Message>) {
    forall k :: 0 <= k < |ms| ==> !IsSystem(ms[k])
  }

  function Systems(ms: seq<Message>): seq<Message> {
    if ms == [] then []
    else
      var front, last := Systems(ms[..|ms| - 1]), ms[|ms| - 1];
      if IsSystem(last) then front + [last] else front
  }

  function Others(ms: seq<Message>): seq<Message> {
    if ms == [] then []
    else
      var front, last := Others(ms[..|ms| - 1]), ms[|ms| - 1];
      if IsSystem(last) then front else front + [last]
  }

  function SystemMessage(content: Content): Message {
    Message(SystemRole, content, [], "", "")
  }

  /** `_hoist`. */
  function Hoist(merge: Merger, ms: seq<Message>): seq<Message> {
    if Systems(ms) == [] then ms else [SystemMessage(merge(Systems(ms)))] + Others(ms)
  }

  /** How many system messages lead. */
  function HeadRun(ms: seq<Message>): (n: nat)
    ensures n <= |ms| && AllSystem(ms[..n])
    ensures n < |ms| ==> !IsSystem(ms[n])
  {
    if ms == [] || !IsSystem(ms[0]) then 0
    else
      assert forall k :: 0 <= k < HeadRun(ms[1..]) ==> ms[k + 1] == ms[1..][..HeadRun(ms[1..])][k];
      1 + HeadRun(ms[1..])
  }

  function Demoted(m: Message): Message {
    if IsSystem(m) then m.(role := UserRole) else m
  }

  function DemoteAll(ms: seq<Message>): seq<Message> {
    seq(|ms|, i requires 0 <= i < |ms| => Demoted(ms[i]))
  }

  /** The leading run merged into its first message, which keeps its other keys. */
  function MergedHead(merge: Merger, run: seq<Message>): seq<Message> {
    if run == [] then [] else [run[0].(content := merge(run))]
  }

  /** A leading run and what follows it; left alone when the placement is already legal. */
  function DemoteParts(merge: Merger, run: seq<Message>, rest: seq<Message>): seq<Message> {
    if |run| <= 1 && NoSystem(rest) then run + rest else MergedHead(merge, run) + DemoteAll(rest)
  }

  /** `_demote_to_user`. */
  function DemoteToUser(merge: Merger, ms: seq<Message>): seq<Message> {
    DemoteParts(merge, ms[..HeadRun(ms)], ms[HeadRun(ms)..])
  }

  /** `normalize_system_messages`; `gate` is the outcome of the model pattern. */
  function NormalizeWith(merge: Merger, ms: seq<Message>, policy: Policy, gate: bool): seq<Message> {
    if !gate || policy == AsIs || ms == [] then ms
    else if policy == HoistAll then Hoist(merge, ms)
    else DemoteToUser(merge, ms)
  }

  // ---- Texts ------------------------------------------------------------------------------------

  const SEPARATOR := "\n\n"

  function PartsText(parts: seq<Part>): string {
    if parts == [] then ""
    else
      var last := parts[|parts| - 1];
      PartsText(parts[..|parts| - 1]) + (if last.TextPart? then last.text else "")
  }

  /** `_content_text`. */
  function ContentText(c: Content): string {
    match c
    case Text(text) => text
    case Parts(parts) => PartsText(parts)
    case Junk(_) => ""
  }

  /** Two texts with a blank line between them, unless one is empty. */
  function Merge(a: string, b: string): string {
    if a == "" then b else if b == "" then a else a + SEPARATOR + b
  }

  /** `_merge_texts`: the non-empty texts, a blank line apart. */
  function MergeTexts(texts: seq<string>): string {
    if texts == [] then "" else Merge(MergeTexts(texts[..|texts| - 1]), texts[|texts| - 1])
  }

  function TextsOf(ms: seq<Message>): seq<string> {
    seq(|ms|, i requires 0 <= i < |ms| => ContentText(ms[i].content))
  }

  function MergedContent(ms: seq<Message>): Content {
    Text(MergeTexts(TextsOf(ms)))
  }

  function Normalize(ms: seq<Message>, policy: Policy, gate: bool): seq<Message> {
    NormalizeWith(MergedContent, ms, policy, gate)
  }

  lemma MergeAssociative(a: string, b: string, c: string)
    ensures Merge(Merge(a, b), c) == Merge(a, Merge(b, c))
  {
    if a != "" && b != "" && c != "" {
      assert a + SEPARATOR + b + SEPARATOR + c == a + SEPARATOR + (b + SEPARATOR + c);
    }
  }

  lemma {:induction false} MergeTextsAppend(a: seq<string>, b: seq<string>)
    ensures MergeTexts(a + b) == Merge(MergeTexts(a), MergeTexts(b))
  {
    if b == [] {
      assert a + b == a;
    } else {
      var front, last := b[..|b| - 1], b[|b| - 1];
      MergeTextsAppend(a, front);
      assert (a + b)[..|a + b| - 1] == a + front;
      MergeAssociative(MergeTexts(a), MergeTexts(front), last);
    }
  }

  /** Texts merged once can be merged again with later ones. */
  lemma MergeMerged(a: seq<string>, b: seq<string>)
    ensures MergeTexts([MergeTexts(a)] + b) == MergeTexts(a + b)
  {
    MergeTextsAppend([MergeTexts(a)], b);
    MergeTextsAppend(a, b);
    assert [MergeTexts(a)][..0] == [];
  }

  /** A message that already merges `run` merges with later ones as all of them would. */
  predicate RemergesAt(merge: Merger, m: Message, run: seq<Message>, more: seq<Message>) {
    m.content == merge(run) ==> merge([m] + more) == merge(run + more)
  }

  ghost predicate Remerges(merge: Merger) {
    forall m: Message, run: seq<Message>, more: seq<Message> :: RemergesAt(merge, m, run, more)
  }

  lemma TextsOfAppend(a: seq<Message>, b: seq<Message>)
    ensures TextsOf(a + b) == TextsOf(a) + TextsOf(b)
  {
  }

  lemma MergedOnce(m: Message, run: seq<Message>, more: seq<Message>)
    requires m.content == MergedContent(run)
    ensures MergedContent([m] + more) == MergedContent(run + more)
  {
    TextsOfAppend([m], more);
    TextsOfAppend(run, more);
    MergeMerged(TextsOf(run), TextsOf(more));
    assert TextsOf([m]) == [MergeTexts(TextsOf(run))];
  }

  lemma MergedContentRemerges()
    ensures Remerges(MergedContent)
  {
    forall m: Message, run: seq<Message>, more: seq<Message> ensures RemergesAt(MergedContent, m, run, more) {
      if m.content == MergedContent(run) { MergedOnce(m, run, more); }
    }
  }

  // ---- The source's loops -----------------------------------------------------------------------

  method TextOfContent(c: Content) returns (text: string)
    ensures text == ContentText(c)
  {
    match c {
      case Text(t) => text := t;
      case Junk(_) => text := "";
      case Parts(parts) =>
        text := "";
        for i := 0 to |parts|
          invariant text == PartsText(parts[..i])
        {
          assert parts[..i + 1][..i] == parts[..i];
          if parts[i].TextPart? { text := text + parts[i].text; }
        }
        assert parts[..|parts|] == parts;
    }
  }

  method HoistMessages(messages: seq<Message>) returns (out: seq<Message>)
    ensures out == Hoist(MergedContent, messages)
  {
    var texts: seq<string>, rest := [], [];
    for i := 0 to |messages|
      invariant texts == TextsOf(Systems(messages[..i])) && rest == Others(messages[..i])
    {
      assert messages[..i + 1][..i] == messages[..i];
      if IsSystem(messages[i]) {
        var text := TextOfContent(messages[i].content);
        texts := texts + [text];
      } else {
        rest := rest + [messages[i]];
      }
    }
    assert messages[..|messages|] == messages;
    if texts == [] { return messages; }
    out := [SystemMessage(Text(MergeTexts(texts)))] + rest;
  }

  lemma {:induction false} HeadRunIs(ms: seq<Message>, n: nat)
    requires n <= |ms| && (forall k :: 0 <= k < n ==> IsSystem(ms[k])) && (n < |ms| ==> !IsSystem(ms[n]))
    ensures HeadRun(ms) == n
  {
    if n == 0 {
    } else {
      HeadRunIs(ms[1..], n - 1);
    }
  }

  lemma DemotePartsAt(merge: Merger, ms: seq<Message>, n: nat)
    requires n <= |ms| && (forall k :: 0 <= k < n ==> IsSystem(ms[k])) && (n < |ms| ==> !IsSystem(ms[n]))
    ensures DemoteToUser(merge, ms) == DemoteParts(merge, ms[..n], ms[n..])
  {
    HeadRunIs(ms, n);
  }

  /** The tail with every system message turned into a user turn. */
  method DemoteTail(head: seq<Message>, tail: seq<Message>) returns (out: seq<Message>)
    ensures out == head + DemoteAll(tail)
  {
    out := head;
    for i := 0 to |tail|
      invariant out == head + DemoteAll(tail[..i])
    {
      if IsSystem(tail[i]) {
        out := out + [tail[i].(role := UserRole)];
      } else {
        out := out + [tail[i]];
      }
      assert DemoteAll(tail[..i + 1]) == DemoteAll(tail[..i]) + [Demoted(tail[i])];
    }
    assert tail[..|tail|] == tail;
  }

  method DemoteMessages(messages: seq<Message>) returns (out: seq<Message>)
    ensures out == DemoteToUser(MergedContent, messages)
  {
    var headRun := 0;
    while headRun < |messages| && IsSystem(messages[headRun])
      invariant 0 <= headRun <= |messages| && forall k :: 0 <= k < headRun ==> IsSystem(messages[k])
    {
      headRun := headRun + 1;
    }
    DemotePartsAt(MergedContent, messages, headRun);
    var run, tail := messages[..headRun], messages[headRun..];
    if headRun <= 1 && NoSystem(tail) {
      assert run + tail == messages;
      return messages;
    }
    var head := if headRun > 0 then [run[0].(content := Text(MergeTexts(TextsOf(run))))] else [];
    assert head == MergedHead(MergedContent, run);
    out := DemoteTail(head, tail);
  }

  method NormalizeSystemMessages(messages: seq<Message>, policy: Policy, gate: bool) returns (out: seq<Message>)
    ensures out == Normalize(messages, policy, gate)
  {
    if !gate || policy == AsIs || messages == [] { return messages; }
    if policy == HoistAll {
      out := HoistMessages(messages);
    } else {
      out := DemoteMessages(messages);
    }
  }

  // ---- Systems and others ---------------------------------------------------------------------------

  lemma SystemsSnoc(ms: seq<Message>, m: Message)
    ensures Systems(ms + [m]) == if IsSystem(m) then Systems(ms) + [m] else Systems(ms)
    ensures Others(ms + [m]) == if IsSystem(m) then Others(ms) else Others(ms) + [m]
  {
    assert (ms + [m])[..|ms|] == ms;
  }

  lemma {:induction false} SystemsAppend(a: seq<Message>, b: seq<Message>)
    ensures Systems(a + b) == Systems(a) + Systems(b)
  {
    if b == [] {
      assert a + b == a;
    } else {
      var front, last := b[..|b| - 1], b[|b| - 1];
      SystemsAppend(a, front);
      SystemsSnoc(a + front, last);
      Sequences.SnocRegroup(a, b);
      if IsSystem(last) { Sequences.Regroup(Systems(a), Systems(front), [last]); }
    }
  }

  lemma {:induction false} OthersAppend(a: seq<Message>, b: seq<Message>)
    ensures Others(a + b) == Others(a) + Others(b)
  {
    if b == [] {
      assert a + b == a;
    } else {
      var front, last := b[..|b| - 1], b[|b| - 1];
      OthersAppend(a, front);
      SystemsSnoc(a + front, last);
      Sequences.SnocRegroup(a, b);
      if !IsSystem(last) { Sequences.Regroup(Others(a), Others(front), [last]); }
    }
  }

  lemma {:induction false} WithoutSystem(ms: seq<Message>)
    ensures Systems(ms) == [] <==> NoSystem(ms)
    ensures NoSystem(ms) ==> Others(ms) == ms
    ensures NoSystem(Others(ms)) && AllSystem(Systems(ms))
  {
    if ms == [] {
    } else {
      var front, last := ms[..|ms| - 1], ms[|ms| - 1];
      WithoutSystem(front);
      assert ms == front + [last];
    }
  }

  lemma OneMessage(m: Message)
    ensures Systems([m]) == (if IsSystem(m) then [m] else [])
    ensures Others([m]) == (if IsSystem(m) then [] else [m])
  {
    assert [m][..0] == [];
  }

  // ---- Legal placement ------------------------------------------------------------------------------

  /** At most one system message, and only at index 0. */
  predicate Legal(ms: seq<Message>) {
    forall k :: 0 < k < |ms| ==> !IsSystem(ms[k])
  }

  lemma DemoteAllHasNoSystem(ms: seq<Message>)
    ensures NoSystem(DemoteAll(ms))
    ensures NoSystem(ms) ==> DemoteAll(ms) == ms
  {
  }

  lemma LongHeadRun(ms: seq<Message>)
    requires HeadRun(ms) >= 2
    ensures !Legal(ms)
  {
    assert ms[..HeadRun(ms)][1] == ms[1];
  }

  lemma DemotedIsLegal(merge: Merger, ms: seq<Message>)
    ensures Legal(DemoteToUser(merge, ms))
  {
    DemoteAllHasNoSystem(ms[HeadRun(ms)..]);
  }

  lemma LegalIsFixed(merge: Merger, ms: seq<Message>)
    requires Legal(ms)
    ensures DemoteToUser(merge, ms) == ms
  {
    var n := HeadRun(ms);
    var run, rest := ms[..n], ms[n..];
    assert ms == run + rest;
    if n >= 2 { LongHeadRun(ms); }
    assert NoSystem(rest) by {
      forall k | 0 <= k < |rest| ensures !IsSystem(rest[k]) { assert rest[k] == ms[n + k]; }
    }
  }

  /** A transcript is left alone exactly when its placement is already legal. */
  lemma DemoteFixedIffLegal(merge: Merger, ms: seq<Message>)
    ensures Legal(DemoteToUser(merge, ms))
    ensures DemoteToUser(merge, ms) == ms <==> Legal(ms)
  {
    DemotedIsLegal(merge, ms);
    if Legal(ms) { LegalIsFixed(merge, ms); }
  }

  lemma DemoteIsParts(merge: Merger, run: seq<Message>, rest: seq<Message>)
    requires AllSystem(run) && (rest != [] ==> !IsSystem(rest[0]))
    ensures DemoteToUser(merge, run + rest) == DemoteParts(merge, run, rest)
  {
    HeadRunIs(run + rest, |run|);
    assert (run + rest)[..|run|] == run && (run + rest)[|run|..] == rest;
  }

  /** What stands in front of the rest. */
  function HeadOf(merge: Merger, run: seq<Message>, rest: seq<Message>): seq<Message> {
    if |run| <= 1 && NoSystem(rest) then run else MergedHead(merge, run)
  }

  lemma PartsAreHeadAndRest(merge: Merger, run: seq<Message>, rest: seq<Message>)
    ensures DemoteParts(merge, run, rest) == HeadOf(merge, run, rest) + DemoteAll(rest)
  {
    DemoteAllHasNoSystem(rest);
  }

  lemma HeadPlaces(merge: Merger, run: seq<Message>, rest: seq<Message>)
    requires AllSystem(run)
    ensures Heads(merge, HeadOf(merge, run, rest), run, rest)
  {
  }

  /** The leading run becomes one system message; every later message stays at its place behind
      it, a system one as a user turn with its content untouched. */
  predicate Placed(merge: Merger, out: seq<Message>, run: seq<Message>, rest: seq<Message>) {
    var h := if run == [] then 0 else 1;
    && |out| == h + |rest|
    && (h == 1 ==> HeadIs(merge, out[0], run, rest))
    && BodyIs(out[h..], rest)
  }

  /** Every message as it was, a system one as a user turn. */
  predicate BodyIs(body: seq<Message>, rest: seq<Message>) {
    && |body| == |rest|
    && forall k :: 0 <= k < |rest| ==>
         body[k] == if rest[k].role == SystemRole then rest[k].(role := UserRole) else rest[k]
  }

  /** The first message of the run, its content merged when the run is longer or a system message follows later. */
  predicate HeadIs(merge: Merger, m: Message, run: seq<Message>, rest: seq<Message>)
    requires run != []
  {
    m == run[0].(content := if |run| > 1 || exists k :: 0 <= k < |rest| && rest[k].role == SystemRole then merge(run)
                            else run[0].content)
  }

  /** A head of this kind. */
  predicate Heads(merge: Merger, head: seq<Message>, run: seq<Message>, rest: seq<Message>) {
    && |head| == (if run == [] then 0 else 1)
    && (head != [] ==> HeadIs(merge, head[0], run, rest))
  }

  lemma PlacedBehind(merge: Merger, head: seq<Message>, run: seq<Message>, rest: seq<Message>)
    requires Heads(merge, head, run, rest)
    ensures Placed(merge, head + DemoteAll(rest), run, rest)
  {
    BodyIsDemoted(rest);
    assert (head + DemoteAll(rest))[|head|..] == DemoteAll(rest);
  }

  lemma BodyIsDemoted(rest: seq<Message>)
    ensures BodyIs(DemoteAll(rest), rest)
  {
  }

  lemma PartsPlaced(merge: Merger, run: seq<Message>, rest: seq<Message>)
    requires AllSystem(run)
    ensures Placed(merge, HeadOf(merge, run, rest) + DemoteAll(rest), run, rest)
  {
    HeadPlaces(merge, run, rest);
    PlacedBehind(merge, HeadOf(merge, run, rest), run, rest);
  }

  lemma DemotionPlaces(merge: Merger, run: seq<Message>, rest: seq<Message>)
    requires AllSystem(run) && (rest != [] ==> !IsSystem(rest[0]))
    ensures DemoteToUser(merge, run + rest) == DemoteParts(merge, run, rest)
    ensures Placed(merge, DemoteToUser(merge, run + rest), run, rest)
  {
    DemoteIsParts(merge, run, rest);
    PartsAreHeadAndRest(merge, run, rest);
    PartsPlaced(merge, run, rest);
  }

  /** Hoisting leaves at most one system message, in front, whose content merges all of them, and
      every other message in order. */
  lemma HoistKeeps(merge: Merger, ms: seq<Message>)
    ensures Legal(Hoist(merge, ms))
    ensures Others(Hoist(merge, ms)) == Others(ms)
    ensures !NoSystem(ms) ==> Hoist(merge, ms)[0] == Message(SystemRole, merge(Systems(ms)), [], "", "")
  {
    WithoutSystem(ms);
    if Systems(ms) != [] {
      var m := SystemMessage(merge(Systems(ms)));
      WithoutSystem(Others(ms));
      OthersAppend([m], Others(ms));
      OneMessage(m);
    }
  }

  /** Hoisted: one new message with the merged texts, then the others. */
  predicate Hoisted(merge: Merger, out: seq<Message>, ms: seq<Message>) {
    if exists k :: 0 <= k < |ms| && ms[k].role == SystemRole
    then out == [Message(SystemRole, merge(Systems(ms)), [], "", "")] + Others(ms)
    else out == ms
  }

  lemma HoistIs(merge: Merger, ms: seq<Message>)
    ensures Hoisted(merge, Hoist(merge, ms), ms)
  {
    WithoutSystem(ms);
  }

  lemma DemotionIs(merge: Merger, ms: seq<Message>) returns (run: seq<Message>, rest: seq<Message>)
    ensures ms == run + rest && AllSystem(run) && (rest != [] ==> rest[0].role != SystemRole)
    ensures Placed(merge, DemoteToUser(merge, ms), run, rest)
  {
    run, rest := ms[..HeadRun(ms)], ms[HeadRun(ms)..];
    assert ms == run + rest;
    DemotionPlaces(merge, run, rest);
  }

  /** What each policy does behind its gate: nothing, hoisting, or demotion of what follows the leading run. */
  lemma NormalizeByPolicy(merge: Merger, ms: seq<Message>, policy: Policy, gate: bool)
    returns (run: seq<Message>, rest: seq<Message>)
    ensures ms == run + rest && AllSystem(run) && (rest != [] ==> rest[0].role != SystemRole)
    ensures var out := NormalizeWith(merge, ms, policy, gate);
            && (!gate || policy == AsIs ==> out == ms)
            && (gate && policy == HoistAll ==> Hoisted(merge, out, ms))
            && (gate && policy == DemoteLater ==> Placed(merge, out, run, rest))
  {
    HoistIs(merge, ms);
    run, rest := DemotionIs(merge, ms);
  }
}
