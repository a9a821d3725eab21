/** What stands in a merged system message: every instruction it absorbed, whole and in order. */
module SystemTexts {
  import opened Transcript
  import opened Sequences
  import opened Layout
  import opened SystemNorm
  import C = Chaining

  // ---- The text of one message -------------------------------------------------------------------------

  /** The texts of the text parts, in order. */
  function PartTexts(parts: seq<Part>): seq<string> {
    if parts == [] then []
    else
      var last := parts[|parts| - 1];
      PartTexts(parts[..|parts| - 1]) + (if last.TextPart? then [last.text] else [])
  }

  /** One more part. */
  lemma PartAdds(front: seq<Part>, last: Part)
    ensures PartsText(front + [last]) == PartsText(front) + (if last.TextPart? then last.text else "")
    ensures PartTexts(front + [last]) == PartTexts(front) + (if last.TextPart? then [last.text] else [])
  {
    assert (front + [last])[..|front|] == front;
  }

  /** The text of structured content is that of its text parts with nothing in between. */
  lemma {:induction false} PartsLaidOut(parts: seq<Part>)
    ensures LaidOut(PartsText(parts), PartTexts(parts), "")
  {
    if parts == [] {
    } else {
      var front, last := parts[..|parts| - 1], parts[|parts| - 1];
      PartsLaidOut(front);
      PartAdds(front, last);
      assert front + [last] == parts;
      if last.TextPart? {
        LaidOutNext(PartsText(front), PartTexts(front), last.text);
      } else {
        assert PartsText(front) + "" == PartsText(front) && PartTexts(front) + [] == PartTexts(front);
      }
    }
  }

  /** A string is its own text, structured content has that of its text parts, anything else has none. */
  lemma ContentTextIs(c: Content)
    ensures match c
            case Text(text) => ContentText(c) == text
            case Parts(parts) => LaidOut(ContentText(c), PartTexts(parts), "")
            case Junk(_) => ContentText(c) == ""
  {
    if c.Parts? { PartsLaidOut(c.parts); }
  }

  // ---- Merged texts ---------------------------------------------------------------------------------------

  function NotEmpty(): string -> bool {
    (text: string) => text != ""
  }

  /** The texts that are not empty, in order. */
  function NonEmpty(texts: seq<string>): seq<string> {
    Filter(texts, NotEmpty())
  }

  /** The merged text is the non-empty texts, whole and in order, with exactly a blank line between
      neighbours and nothing else. */
  lemma {:induction false} MergedLaidOut(texts: seq<string>)
    ensures LaidOut(MergeTexts(texts), NonEmpty(texts), "\n\n")
    ensures NonEmpty(texts) == [] <==> MergeTexts(texts) == ""
  {
    if texts == [] {
    } else {
      var front, last := texts[..|texts| - 1], texts[|texts| - 1];
      MergedLaidOut(front);
      if last == "" {
      } else if NonEmpty(front) == [] {
        OneLaidOut(last, "\n\n");
        assert NonEmpty(texts) == [last];
      } else {
        LaidOutSnoc(MergeTexts(front), NonEmpty(front), "\n\n", last);
        Regroup(MergeTexts(front), "\n\n", last);
      }
    }
  }

  /** Its length: all of the texts, and two characters for every gap. */
  function Lengths(texts: seq<string>): nat {
    if texts == [] then 0 else Lengths(texts[..|texts| - 1]) + |texts[|texts| - 1]|
  }

  lemma {:induction false} OffsetIsLengths(texts: seq<string>, k: nat, gap: nat)
    requires k <= |texts|
    ensures Offset(texts, k, gap) == Lengths(texts[..k]) + k * gap
  {
    if k == 0 {
    } else {
      OffsetIsLengths(texts, k - 1, gap);
      assert texts[..k][..k - 1] == texts[..k - 1];
    }
  }

  lemma MergedLength(texts: seq<string>)
    ensures var ne := NonEmpty(texts);
            |MergeTexts(texts)| == Lengths(ne) + (if ne == [] then 0 else 2 * (|ne| - 1))
  {
    var ne := NonEmpty(texts);
    MergedLaidOut(texts);
    OffsetIsLengths(ne, |ne|, 2);
    assert ne[..|ne|] == ne;
  }

  /** A non-empty text among others is one of the non-empty ones. */
  lemma {:induction false} IsKept(texts: seq<string>, k: nat) returns (j: nat)
    requires k < |texts| && texts[k] != ""
    ensures j < |NonEmpty(texts)| && NonEmpty(texts)[j] == texts[k]
  {
    var front, last := texts[..|texts| - 1], texts[|texts| - 1];
    if k == |front| {
      j := |NonEmpty(texts)| - 1;
    } else {
      j := IsKept(front, k);
    }
  }

  /** So every text stands in the merged text. */
  lemma StandsInMerged(texts: seq<string>, k: nat) returns (at: nat)
    requires k < |texts|
    ensures Stands(MergeTexts(texts), at, texts[k])
  {
    if texts[k] == "" {
      at := 0;
    } else {
      var j := IsKept(texts, k);
      MergedLaidOut(texts);
      assert PieceAt(MergeTexts(texts), NonEmpty(texts), "\n\n", j);
      at := Offset(NonEmpty(texts), j, 2);
    }
  }

  // ---- What a normalisation absorbs ---------------------------------------------------------------------

  /** A system message that the policy merges into the leading one: every one under hoisting, those of the
      leading run under demotion. */
  predicate Absorbed(ms: seq<Message>, policy: Policy, k: nat)
    requires k < |ms|
  {
    && policy != AsIs && ms[k].role == SystemRole
    && (policy == DemoteLater ==> forall j :: 0 <= j < k ==> ms[j].role == SystemRole)
  }

  lemma {:induction false} InSystems(ms: seq<Message>, k: nat) returns (j: nat)
    requires k < |ms| && IsSystem(ms[k])
    ensures j < |Systems(ms)| && Systems(ms)[j] == ms[k]
  {
    var front, last := ms[..|ms| - 1], ms[|ms| - 1];
    if k == |front| {
      j := |Systems(ms)| - 1;
    } else {
      j := InSystems(front, k);
    }
  }

  lemma HoistAbsorbs(ms: seq<Message>, k: nat) returns (at: nat)
    requires k < |ms| && IsSystem(ms[k])
    ensures var out := Hoist(MergedContent, ms);
            && out != [] && out[0] == Message(SystemRole, out[0].content, [], "", "")
            && out[0].content.Text? && Stands(out[0].content.text, at, ContentText(ms[k].content))
  {
    var j := InSystems(ms, k);
    at := StandsInMerged(TextsOf(Systems(ms)), j);
  }

  lemma DemotionAbsorbs(ms: seq<Message>, k: nat) returns (at: nat)
    requires k < HeadRun(ms)
    ensures var out := DemoteToUser(MergedContent, ms);
            && out != [] && out[0] == ms[0].(content := out[0].content)
            && Stands(ContentText(out[0].content), at, ContentText(ms[k].content))
  {
    var run, rest := ms[..HeadRun(ms)], ms[HeadRun(ms)..];
    if |run| <= 1 && NoSystem(rest) {
      assert run + rest == ms;
      at := 0;
    } else {
      at := StandsInMerged(TextsOf(run), k);
    }
  }

  lemma {:induction false} InHeadRun(ms: seq<Message>, k: nat)
    requires k < |ms| && forall j :: 0 <= j <= k ==> IsSystem(ms[j])
    ensures k < HeadRun(ms)
  {
    if k == 0 {
    } else {
      InHeadRun(ms[1..], k - 1);
    }
  }

  /** The text of every system message that a normalisation absorbs stands in the leading message. */
  lemma AbsorbedTextsRemain(ms: seq<Message>, policy: Policy, k: nat) returns (at: nat)
    requires k < |ms| && Absorbed(ms, policy, k)
    ensures var out := Normalize(ms, policy, true);
            && out != [] && IsSystem(out[0])
            && Stands(ContentText(out[0].content), at, ContentText(ms[k].content))
  {
    if policy == HoistAll {
      at := HoistAbsorbs(ms, k);
    } else {
      InHeadRun(ms, k);
      at := DemotionAbsorbs(ms, k);
      assert IsSystem(ms[0]);
    }
  }

  // ---- What goes upstream -----------------------------------------------------------------------------------

  /** The tool normalisation behind it leaves the leading message as it is. */
  lemma ToolsLeaveTheHead(ms: seq<Message>, s: C.Settings)
    requires ms != [] && IsSystem(ms[0])
    ensures C.Tools(ms, s) != [] && C.Tools(ms, s)[0] == ms[0]
  {
    assert [ms[0]] + ms[1..] == ms;
    C.ToolsBehindHead([ms[0]], ms[1..]);
  }

  /** So the text of every absorbed system message goes upstream, in the leading message. */
  lemma AbsorbedTextsAreSent(ms: seq<Message>, s: C.Settings, k: nat) returns (at: nat)
    requires k < |ms| && s.systemGate && Absorbed(ms, s.policy, k)
    ensures var out := C.Normalize(ms, s);
            && out != [] && IsSystem(out[0])
            && Stands(ContentText(out[0].content), at, ContentText(ms[k].content))
  {
    at := AbsorbedTextsRemain(ms, s.policy, k);
    ToolsLeaveTheHead(Normalize(ms, s.policy, true), s);
  }

  // ---- The instructions of a chain --------------------------------------------------------------------------

  /** A turn in the history: its instructions as a system message, unless they are absent or empty, its input,
      and behind it the reply, unless the turn is the last. */
  predicate TurnStands(history: seq<Message>, at: nat, t: C.Turn, last: bool) {
    var n := if t.instructions.Some? && t.instructions.value != "" then 1 else 0;
    && at + n + |t.input| + (if last then 0 else 1) <= |history|
    && (n == 1 ==> history[at] == Message(SystemRole, Text(t.instructions.value), [], "", ""))
    && history[at + n..at + n + |t.input|] == t.input
    && (!last ==> history[at + n + |t.input|] == t.reply)
  }

  /** The messages of a turn. */
  function TurnLength(t: C.Turn, last: bool): nat {
    (if t.instructions.Some? && t.instructions.value != "" then 1 else 0) + |t.input| + (if last then 0 else 1)
  }

  /** Where the i-th turn begins: behind the messages of those before it. */
  function TurnStart(turns: seq<C.Turn>, i: nat): nat
    requires i <= |turns|
  {
    if i == 0 then 0 else TurnStart(turns, i - 1) + TurnLength(turns[i - 1], false)
  }

  lemma {:induction false} TurnStartFront(turns: seq<C.Turn>, n: nat, i: nat)
    requires i <= n <= |turns|
    ensures TurnStart(turns[..n], i) == TurnStart(turns, i)
  {
    if i > 0 { TurnStartFront(turns, n, i - 1); }
  }

  lemma TurnStandsIn(before: seq<Message>, t: C.Turn, more: seq<Message>)
    ensures TurnStands(before + C.RawMessages(t) + more, |before|, t, true)
    ensures |C.RawMessages(t)| == TurnLength(t, true)
  {
    var n := if t.instructions.Some? && t.instructions.value != "" then 1 else 0;
    var history := before + C.RawMessages(t) + more;
    assert history[|before| + n..|before| + n + |t.input|] == t.input;
  }

  lemma TurnStillStands(history: seq<Message>, at: nat, t: C.Turn, last: bool, more: seq<Message>)
    requires TurnStands(history, at, t, last)
    ensures TurnStands(history + more, at, t, last)
  {
    var n := if t.instructions.Some? && t.instructions.value != "" then 1 else 0;
    assert (history + more)[at + n..at + n + |t.input|] == history[at + n..at + n + |t.input|];
  }

  lemma ReplyStands(history: seq<Message>, at: nat, t: C.Turn)
    requires TurnStands(history, at, t, true) && |history| == at + TurnLength(t, true)
    ensures TurnStands(history + [t.reply], at, t, false)
  {
    TurnStillStands(history, at, t, true, [t.reply]);
  }

  /** Every turn but the last, with its reply. */
  predicate TurnsStand(history: seq<Message>, turns: seq<C.Turn>, n: nat)
    requires n <= |turns|
  {
    forall i :: 0 <= i < n ==> TurnStands(history, TurnStart(turns, i), turns[i], false)
  }

  lemma TurnsStillStand(history: seq<Message>, turns: seq<C.Turn>, n: nat, more: seq<Message>)
    requires n <= |turns| && TurnsStand(history, turns, n)
    ensures TurnsStand(history + more, turns, n)
  {
    forall i | 0 <= i < n ensures TurnStands(history + more, TurnStart(turns, i), turns[i], false) {
      TurnStillStands(history, TurnStart(turns, i), turns[i], false, more);
    }
  }

  lemma TurnsOfFront(history: seq<Message>, turns: seq<C.Turn>, m: nat, n: nat)
    requires n <= m <= |turns| && TurnsStand(history, turns[..m], n)
    ensures TurnsStand(history, turns, n)
  {
    forall i | 0 <= i < n ensures TurnStands(history, TurnStart(turns, i), turns[i], false) {
      TurnStartFront(turns, m, i);
      assert TurnStands(history, TurnStart(turns[..m], i), turns[..m][i], false);
    }
  }

  /** The last turn of before, now with its reply, stands like those before it. */
  lemma ReplyAdds(history: seq<Message>, turns: seq<C.Turn>, n: nat)
    requires n < |turns| && TurnsStand(history, turns, n)
    requires TurnStands(history, TurnStart(turns, n), turns[n], true)
    requires |history| == TurnStart(turns, n) + TurnLength(turns[n], true)
    ensures TurnsStand(history + [turns[n].reply], turns, n + 1)
  {
    TurnsStillStand(history, turns, n, [turns[n].reply]);
    ReplyStands(history, TurnStart(turns, n), turns[n]);
  }

  /** The raw history is the turns one after the other, and nothing else. */
  lemma {:induction false} HistoryIsTheTurns(turns: seq<C.Turn>)
    requires turns != []
    ensures var history, n := C.RawHistory(turns), |turns| - 1;
            && |history| == TurnStart(turns, n) + TurnLength(turns[n], true)
            && TurnStands(history, TurnStart(turns, n), turns[n], true)
            && TurnsStand(history, turns, n)
  {
    var n := |turns| - 1;
    var front, t := turns[..n], turns[n];
    if n == 0 {
      TurnStandsIn([], t, []);
      assert [] + C.RawMessages(t) + [] == C.RawMessages(t);
    } else {
      var was := C.RawHistory(front);
      HistoryIsTheTurns(front);
      HistoryGoesOn(turns, was);
      ReplyAdds(was, front, n - 1);
      TurnsOfFront(was + [front[n - 1].reply], turns, n, n);
      TurnsStillStand(was + [front[n - 1].reply], turns, n, C.RawMessages(t));
    }
  }

  lemma HistoryGoesOn(turns: seq<C.Turn>, was: seq<Message>)
    requires |turns| > 1 && was == C.RawHistory(turns[..|turns| - 1])
    requires |was| == TurnStart(turns[..|turns| - 1], |turns| - 2) + TurnLength(turns[|turns| - 2], true)
    ensures var n := |turns| - 1;
            && C.RawHistory(turns) == was + [turns[n - 1].reply] + C.RawMessages(turns[n])
            && |C.RawHistory(turns)| == TurnStart(turns, n) + TurnLength(turns[n], true)
            && TurnStands(C.RawHistory(turns), TurnStart(turns, n), turns[n], true)
  {
    var n := |turns| - 1;
    var before := was + [turns[n - 1].reply];
    TurnStandsIn(before, turns[n], []);
    assert before + C.RawMessages(turns[n]) + [] == before + C.RawMessages(turns[n]);
    TurnStartFront(turns, n, n - 1);
  }

  /** Under hoisting the instructions of every turn of a chain so far go upstream with its last one, in the leading
      system message. */
  lemma InstructionsAreSent(turns: seq<C.Turn>, s: C.Settings, i: nat) returns (at: nat)
    requires i < |turns| && turns[i].instructions.Some? && turns[i].instructions.value != ""
    requires s.systemGate && s.policy == HoistAll
    ensures var out := C.Sent(turns, s);
            && out != [] && IsSystem(out[0])
            && Stands(ContentText(out[0].content), at, turns[i].instructions.value)
  {
    HistoryIsTheTurns(turns);
    C.ChainSendsNormalizedHistory(turns, s);
    assert TurnStands(C.RawHistory(turns), TurnStart(turns, i), turns[i], i == |turns| - 1);
    at := AbsorbedTextsAreSent(C.RawHistory(turns), s, TurnStart(turns, i));
  }
}
