/** The request transcript over a `previous_response_id` chain: re-normalising its own persisted
    output on every turn is normalising all raw turns at once. */
module Chaining {
  import opened Wrappers
  import opened Sequences
  import opened Transcript
  import SN = SystemNorm
  import TN = ToolNorm

  /** The settings a chain runs under: the system policy and the two model gates. */
  datatype Settings = Settings(policy: SN.Policy, systemGate: bool, toolGate: bool)

  function Tools(ms: seq<Message>, s: Settings): seq<Message> {
    if s.toolGate then TN.Normalize(ms) else ms
  }

  /** Tool normalisation after system normalisation. */
  function NormalizeWith(merge: SN.Merger, ms: seq<Message>, s: Settings): seq<Message> {
    Tools(SN.NormalizeWith(merge, ms, s.policy, s.systemGate), s)
  }

  function Normalize(ms: seq<Message>, s: Settings): seq<Message> {
    NormalizeWith(SN.MergedContent, ms, s)
  }

  method NormalizeTranscript(messages: seq<Message>, s: Settings) returns (out: seq<Message>)
    ensures out == Normalize(messages, s)
  {
    out := SN.NormalizeSystemMessages(messages, s.policy, s.systemGate);
    out := TN.NormalizeToolMessages(out, s.toolGate);
  }

  // ---- Demotion, turn after turn -----------------------------------------------------------------

  lemma MergedHeadAgain(merge: SN.Merger, run: seq<Message>, more: seq<Message>)
    requires SN.Remerges(merge) && run != []
    ensures SN.MergedHead(merge, SN.MergedHead(merge, run) + more) == SN.MergedHead(merge, run + more)
  {
    assert SN.RemergesAt(merge, SN.MergedHead(merge, run)[0], run, more);
    assert SN.MergedHead(merge, run) == [SN.MergedHead(merge, run)[0]];
  }

  lemma PartsOf(ms: seq<Message>) returns (run: seq<Message>, rest: seq<Message>)
    ensures ms == run + rest && SN.AllSystem(run) && (rest != [] ==> !IsSystem(rest[0]))
  {
    run, rest := ms[..SN.HeadRun(ms)], ms[SN.HeadRun(ms)..];
  }

  lemma DemoteIs(merge: SN.Merger, ms: seq<Message>, run: seq<Message>, rest: seq<Message>)
    requires ms == run + rest && SN.AllSystem(run) && (rest != [] ==> !IsSystem(rest[0]))
    ensures SN.DemoteToUser(merge, ms) == SN.DemoteParts(merge, run, rest)
  {
    SN.DemotionPlaces(merge, run, rest);
  }

  lemma DemoteAllAppend(a: seq<Message>, b: seq<Message>)
    ensures SN.DemoteAll(a + b) == SN.DemoteAll(a) + SN.DemoteAll(b)
    ensures SN.NoSystem(a + b) <==> SN.NoSystem(a) && SN.NoSystem(b)
    ensures SN.NoSystem(SN.DemoteAll(a)) && (SN.NoSystem(a) ==> SN.DemoteAll(a) == a)
    ensures SN.NoSystem(b) ==> SN.DemoteAll(b) == b
  {
    SN.DemoteAllHasNoSystem(a);
    SN.DemoteAllHasNoSystem(b);
    if SN.NoSystem(a + b) {
      forall k | 0 <= k < |a| ensures !IsSystem(a[k]) { assert (a + b)[k] == a[k]; }
      forall k | 0 <= k < |b| ensures !IsSystem(b[k]) { assert (a + b)[|a| + k] == b[k]; }
    }
  }

  /** Only system messages so far: the run goes on into the next turn. */
  lemma DemoteRunOn(merge: SN.Merger, run: seq<Message>, more: seq<Message>, rest: seq<Message>)
    requires SN.Remerges(merge) && |run| >= 2 && SN.AllSystem(run) && SN.AllSystem(more)
    requires rest != [] ==> !IsSystem(rest[0])
    ensures SN.DemoteParts(merge, SN.MergedHead(merge, run) + more, rest) == SN.DemoteParts(merge, run + more, rest)
  {
    MergedHeadAgain(merge, run, more);
    if more == [] {
      assert run + more == run && SN.MergedHead(merge, run) + more == SN.MergedHead(merge, run);
      SN.DemoteAllHasNoSystem(rest);
    }
  }

  lemma MergedHeadFixed(merge: SN.Merger, run: seq<Message>)
    requires SN.Remerges(merge)
    ensures SN.MergedHead(merge, SN.MergedHead(merge, run)) == SN.MergedHead(merge, run)
  {
    if run != [] {
      MergedHeadAgain(merge, run, []);
      assert SN.MergedHead(merge, run) + [] == SN.MergedHead(merge, run) && run + [] == run;
    }
  }

  /** What was demoted once takes a later turn as the raw transcript would. */
  lemma DemotedBodyGrows(merge: SN.Merger, run: seq<Message>, rest: seq<Message>, y: seq<Message>)
    requires SN.Remerges(merge) && !(|run| <= 1 && SN.NoSystem(rest))
    ensures SN.DemoteParts(merge, SN.MergedHead(merge, run), SN.DemoteAll(rest) + y)
            == SN.DemoteParts(merge, run, rest + y)
  {
    var body := SN.DemoteAll(rest);
    DemoteAllAppend(rest, y);
    DemoteAllAppend(body, y);
    MergedHeadFixed(merge, run);
    assert SN.DemoteAll(body + y) == SN.DemoteAll(rest + y);
  }

  /** The conversation has begun: later turns only add to the part behind the head. */
  lemma DemoteBodyGrows(merge: SN.Merger, run: seq<Message>, rest: seq<Message>, y: seq<Message>, head: seq<Message>,
                        body: seq<Message>)
    requires SN.Remerges(merge)
    requires if |run| <= 1 && SN.NoSystem(rest) then head == run && body == rest
             else head == SN.MergedHead(merge, run) && body == SN.DemoteAll(rest)
    ensures SN.DemoteParts(merge, head, body + y) == SN.DemoteParts(merge, run, rest + y)
  {
    if !(|run| <= 1 && SN.NoSystem(rest)) { DemotedBodyGrows(merge, run, rest, y); }
  }

  /** What demotion leaves as head and body. */
  function DemotedHead(merge: SN.Merger, run: seq<Message>, rest: seq<Message>): seq<Message> {
    if |run| <= 1 && SN.NoSystem(rest) then run else SN.MergedHead(merge, run)
  }

  lemma DemotedParts(merge: SN.Merger, run: seq<Message>, rest: seq<Message>)
    requires SN.AllSystem(run)
    ensures SN.DemoteParts(merge, run, rest) == DemotedHead(merge, run, rest) + SN.DemoteAll(rest)
    ensures SN.AllSystem(DemotedHead(merge, run, rest)) && SN.NoSystem(SN.DemoteAll(rest))
  {
    SN.DemoteAllHasNoSystem(rest);
  }

  lemma DemoteChainedBody(merge: SN.Merger, run: seq<Message>, rest: seq<Message>, y: seq<Message>)
    requires SN.Remerges(merge) && SN.AllSystem(run) && rest != [] && !IsSystem(rest[0])
    ensures SN.DemoteToUser(merge, SN.DemoteParts(merge, run, rest) + y) == SN.DemoteToUser(merge, run + (rest + y))
  {
    var head, body := DemotedHead(merge, run, rest), SN.DemoteAll(rest);
    DemotedParts(merge, run, rest);
    SN.DemoteAllHasNoSystem(rest);
    DemoteBodyGrows(merge, run, rest, y, head, body);
    assert head + body + y == head + (body + y);
    DemoteIs(merge, head + body + y, head, body + y);
    DemoteIs(merge, run + (rest + y), run, rest + y);
  }

  lemma DemoteChainedRun(merge: SN.Merger, run: seq<Message>, more: seq<Message>, tail: seq<Message>)
    requires SN.Remerges(merge) && SN.AllSystem(run) && |run| >= 2
    requires SN.AllSystem(more) && (tail != [] ==> !IsSystem(tail[0]))
    ensures SN.DemoteToUser(merge, SN.MergedHead(merge, run) + more + tail) == SN.DemoteToUser(merge, run + more + tail)
  {
    DemoteRunOn(merge, run, more, tail);
    DemoteIs(merge, SN.MergedHead(merge, run) + more + tail, SN.MergedHead(merge, run) + more, tail);
    DemoteIs(merge, run + more + tail, run + more, tail);
  }

  lemma DemoteAfterBody(merge: SN.Merger, x: seq<Message>, y: seq<Message>, run: seq<Message>, rest: seq<Message>)
    requires SN.Remerges(merge) && x == run + rest && SN.AllSystem(run) && rest != [] && !IsSystem(rest[0])
    ensures SN.DemoteToUser(merge, SN.DemoteToUser(merge, x) + y) == SN.DemoteToUser(merge, x + y)
  {
    DemoteIs(merge, x, run, rest);
    DemoteChainedBody(merge, run, rest, y);
    Regroup(run, rest, y);
  }

  lemma DemoteShortRun(merge: SN.Merger, run: seq<Message>)
    requires SN.AllSystem(run)
    ensures SN.DemoteToUser(merge, run) == if |run| <= 1 then run else SN.MergedHead(merge, run)
  {
    assert run + [] == run;
    DemoteIs(merge, run, run, []);
    assert SN.MergedHead(merge, run) + SN.DemoteAll([]) == SN.MergedHead(merge, run);
  }

  lemma DemoteAfterRun(merge: SN.Merger, run: seq<Message>, y: seq<Message>)
    requires SN.Remerges(merge) && SN.AllSystem(run)
    ensures SN.DemoteToUser(merge, SN.DemoteToUser(merge, run) + y) == SN.DemoteToUser(merge, run + y)
  {
    DemoteShortRun(merge, run);
    if |run| >= 2 {
      var more, tail := PartsOf(y);
      DemoteChainedRun(merge, run, more, tail);
      Regroup(run, more, tail);
      Regroup(SN.MergedHead(merge, run), more, tail);
    }
  }

  lemma DemoteChained(merge: SN.Merger, x: seq<Message>, y: seq<Message>)
    requires SN.Remerges(merge)
    ensures SN.DemoteToUser(merge, SN.DemoteToUser(merge, x) + y) == SN.DemoteToUser(merge, x + y)
  {
    var run, rest := PartsOf(x);
    if rest != [] {
      DemoteAfterBody(merge, x, y, run, rest);
    } else {
      assert x == run;
      DemoteAfterRun(merge, run, y);
    }
  }

  // ---- Hoisting, turn after turn --------------------------------------------------------------------

  lemma HoistChained(merge: SN.Merger, x: seq<Message>, y: seq<Message>)
    requires SN.Remerges(merge)
    ensures SN.Hoist(merge, SN.Hoist(merge, x) + y) == SN.Hoist(merge, x + y)
  {
    var systems, others := SN.Systems(x), SN.Others(x);
    if systems != [] {
      var m := SN.SystemMessage(merge(systems));
      SN.WithoutSystem(others);
      SN.WithoutSystem(x);
      SN.OneMessage(m);
      SN.SystemsAppend(x, y);
      SN.OthersAppend(x, y);
      SN.SystemsAppend([m], others);
      SN.OthersAppend([m], others);
      SN.SystemsAppend([m] + others, y);
      SN.OthersAppend([m] + others, y);
      assert [m] + [] == [m] && [] + others == others;
      assert SN.RemergesAt(merge, m, systems, SN.Systems(y));
    }
  }

  lemma SystemChained(merge: SN.Merger, x: seq<Message>, y: seq<Message>, policy: SN.Policy, gate: bool)
    requires SN.Remerges(merge)
    ensures SN.NormalizeWith(merge, SN.NormalizeWith(merge, x, policy, gate) + y, policy, gate)
            == SN.NormalizeWith(merge, x + y, policy, gate)
  {
    if gate && policy != SN.AsIs {
      if policy == SN.HoistAll { HoistChained(merge, x, y); } else { DemoteChained(merge, x, y); }
      assert x == [] ==> x + y == y;
    }
  }

  // ---- Both normalisations ----------------------------------------------------------------------------

  /** A head of at most one message that is no assistant, then a part without system messages. */
  predicate HasShape(ms: seq<Message>, head: seq<Message>, body: seq<Message>) {
    && ms == head + body && |head| <= 1 && SN.NoSystem(body)
    && (head != [] ==> IsSystem(head[0]))
  }

  lemma LegalShape(ms: seq<Message>) returns (head: seq<Message>, body: seq<Message>)
    requires SN.Legal(ms)
    ensures HasShape(ms, head, body)
  {
    var n := if ms != [] && IsSystem(ms[0]) then 1 else 0;
    head, body := ms[..n], ms[n..];
  }

  lemma ToolsBehindHead(head: seq<Message>, body: seq<Message>)
    requires |head| <= 1 && (head != [] ==> !IsAssistant(head[0]))
    ensures TN.Normalize(head + body) == head + TN.Normalize(body)
  {
    if head == [] {
      assert head + body == body && head + TN.Normalize(body) == TN.Normalize(body);
    } else {
      assert head == [head[0]];
      TN.NormalizePlainHead(head[0], body);
    }
  }

  /** Tool normalisation keeps a part free of system messages, and non-empty. */
  lemma ToolsKeepNoSystem(body: seq<Message>)
    requires SN.NoSystem(body)
    ensures SN.NoSystem(TN.Normalize(body)) && (TN.Normalize(body) == [] <==> body == [])
  {
    TN.NormalizeRearranges(body);
    var out := TN.Normalize(body);
    assert |out| == |multiset(out)| == |multiset(body)| == |body|;
    forall k | 0 <= k < |out| ensures !IsSystem(out[k]) {
      assert out[k] in multiset(out);
    }
  }

  /** Normalising the tools of the body first makes no difference behind any head. */
  lemma ToolsChained(head: seq<Message>, body: seq<Message>, more: seq<Message>)
    requires |head| <= 1 && (head != [] ==> !IsAssistant(head[0]))
    ensures TN.Normalize(head + TN.Normalize(body) + more) == TN.Normalize(head + body + more)
  {
    ToolsBehindHead(head, TN.Normalize(body) + more);
    ToolsBehindHead(head, body + more);
    TN.NormalizeChained(body, more);
    assert head + TN.Normalize(body) + more == head + (TN.Normalize(body) + more);
    assert head + body + more == head + (body + more);
  }

  /** Under demotion the part behind the head only grows by the demoted turn. */
  lemma DemoteGrows(merge: SN.Merger, head: seq<Message>, body: seq<Message>, y: seq<Message>)
    requires HasShape(head + body, head, body) && body != []
    ensures SN.DemoteToUser(merge, head + body + y)
            == (if SN.NoSystem(y) then head else SN.MergedHead(merge, head)) + body + SN.DemoteAll(y)
  {
    assert head + body + y == head + (body + y);
    DemoteIs(merge, head + body + y, head, body + y);
    DemoteAllAppend(body, y);
    DemoteAllAppend(y, []);
    assert y + [] == y && SN.DemoteAll(body) == body;
  }

  lemma DemoteAfterTools(merge: SN.Merger, u: seq<Message>, y: seq<Message>)
    requires SN.Legal(u)
    ensures TN.Normalize(SN.DemoteToUser(merge, TN.Normalize(u) + y)) == TN.Normalize(SN.DemoteToUser(merge, u + y))
  {
    var head, body := LegalShape(u);
    ToolsBehindHead(head, body);
    ToolsKeepNoSystem(body);
    if body == [] {
      assert TN.Normalize(body) == body;
    } else {
      DemoteGrows(merge, head, body, y);
      DemoteGrows(merge, head, TN.Normalize(body), y);
      ToolsChained(if SN.NoSystem(y) then head else SN.MergedHead(merge, head), body, SN.DemoteAll(y));
    }
  }

  lemma HeadParts(head: seq<Message>)
    requires |head| <= 1 && (head != [] ==> IsSystem(head[0]))
    ensures SN.Systems(head) == head && SN.Others(head) == []
  {
    if head != [] {
      SN.OneMessage(head[0]);
      assert head == [head[0]];
    }
  }

  lemma ShapeParts(head: seq<Message>, body: seq<Message>)
    requires HasShape(head + body, head, body)
    ensures SN.Systems(head + body) == head && SN.Others(head + body) == body
  {
    HeadParts(head);
    SN.WithoutSystem(body);
    SN.SystemsAppend(head, body);
    SN.OthersAppend(head, body);
  }

  /** The one leading message hoisting produces, if any. */
  function HoistedFront(merge: SN.Merger, systems: seq<Message>): seq<Message> {
    if systems == [] then [] else [SN.SystemMessage(merge(systems))]
  }

  /** Under hoisting the part behind the head only grows by the rest of the turn. */
  lemma HoistGrows(merge: SN.Merger, head: seq<Message>, body: seq<Message>, y: seq<Message>)
    requires HasShape(head + body, head, body)
    ensures SN.Hoist(merge, head + body + y) == HoistedFront(merge, head + SN.Systems(y)) + body + SN.Others(y)
  {
    SN.SystemsAppend(head + body, y);
    SN.OthersAppend(head + body, y);
    ShapeParts(head, body);
    SN.WithoutSystem(y);
    Regroup(HoistedFront(merge, head + SN.Systems(y)), body, SN.Others(y));
    if head + SN.Systems(y) == [] { assert head + body + y == [] + body + y; }
  }

  lemma HoistAfterTools(merge: SN.Merger, u: seq<Message>, y: seq<Message>)
    requires SN.Legal(u)
    ensures TN.Normalize(SN.Hoist(merge, TN.Normalize(u) + y)) == TN.Normalize(SN.Hoist(merge, u + y))
  {
    var head, body := LegalShape(u);
    ToolsBehindHead(head, body);
    ToolsKeepNoSystem(body);
    HoistGrows(merge, head, body, y);
    HoistGrows(merge, head, TN.Normalize(body), y);
    ToolsChained(HoistedFront(merge, head + SN.Systems(y)), body, SN.Others(y));
  }

  /** The chaining law, for any way of merging texts that can be repeated. */
  lemma ChainedNormalizationWith(merge: SN.Merger, x: seq<Message>, y: seq<Message>, s: Settings)
    requires SN.Remerges(merge)
    ensures NormalizeWith(merge, NormalizeWith(merge, x, s) + y, s) == NormalizeWith(merge, x + y, s)
  {
    var u := SN.NormalizeWith(merge, x, s.policy, s.systemGate);
    SystemChained(merge, x, y, s.policy, s.systemGate);
    if s.toolGate {
      if !s.systemGate || s.policy == SN.AsIs || x == [] {
        TN.NormalizeChained(x, y);
        if x == [] { assert TN.Normalize(u) + y == y && x + y == y; }
      } else if s.policy == SN.HoistAll {
        SN.HoistKeeps(merge, x);
        HoistAfterTools(merge, u, y);
        NonEmptyTurn(merge, x, y, s);
      } else {
        SN.DemoteFixedIffLegal(merge, x);
        DemoteAfterTools(merge, u, y);
        NonEmptyTurn(merge, x, y, s);
      }
    }
  }

  /** A non-empty transcript stays non-empty, so the empty-list shortcut plays no part. */
  lemma NonEmptyTurn(merge: SN.Merger, x: seq<Message>, y: seq<Message>, s: Settings)
    requires x != [] && s.systemGate && s.policy != SN.AsIs
    ensures SN.NormalizeWith(merge, x, s.policy, s.systemGate) != []
    ensures TN.Normalize(SN.NormalizeWith(merge, x, s.policy, s.systemGate)) != []
  {
    var u := SN.NormalizeWith(merge, x, s.policy, s.systemGate);
    if s.policy == SN.HoistAll {
      SN.WithoutSystem(x);
    } else {
      var run, rest := PartsOf(x);
      DemoteIs(merge, x, run, rest);
    }
    TN.NormalizeRearranges(u);
    assert |TN.Normalize(u)| == |multiset(TN.Normalize(u))| == |multiset(u)| == |u|;
  }

  /** f(f(x) + y) = f(x + y), for every policy and either gate. */
  lemma ChainedNormalization(x: seq<Message>, y: seq<Message>, s: Settings)
    ensures Normalize(Normalize(x, s) + y, s) == Normalize(x + y, s)
  {
    SN.MergedContentRemerges();
    ChainedNormalizationWith(SN.MergedContent, x, y, s);
  }

  /** Behind its gate the tool normalisation comes second: it leaves every result right behind its call, and of
      what the system normalisation made changes no more than the places of results. */
  lemma BothApplied(ms: seq<Message>, s: Settings)
    ensures var u, out := SN.Normalize(ms, s.policy, s.systemGate), Normalize(ms, s);
            if s.toolGate then TN.Legal(out) && TN.KeepsAssistants(out, u) && TN.KeepsOrders(out, u) else out == u
  {
    var u := SN.Normalize(ms, s.policy, s.systemGate);
    TN.FixedIffLegal(u);
    TN.NormalizeRearranges(u);
  }

  /** Re-normalising a stored transcript changes nothing. */
  lemma NormalizationIdempotent(x: seq<Message>, s: Settings)
    ensures Normalize(Normalize(x, s), s) == Normalize(x, s)
  {
    ChainedNormalization(x, [], s);
    assert Normalize(x, s) + [] == Normalize(x, s) && x + [] == x;
  }

  // ---- A whole chain --------------------------------------------------------------------------------------

  /** One turn: its raw messages (new instructions, then input) and the reply stored after it. */
  datatype Turn = Turn(instructions: Option<string>, input: seq<Message>, reply: Message)

  /** What a turn appends to the resolved history. */
  function RawMessages(t: Turn): seq<Message> {
    (if t.instructions.Some? && t.instructions.value != "" then [SN.SystemMessage(Text(t.instructions.value))] else [])
    + t.input
  }

  /** The transcript sent upstream on the last turn, each turn normalising the stored one and its
      own messages. */
  function Sent(turns: seq<Turn>, s: Settings): seq<Message>
    requires turns != []
    decreases |turns|, 0
  {
    var t := turns[|turns| - 1];
    if |turns| == 1 then Normalize(RawMessages(t), s)
    else Normalize(Stored(turns[..|turns| - 1], s) + RawMessages(t), s)
  }

  /** The transcript stored after the last turn. */
  function Stored(turns: seq<Turn>, s: Settings): seq<Message>
    requires turns != []
    decreases |turns|, 1
  {
    Sent(turns, s) + [turns[|turns| - 1].reply]
  }

  /** Every message of the conversation as it first came up, up to the last turn's input. */
  function RawHistory(turns: seq<Turn>): seq<Message>
    requires turns != []
  {
    var t := turns[|turns| - 1];
    if |turns| == 1 then RawMessages(t)
    else
      var before := turns[..|turns| - 1];
      RawHistory(before) + [before[|before| - 1].reply] + RawMessages(t)
  }

  /** One more reply and one more input behind a normalised history. */
  lemma HistoryGrows(history: seq<Message>, reply: seq<Message>, raw: seq<Message>, s: Settings)
    ensures Normalize(Normalize(history, s) + reply + raw, s) == Normalize(history + reply + raw, s)
  {
    ChainedNormalization(history, reply + raw, s);
    Regroup(Normalize(history, s), reply, raw);
    Regroup(history, reply, raw);
  }

  /** On turn k of a chain the transcript sent is the normalisation of all raw turns at once. */
  lemma {:induction false} ChainSendsNormalizedHistory(turns: seq<Turn>, s: Settings)
    requires turns != []
    ensures Sent(turns, s) == Normalize(RawHistory(turns), s)
  {
    if |turns| == 1 {
    } else {
      var before, t := turns[..|turns| - 1], turns[|turns| - 1];
      ChainSendsNormalizedHistory(before, s);
      HistoryGrows(RawHistory(before), [before[|before| - 1].reply], RawMessages(t), s);
    }
  }
}
