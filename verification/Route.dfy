/** The persistence protocol of the Responses route: what is stored under which id, and when, while
    the bridge's events go out. */
module Route {
  import opened Wrappers
  import opened ConversationStore
  import opened ResponsesEvents
  import T = Transcript
  import R = Replay
  import RR = ReplayReading
  import SR = StreamReplay

  type Messages = seq<T.Message>

  /** What the route knows of a request once its parent was resolved: `base` is the transcript sent
      upstream. */
  datatype Request = Request(responseId: string, parent: Option<string>, base: Messages, store: bool)

  /** Store a transcript, and drop the parent only when it was stored. */
  function Persist(l: Limits, size: Messages -> nat, data: seq<Entry<Messages>>, q: Request, answer: T.Message,
                   now: real): seq<Entry<Messages>> {
    var (after, stored) := Put(l, size, data, q.responseId, q.base + [answer], now);
    if stored && q.parent.Some? then Without(after, q.parent.value) else after
  }

  method PersistTurn(store: Store<Messages>, q: Request, answer: T.Message, now: real)
    requires store.Valid()
    modifies store
    ensures store.Valid() && store.data == Persist(store.limits, store.size, old(store.data), q, answer, now)
  {
    var stored := store.PutTranscript(q.responseId, q.base + [answer], now);
    if stored && q.parent.Some? { store.DeleteTranscript(q.parent.value); }
  }

  // ---- Without streaming ------------------------------------------------------------------------------

  /** After a JSON answer; `translated` is false when it could not be translated and the upstream's
      body is passed on. */
  method RespondOnce(store: Store<Messages>, q: Request, m: R.ChatMessage, minted: nat, translated: bool, now: real)
    requires store.Valid()
    modifies store
    ensures store.Valid()
    ensures store.data == if translated && q.store
                             && (RR.IsSomething(m.content) || RR.IsSomething(m.refusal) || m.toolCalls != [])
                          then Persist(store.limits, store.size, old(store.data), q, R.StoredMessage(m, minted), now)
                          else old(store.data)
  {
    if !translated || !q.store { return; }
    RR.StoredIs(m, minted);
    RR.SomethingIff(m.content);
    RR.SomethingIff(m.refusal);
    assert R.Truthy(T.Text("")) == false;
    var answer := R.StoredMessage(m, minted);
    if R.Truthy(answer.content) || answer.toolCalls != [] { PersistTurn(store, q, answer, now); }
  }

  // ---- Streaming ----------------------------------------------------------------------------------------

  /** One event pulled from the bridge, with the holder as it is then. */
  datatype Pull = Pull(event: Event, holder: Holder)

  /** What goes out to the client. */
  datatype Wire = Framed(event: Event) | SynthesizedFailure(seqNo: int)

  /** `lastSeq` is -1 before the first event. */
  datatype Progress = Progress(data: seq<Entry<Messages>>, sent: seq<Wire>, persisted: bool, failed: bool, lastSeq: int)

  /** The surroundings of one stream: the store's limits, and which events can be encoded. */
  datatype Env = Env(limits: Limits, size: Messages -> nat, encodes: Event -> bool, now: real)

  /** How the stream stops: the bridge is exhausted or raises, or the client goes away. */
  datatype Ending = RanOut | BridgeRaised | ClientLeft

  function AnswerOf(h: Holder): T.Message
    requires h.Stored?
  {
    SR.AnswerMessage(h.content, h.toolCalls)
  }

  function PersistHolder(env: Env, data: seq<Entry<Messages>>, q: Request, h: Holder): seq<Entry<Messages>>
    requires h.Stored?
  {
    Persist(env.limits, env.size, data, q, AnswerOf(h), env.now)
  }

  function Fail(p: Progress): Progress {
    p.(sent := p.sent + [SynthesizedFailure(p.lastSeq + 1)], failed := true)
  }

  /** The transcript is stored when the terminal event is at hand and a message is held. */
  predicate TimeToPersist(q: Request, p: Progress, x: Pull) {
    !p.persisted && q.store && x.event.payload.Terminal? && x.holder.Stored?
  }

  function OnPull(env: Env, q: Request, p: Progress, x: Pull): Progress {
    var p1 := p.(lastSeq := x.event.seqNo);
    var p2 := if TimeToPersist(q, p1, x)
              then p1.(data := PersistHolder(env, p1.data, q, x.holder), persisted := true) else p1;
    if env.encodes(x.event) then p2.(sent := p2.sent + [Framed(x.event)]) else Fail(p2)
  }

  /** Nothing more is pulled after a failure. */
  function OnPulls(env: Env, q: Request, p: Progress, xs: seq<Pull>): Progress {
    if xs == [] then p
    else
      var before := OnPulls(env, q, p, xs[..|xs| - 1]);
      if before.failed then before else OnPull(env, q, before, xs[|xs| - 1])
  }

  /** The `except` and `finally` clauses. */
  function Finish(env: Env, q: Request, p: Progress, ending: Ending, holder: Holder): Progress {
    var p1 := if ending.BridgeRaised? && !p.failed then Fail(p) else p;
    if !p1.persisted && !p1.failed && q.store && holder.Stored?
    then p1.(data := PersistHolder(env, p1.data, q, holder)) else p1
  }

  function Start(data: seq<Entry<Messages>>): Progress {
    Progress(data, [], false, false, -1)
  }

  /** The whole stream: the events pulled, how it ended, and the holder at the end. */
  function Serve(env: Env, q: Request, data: seq<Entry<Messages>>, xs: seq<Pull>, ending: Ending,
                 holder: Holder): Progress {
    Finish(env, q, OnPulls(env, q, Start(data), xs), ending, holder)
  }

  lemma NextPull(env: Env, q: Request, p: Progress, xs: seq<Pull>, i: nat)
    requires i < |xs| && !OnPulls(env, q, p, xs[..i]).failed
    ensures OnPulls(env, q, p, xs[..i + 1]) == OnPull(env, q, OnPulls(env, q, p, xs[..i]), xs[i])
  {
    assert xs[..i + 1][..i] == xs[..i];
  }

  /** One event: persist if it is time, then try to encode it. */
  method PullOne(store: Store<Messages>, q: Request, x: Pull, wasPersisted: bool, encodes: Event -> bool, now: real,
                 ghost p: Progress)
    returns (wire: Wire, persisted: bool, failed: bool)
    requires store.Valid() && p.data == store.data && p.persisted == wasPersisted && !p.failed
    modifies store
    ensures store.Valid()
    ensures OnPull(Env(store.limits, store.size, encodes, now), q, p, x)
            == Progress(store.data, p.sent + [wire], persisted, failed, x.event.seqNo)
  {
    persisted := wasPersisted;
    if !persisted && q.store && x.event.payload.Terminal? && x.holder.Stored? {
      PersistTurn(store, q, AnswerOf(x.holder), now);
      persisted := true;
    }
    failed := !encodes(x.event);
    wire := if failed then SynthesizedFailure(x.event.seqNo + 1) else Framed(x.event);
  }

  /** The events one by one, until one fails to encode. */
  method PullEvents(store: Store<Messages>, q: Request, xs: seq<Pull>, encodes: Event -> bool, now: real)
    returns (sent: seq<Wire>, persisted: bool, failed: bool, lastSeq: int)
    requires store.Valid()
    modifies store
    ensures store.Valid()
    ensures OnPulls(Env(store.limits, store.size, encodes, now), q, Start(old(store.data)), xs)
            == Progress(store.data, sent, persisted, failed, lastSeq)
  {
    ghost var env, start := Env(store.limits, store.size, encodes, now), Start(store.data);
    sent, persisted, failed, lastSeq := [], false, false, -1;
    var i := 0;
    while i < |xs| && !failed
      invariant 0 <= i <= |xs| && store.Valid()
      invariant OnPulls(env, q, start, xs[..i]) == Progress(store.data, sent, persisted, failed, lastSeq)
      decreases |xs| - i
    {
      NextPull(env, q, start, xs, i);
      var wire;
      wire, persisted, failed := PullOne(store, q, xs[i], persisted, encodes, now, OnPulls(env, q, start, xs[..i]));
      lastSeq := xs[i].event.seqNo;
      sent := sent + [wire];
      i := i + 1;
    }
    PullsStop(env, q, start, xs, i);
  }

  /** `body_iter`. */
  method BodyIter(store: Store<Messages>, q: Request, xs: seq<Pull>, ending: Ending, holder: Holder,
                  encodes: Event -> bool, now: real)
    returns (sent: seq<Wire>)
    requires store.Valid()
    modifies store
    ensures store.Valid()
    ensures var p := Serve(Env(store.limits, store.size, encodes, now), q, old(store.data), xs, ending, holder);
            sent == p.sent && store.data == p.data
  {
    var persisted, failed, lastSeq;
    sent, persisted, failed, lastSeq := PullEvents(store, q, xs, encodes, now);
    if ending.BridgeRaised? && !failed {
      failed := true;
      sent := sent + [SynthesizedFailure(lastSeq + 1)];
    }
    if !persisted && !failed && q.store && holder.Stored? { PersistTurn(store, q, AnswerOf(holder), now); }
  }

  lemma {:induction false} PullsStop(env: Env, q: Request, p: Progress, xs: seq<Pull>, i: nat)
    requires i <= |xs| && (OnPulls(env, q, p, xs[..i]).failed || i == |xs|)
    ensures OnPulls(env, q, p, xs) == OnPulls(env, q, p, xs[..i])
  {
    if i == |xs| {
      assert xs[..i] == xs;
    } else {
      var front := xs[..|xs| - 1];
      assert front[..i] == xs[..i];
      PullsStop(env, q, p, front, i);
    }
  }

  // ---- What a stream does to the store --------------------------------------------------------------------

  predicate AllEncode(env: Env, xs: seq<Pull>) {
    forall k :: 0 <= k < |xs| ==> env.encodes(xs[k].event)
  }

  /** The events are numbered from 0, and only the last may be terminal. */
  predicate Orderly(xs: seq<Pull>) {
    forall k :: 0 <= k < |xs| ==> xs[k].event.seqNo == k && (xs[k].event.payload.Terminal? ==> k == |xs| - 1)
  }

  function FramedAll(xs: seq<Pull>): seq<Wire> {
    seq(|xs|, k requires 0 <= k < |xs| => Framed(xs[k].event))
  }

  /** Before the terminal event nothing is stored, whether or not an event fails to encode. */
  lemma {:induction false} QuietBeforeTerminal(env: Env, q: Request, data: seq<Entry<Messages>>, xs: seq<Pull>)
    requires Orderly(xs) && (xs != [] ==> !xs[|xs| - 1].event.payload.Terminal?)
    ensures var p := OnPulls(env, q, Start(data), xs);
            && p.data == data && !p.persisted
            && (p.failed <==> !AllEncode(env, xs))
            && (AllEncode(env, xs) ==> p.sent == FramedAll(xs) && p.lastSeq == |xs| - 1)
  {
    if xs == [] {
    } else {
      var front, last := xs[..|xs| - 1], xs[|xs| - 1];
      assert xs == front + [last];
      QuietBeforeTerminal(env, q, data, front);
      assert AllEncode(env, xs) <==> AllEncode(env, front) && env.encodes(last.event);
      assert FramedAll(xs) == FramedAll(front) + [Framed(last.event)];
    }
  }

  predicate Failing(w: Wire) {
    w.SynthesizedFailure? || w.event.payload.Failed?
  }

  /** The last the client got was a failure. */
  predicate SawFailure(sent: seq<Wire>) {
    sent != [] && Failing(sent[|sent| - 1])
  }

  /** A complete stream: its last event is the terminal one, and the holder is what it was then. */
  predicate Complete(xs: seq<Pull>, holder: Holder) {
    Orderly(xs) && xs != [] && xs[|xs| - 1].event.payload.Terminal? && xs[|xs| - 1].holder == holder
  }

  /** The events before the terminal one. */
  lemma UpToTerminal(env: Env, q: Request, data: seq<Entry<Messages>>, xs: seq<Pull>, holder: Holder)
    requires Complete(xs, holder)
    ensures var front, p := xs[..|xs| - 1], OnPulls(env, q, Start(data), xs[..|xs| - 1]);
            && Orderly(front) && p.data == data && !p.persisted && (p.failed <==> !AllEncode(env, front))
            && (AllEncode(env, front) ==> p.sent == FramedAll(front) && p.lastSeq == |xs| - 2)
            && (AllEncode(env, xs) <==> AllEncode(env, front) && env.encodes(xs[|xs| - 1].event))
  {
    var front := xs[..|xs| - 1];
    forall k | 0 <= k < |front| ensures front[k].event.seqNo == k && !front[k].event.payload.Terminal? {
      assert front[k] == xs[k];
    }
    QuietBeforeTerminal(env, q, data, front);
    assert xs == front + [xs[|xs| - 1]];
  }

  /** The transcript is in the store before the terminal event goes out: dropping that event's
      delivery changes nothing in the store. */
  lemma StoredBeforeTerminalEvent(env: Env, q: Request, data: seq<Entry<Messages>>, xs: seq<Pull>, holder: Holder)
    requires Complete(xs, holder) && AllEncode(env, xs[..|xs| - 1])
    ensures var p := OnPulls(env, q, Start(data), xs);
            && p.data == (if q.store && holder.Stored? then PersistHolder(env, data, q, holder) else data)
            && Serve(env, q, data, xs, RanOut, holder).data == p.data
            && Serve(env, q, data, xs, ClientLeft, holder).data == p.data
  {
    UpToTerminal(env, q, data, xs, holder);
  }

  /** A complete, fully encoded stream delivers its events and stores at most once. */
  lemma CompleteStream(env: Env, q: Request, data: seq<Entry<Messages>>, xs: seq<Pull>, holder: Holder)
    requires Complete(xs, holder) && AllEncode(env, xs)
    ensures var p := Serve(env, q, data, xs, RanOut, holder);
            && p.sent == FramedAll(xs) && !SawFailure(p.sent)
            && p.data == (if q.store && holder.Stored? then PersistHolder(env, data, q, holder) else data)
  {
    UpToTerminal(env, q, data, xs, holder);
    assert FramedAll(xs) == FramedAll(xs[..|xs| - 1]) + [Framed(xs[|xs| - 1].event)];
  }

  /** The one way to a failure the client sees and a transcript that is stored: everything was sent
      but the terminal event, which cannot be encoded after the message it carries was stored. */
  predicate StoredButFailed(env: Env, q: Request, xs: seq<Pull>, holder: Holder) {
    && Complete(xs, holder) && q.store && holder.Stored?
    && AllEncode(env, xs[..|xs| - 1]) && !env.encodes(xs[|xs| - 1].event)
  }

  lemma CompleteFailure(env: Env, q: Request, data: seq<Entry<Messages>>, xs: seq<Pull>, holder: Holder)
    requires Complete(xs, holder) && SawFailure(Serve(env, q, data, xs, RanOut, holder).sent)
    ensures Serve(env, q, data, xs, RanOut, holder).data
            == if StoredButFailed(env, q, xs, holder) then PersistHolder(env, data, q, holder) else data
  {
    UpToTerminal(env, q, data, xs, holder);
    if AllEncode(env, xs) { CompleteStream(env, q, data, xs, holder); }
  }

  /** A stream that breaks off, by an upstream error or because the bridge raises, stores nothing. */
  lemma BrokenStreamStoresNothing(env: Env, q: Request, data: seq<Entry<Messages>>, xs: seq<Pull>, ending: Ending,
                                  holder: Holder)
    requires Orderly(xs) && (xs != [] ==> !xs[|xs| - 1].event.payload.Terminal?)
    requires ending.BridgeRaised? || (ending.RanOut? && !holder.Stored?)
    ensures Serve(env, q, data, xs, ending, holder).data == data
  {
    QuietBeforeTerminal(env, q, data, xs);
  }

  /** A client that goes away before the terminal event leaves what the holder then says. */
  lemma ClientLeaves(env: Env, q: Request, data: seq<Entry<Messages>>, xs: seq<Pull>, holder: Holder)
    requires Orderly(xs) && (xs != [] ==> !xs[|xs| - 1].event.payload.Terminal?) && AllEncode(env, xs)
    ensures Serve(env, q, data, xs, ClientLeft, holder).data
            == if q.store && holder.Stored? then PersistHolder(env, data, q, holder) else data
  {
    QuietBeforeTerminal(env, q, data, xs);
  }

  // ---- Sequence numbers -------------------------------------------------------------------------------------

  function SeqOf(w: Wire): int {
    match w
    case Framed(e) => e.seqNo
    case SynthesizedFailure(n) => n
  }

  predicate Rising(sent: seq<Wire>) {
    forall i, j :: 0 <= i < j < |sent| ==> SeqOf(sent[i]) < SeqOf(sent[j])
  }

  predicate Gapless(sent: seq<Wire>) {
    forall k :: 0 <= k < |sent| ==> SeqOf(sent[k]) == k
  }

  lemma {:induction false} PullsNumbered(env: Env, q: Request, data: seq<Entry<Messages>>, xs: seq<Pull>)
    requires forall k :: 0 <= k < |xs| ==> xs[k].event.seqNo == k
    ensures var p := OnPulls(env, q, Start(data), xs);
            && Rising(p.sent)
            && (p.failed <==> !AllEncode(env, xs))
            && (!p.failed ==> Gapless(p.sent) && |p.sent| == |xs| && p.lastSeq == |xs| - 1)
            && (p.failed ==> !Gapless(p.sent))
  {
    if xs == [] {
    } else {
      var front, last := xs[..|xs| - 1], xs[|xs| - 1];
      assert xs == front + [last];
      PullsNumbered(env, q, data, front);
      assert AllEncode(env, xs) <==> AllEncode(env, front) && env.encodes(last.event);
      var before, after := OnPulls(env, q, Start(data), front), OnPulls(env, q, Start(data), xs);
      if !before.failed && !env.encodes(last.event) {
        assert SeqOf(after.sent[|front|]) == |xs|;
      }
    }
  }

  /** Sequence numbers always rise, a synthesised failure included; the client sees no gap exactly
      when no event failed to encode. */
  lemma SequenceContinues(env: Env, q: Request, data: seq<Entry<Messages>>, xs: seq<Pull>, ending: Ending,
                          holder: Holder)
    requires forall k :: 0 <= k < |xs| ==> xs[k].event.seqNo == k
    ensures var sent := Serve(env, q, data, xs, ending, holder).sent;
            Rising(sent) && (Gapless(sent) <==> AllEncode(env, xs))
  {
    PullsNumbered(env, q, data, xs);
  }

  // ---- The parent ---------------------------------------------------------------------------------------------

  /** Storing under a fresh id: the transcript is there and the parent is not, or, when it was too
      large, the store is as it was. */
  lemma PersistSupersedes(l: Limits, size: Messages -> nat, data: seq<Entry<Messages>>, q: Request, answer: T.Message,
                          now: real)
    requires Clamped(l) && !Has(data, q.responseId) && q.parent != Some(q.responseId)
    ensures var after, transcript := Persist(l, size, data, q, answer, now), q.base + [answer];
            if Oversized(l, size(transcript)) then after == data
            else && Find(after, q.responseId) == Some(Entry(q.responseId, now, transcript, size(transcript)))
                 && (q.parent.Some? ==> !Has(after, q.parent.value))
  {
    var transcript := q.base + [answer];
    StoredIsThere(l, size, data, q.responseId, transcript, now);
    if Oversized(l, size(transcript)) {
      WithoutAbsent(data, q.responseId);
    } else if q.parent.Some? {
      var after := Put(l, size, data, q.responseId, transcript, now).0;
      WithoutHas(after, q.parent.value, q.parent.value);
      FindAnother(after, q.parent.value, q.responseId);
    }
  }

  /** What storing leaves, told of the entries: nothing changed when the transcript is too large; else it comes
      last, the oldest entries that leave no room are gone, and then the parent. */
  ghost predicate Supersedes(l: Limits, after: seq<Entry<Messages>>, kept: seq<Entry<Messages>>,
                             data: seq<Entry<Messages>>, parent: Option<string>, entry: Entry<Messages>) {
    if l.maxEntryBytes > 0 && entry.bytes > l.maxEntryBytes then after == data
    else
      && kept != [] && LongestFittingSuffix(l, kept, data + [entry])
      && (if parent.Some? then IsRest(after, kept, parent.value) else after == kept)
  }

  lemma PersistIs(l: Limits, size: Messages -> nat, data: seq<Entry<Messages>>, q: Request, answer: T.Message,
                  now: real) returns (kept: seq<Entry<Messages>>)
    requires Clamped(l) && DistinctIds(data) && !Has(data, q.responseId)
    ensures var transcript := q.base + [answer];
            Supersedes(l, Persist(l, size, data, q, answer, now), kept, data, q.parent,
                       Entry(q.responseId, now, transcript, size(transcript)))
  {
    var transcript := q.base + [answer];
    kept := Put(l, size, data, q.responseId, transcript, now).0;
    FreshPutTells(l, size, data, q.responseId, transcript, now);
    if q.parent.Some? { RestIs(kept, q.parent.value); }
  }

  /** The message that a held answer is stored as. */
  predicate IsAnswerOf(answer: T.Message, h: Holder)
    requires h.Stored?
  {
    && answer == T.Message(T.AssistantRole, T.Text(h.content), answer.toolCalls, "", "")
    && |answer.toolCalls| == |h.toolCalls|
    && forall k :: 0 <= k < |h.toolCalls| ==>
         var call := h.toolCalls[k];
         answer.toolCalls[k] == T.CallEntry(call.id, "function", Some(call.name), T.ArgText(call.args), "")
  }

  lemma HolderIsPersisted(env: Env, data: seq<Entry<Messages>>, q: Request, h: Holder)
    returns (answer: T.Message, kept: seq<Entry<Messages>>)
    requires h.Stored? && Clamped(env.limits) && DistinctIds(data) && !Has(data, q.responseId)
    ensures IsAnswerOf(answer, h)
    ensures var transcript := q.base + [answer];
            Supersedes(env.limits, PersistHolder(env, data, q, h), kept, data, q.parent,
                       Entry(q.responseId, env.now, transcript, env.size(transcript)))
  {
    answer := AnswerOf(h);
    kept := PersistIs(env.limits, env.size, data, q, answer, env.now);
  }

  lemma {:induction false} FindAnother(data: seq<Entry<Messages>>, id: string, other: string)
    requires id != other
    ensures Find(Without(data, id), other) == Find(data, other)
  {
    if data == [] {
    } else {
      var front, last := data[..|data| - 1], data[|data| - 1];
      FindAnother(front, id, other);
      assert (Without(front, id) + [last])[..|Without(front, id)|] == Without(front, id);
    }
  }
}
