/** The route around the Responses bridge: every complete stream, every broken one, every point where
    the client may go away, and whole linear chains. */
module RouteTheorems {
  import opened Wrappers
  import opened ConversationStore
  import opened ChatChunks
  import opened ResponsesEvents
  import opened Route
  import RB = ResponsesBridge
  import RM = ResponsesMonitor
  import RP = ResponsesProtocol
  import RT = ResponsesTheorems
  import RA = ResponsesAttribution
  import RF = ResponsesFrame
  import RI = ResponsesItems
  import C = Chaining
  import T = Transcript

  /** What the route pulls from the bridge. */
  function Pulls(trace: seq<RB.Yield>): seq<Pull> {
    seq(|trace|, k requires 0 <= k < |trace| => Pull(trace[k].event, trace[k].at.holder))
  }

  function TraceOf(chunks: seq<Chunk>, o: RB.Options): seq<RB.Yield> {
    RB.Convert(chunks, o).trace
  }

  function FinalHolder(chunks: seq<Chunk>, o: RB.Options): Holder {
    RB.Convert(chunks, o).st.holder
  }

  lemma PullsOrderly(chunks: seq<Chunk>, o: RB.Options, n: nat)
    requires n <= |TraceOf(chunks, o)|
    ensures var xs := Pulls(TraceOf(chunks, o)[..n]);
            Orderly(xs) && (n < |TraceOf(chunks, o)| ==> forall k :: 0 <= k < n ==> !xs[k].event.payload.Terminal?)
  {
    RT.Numbering(chunks, o);
    var t, events := TraceOf(chunks, o), RB.EventsOf(TraceOf(chunks, o));
    forall k | 0 <= k < n
      ensures t[..n][k].event.seqNo == k && (t[..n][k].event.payload.Terminal? ==> k == |t| - 1) {
      assert events[k] == t[k].event;
      assert RT.IsTerminal(events[k].payload) <==> k == |events| - 1;
    }
  }

  /** A stream without upstream error ends with the terminal event, the holder filled before it. */
  lemma NormalStreamComplete(chunks: seq<Chunk>, o: RB.Options)
    requires !HasError(chunks)
    ensures Complete(Pulls(TraceOf(chunks, o)), FinalHolder(chunks, o))
  {
    RT.Numbering(chunks, o);
    RT.NormalLifecycle(chunks, o);
    var t, events := TraceOf(chunks, o), RB.EventsOf(TraceOf(chunks, o));
    assert events[|events| - 1] == t[|t| - 1].event;
    LastYieldAtEnd(chunks, o);
    PullsOrderly(chunks, o, |t|);
    assert t[..|t|] == t;
  }

  lemma LastYieldAtEnd(chunks: seq<Chunk>, o: RB.Options)
    ensures TraceOf(chunks, o) != [] && TraceOf(chunks, o)[|TraceOf(chunks, o)| - 1].at == RB.Convert(chunks, o).st
    ensures HasError(chunks) ==> FinalHolder(chunks, o) == Blocked
  {
    BeforeErrorIsPrefix(chunks);
    var m := RB.OnChunks(RB.Preamble(), o, BeforeError(chunks));
    if HasError(chunks) {
      DeliveredLast(m, RB.Bump(m.st.(holder := Blocked), [Failed(RB.SortByIndex(m.st.output, m.st.nextOi))]));
    } else {
      var m1 := RB.CloseEverything(m, o);
      var output := RB.SortByIndex(m1.st.output, m1.st.nextOi);
      var st := m1.st.(holder := RB.FinalizeHolder(m1.st.holder, RB.PiecesOf(output)));
      DeliveredLast(m1, RB.Bump(st, [Terminal(RB.ItemStatus(st, o), output)]));
    }
  }

  lemma DeliveredLast(m: RB.Machine, b: RB.Batch)
    requires b.events != []
    ensures var d := RB.Deliver(m, b); d.trace != [] && d.trace[|d.trace| - 1].at == d.st == b.st
  {
  }

  /** A turn whose stream is complete and encodable: every event goes out, and the transcript with the
      answer is in the store in place of the parent's, exactly as `Persist` says. */
  lemma SuccessfulTurn(chunks: seq<Chunk>, o: RB.Options, env: Env, q: Request, data: seq<Entry<Messages>>)
    requires !HasError(chunks) && AllEncode(env, Pulls(TraceOf(chunks, o)))
    ensures var p := Serve(env, q, data, Pulls(TraceOf(chunks, o)), RanOut, FinalHolder(chunks, o));
            && p.sent == FramedAll(Pulls(TraceOf(chunks, o)))
            && p.data == (if q.store && FinalHolder(chunks, o).Stored?
                          then PersistHolder(env, data, q, FinalHolder(chunks, o)) else data)
  {
    NormalStreamComplete(chunks, o);
    CompleteStream(env, q, data, Pulls(TraceOf(chunks, o)), FinalHolder(chunks, o));
  }

  /** And when something was said: the message that ends the stored transcript says what the events told the
      client, the transcript comes last under the request's id, and the parent is gone. */
  lemma AnswerIsStored(chunks: seq<Chunk>, o: RB.Options, env: Env, q: Request, data: seq<Entry<Messages>>)
    returns (answer: T.Message, kept: seq<Entry<Messages>>)
    requires !HasError(chunks) && AllEncode(env, Pulls(TraceOf(chunks, o))) && RA.LastSpoken(RA.Atoms(chunks, o)).Some?
    requires q.store && Clamped(env.limits) && DistinctIds(data) && !Has(data, q.responseId)
    ensures var t, h := TraceOf(chunks, o), FinalHolder(chunks, o);
            && h.Stored? && IsAnswerOf(answer, h)
            && RP.ViewOf(t).Some? && RM.Records(h, RP.ViewOf(t).value.items)
    ensures var p := Serve(env, q, data, Pulls(TraceOf(chunks, o)), RanOut, FinalHolder(chunks, o));
            var transcript := q.base + [answer];
            Supersedes(env.limits, p.data, kept, data, q.parent,
                       Entry(q.responseId, env.now, transcript, env.size(transcript)))
  {
    SuccessfulTurn(chunks, o, env, q, data);
    RI.StoredIffSpoken(chunks, o);
    HolderRecords(chunks, o);
    answer, kept := HolderIsPersisted(env, data, q, FinalHolder(chunks, o));
  }

  lemma HolderRecords(chunks: seq<Chunk>, o: RB.Options)
    requires !HasError(chunks) && FinalHolder(chunks, o).Stored?
    ensures var t := TraceOf(chunks, o);
            RP.ViewOf(t).Some? && RM.Records(FinalHolder(chunks, o), RP.ViewOf(t).value.items)
  {
    var t := TraceOf(chunks, o);
    LastYieldAtEnd(chunks, o);
    RT.CancellationAtAnyYield(chunks, o, |t| - 1);
    assert t[..|t|] == t;
  }

  /** How far the bridge gets: to its end, or to the point where it raises. */
  predicate ServerSide(chunks: seq<Chunk>, o: RB.Options, n: nat, ending: Ending) {
    || (ending.RanOut? && n == |TraceOf(chunks, o)|)
    || (ending.BridgeRaised? && n < |TraceOf(chunks, o)|)
  }

  /** A turn the client saw fail stores nothing and keeps the parent, with one exact exception: the
      transcript was stored and then the terminal event could not be encoded. */
  lemma FailedTurnStoresNothing(chunks: seq<Chunk>, o: RB.Options, env: Env, q: Request, data: seq<Entry<Messages>>,
                                n: nat, ending: Ending)
    requires ServerSide(chunks, o, n, ending)
    requires SawFailure(Serve(env, q, data, Pulls(TraceOf(chunks, o)[..n]), ending, FinalHolder(chunks, o)).sent)
    ensures var p := Serve(env, q, data, Pulls(TraceOf(chunks, o)[..n]), ending, FinalHolder(chunks, o));
            p.data == if ending.RanOut? && StoredButFailed(env, q, Pulls(TraceOf(chunks, o)), FinalHolder(chunks, o))
                      then PersistHolder(env, data, q, FinalHolder(chunks, o)) else data
  {
    var t, h := TraceOf(chunks, o), FinalHolder(chunks, o);
    PullsOrderly(chunks, o, n);
    if ending.BridgeRaised? {
      BrokenStreamStoresNothing(env, q, data, Pulls(t[..n]), ending, h);
    } else {
      assert t[..n] == t;
      if HasError(chunks) {
        ErrorStreamQuiet(chunks, o);
        BrokenStreamStoresNothing(env, q, data, Pulls(t), ending, h);
      } else {
        NormalStreamComplete(chunks, o);
        CompleteFailure(env, q, data, Pulls(t), h);
      }
    }
  }

  lemma ErrorStreamQuiet(chunks: seq<Chunk>, o: RB.Options)
    requires HasError(chunks)
    ensures Orderly(Pulls(TraceOf(chunks, o))) && TraceOf(chunks, o) != [] && !FinalHolder(chunks, o).Stored?
    ensures TraceOf(chunks, o)[|TraceOf(chunks, o)| - 1].event.payload.Failed?
  {
    LastYieldAtEnd(chunks, o);
    var m := RT.ConvertGood(chunks, o);
    RT.EndInErrorAccepted(m);
    var t := TraceOf(chunks, o);
    PullsOrderly(chunks, o, |t|);
    assert t[..|t|] == t;
  }

  /** A client that goes away after `n` events, the bridge being closed there: what is stored is the
      message those very events carried. */
  lemma DisconnectedTurn(chunks: seq<Chunk>, o: RB.Options, env: Env, q: Request, data: seq<Entry<Messages>>, n: nat)
    requires 0 < n < |TraceOf(chunks, o)| && AllEncode(env, Pulls(TraceOf(chunks, o)[..n]))
    ensures var t := TraceOf(chunks, o);
            var holder := RB.HolderIfClosed(t[n - 1].at);
            && Serve(env, q, data, Pulls(t[..n]), ClientLeft, holder).data
               == (if q.store && holder.Stored? then PersistHolder(env, data, q, holder) else data)
            && RP.ViewOf(t[..n]).Some?
            && RM.Records(holder, RP.ViewOf(t[..n]).value.items)
  {
    var t := TraceOf(chunks, o);
    RT.CancellationAtAnyYield(chunks, o, n - 1);
    RT.Numbering(chunks, o);
    assert RB.EventsOf(t)[n - 1] == t[n - 1].event;
    assert !RT.IsTerminal(RB.EventsOf(t)[n - 1].payload);
    PullsOrderly(chunks, o, n);
    ClientLeaves(env, q, data, Pulls(t[..n]), RB.HolderIfClosed(t[n - 1].at));
  }

  /** The same when the bridge has not been closed yet by the time the route looks: the holder is as the
      events left it, which is unset, so nothing is stored and the parent stays. */
  lemma DisconnectedUnclosed(chunks: seq<Chunk>, o: RB.Options, env: Env, q: Request, data: seq<Entry<Messages>>,
                             n: nat)
    requires 0 < n < |TraceOf(chunks, o)| && AllEncode(env, Pulls(TraceOf(chunks, o)[..n]))
    ensures var t := TraceOf(chunks, o);
            && t[n - 1].at.holder == Unset
            && Serve(env, q, data, Pulls(t[..n]), ClientLeft, t[n - 1].at.holder).data == data
  {
    var t := TraceOf(chunks, o);
    RF.UnheldBeforeTheEnd(chunks, o, n - 1);
    RT.Numbering(chunks, o);
    assert RB.EventsOf(t)[n - 1] == t[n - 1].event;
    PullsOrderly(chunks, o, n);
    ClientLeaves(env, q, data, Pulls(t[..n]), Unset);
  }

  lemma AwaitOrderly(chunks: seq<Chunk>, o: RB.Options)
    ensures var m := RB.OnChunks(RB.Preamble(), o, chunks);
            Orderly(Pulls(m.trace)) && forall k :: 0 <= k < |m.trace| ==> !m.trace[k].event.payload.Terminal?
  {
    RT.CancellationAtAnyAwait(chunks, o);
    LiveOrderly(RB.OnChunks(RB.Preamble(), o, chunks).trace);
  }

  /** While the stream is running its events are numbered and none is terminal. */
  lemma LiveOrderly(t: seq<RB.Yield>)
    requires RP.ViewOf(t).Some? && RP.ViewOf(t).value.stage == RM.Live
    ensures Orderly(Pulls(t)) && forall k :: 0 <= k < |t| ==> !t[k].event.payload.Terminal?
  {
    var events := RB.EventsOf(t);
    RT.AcceptedNumbers(events);
    RT.TerminalIsLast(events);
    forall k | 0 <= k < |t| ensures t[k].event.seqNo == k && !t[k].event.payload.Terminal? {
      assert events[k] == t[k].event;
    }
  }

  /** The same for a client that goes away while the bridge awaits its next chunk: what is stored is
      the message told so far, its calls under the first names their fragments have brought. */
  lemma DisconnectedAtAwait(chunks: seq<Chunk>, o: RB.Options, env: Env, q: Request, data: seq<Entry<Messages>>)
    requires AllEncode(env, Pulls(RB.OnChunks(RB.Preamble(), o, chunks).trace))
    ensures var m, atoms := RB.OnChunks(RB.Preamble(), o, chunks), RA.Atoms(chunks, o);
            var holder := RB.HolderIfClosed(m.st);
            && Serve(env, q, data, Pulls(m.trace), ClientLeft, holder).data
               == (if q.store && holder.Stored? then PersistHolder(env, data, q, holder) else data)
            && RP.ViewOf(m.trace).Some?
            && RM.Records(holder, RP.ViewOf(m.trace).value.items)
            && RI.NamesOf(RI.KeptCalls(holder)) == RI.CallNames(atoms, RA.ItemCount(atoms))
  {
    var m := RB.OnChunks(RB.Preamble(), o, chunks);
    RT.CancellationAtAnyAwait(chunks, o);
    RI.KeptNames(chunks, o);
    AwaitOrderly(chunks, o);
    ClientLeaves(env, q, data, Pulls(m.trace), RB.HolderIfClosed(m.st));
  }

  // ---- Stored, and yet failed -------------------------------------------------------------------------------

  /** Every event encodes but the terminal one. */
  predicate OnlyTerminalFails(env: Env, chunks: seq<Chunk>, o: RB.Options) {
    var xs := Pulls(TraceOf(chunks, o));
    xs != [] && AllEncode(env, xs[..|xs| - 1]) && !env.encodes(xs[|xs| - 1].event)
  }

  /** The exception occurs for every stream that said something: the client is told of a failure, and
      the transcript is stored unless it is too large. */
  lemma TerminalEncodingFails(chunks: seq<Chunk>, o: RB.Options, env: Env, q: Request, data: seq<Entry<Messages>>)
    requires !HasError(chunks) && RA.LastSpoken(RA.Atoms(chunks, o)).Some? && OnlyTerminalFails(env, chunks, o)
    requires Clamped(env.limits) && q.store && !Has(data, q.responseId) && q.parent != Some(q.responseId)
    ensures var h := FinalHolder(chunks, o);
            var p := Serve(env, q, data, Pulls(TraceOf(chunks, o)), RanOut, h);
            && SawFailure(p.sent) && h.Stored?
            && (Find(p.data, q.responseId).Some? <==> !Oversized(env.limits, env.size(q.base + [AnswerOf(h)])))
  {
    var xs, h := Pulls(TraceOf(chunks, o)), FinalHolder(chunks, o);
    NormalStreamComplete(chunks, o);
    RI.StoredIffSpoken(chunks, o);
    StoredBeforeTerminalEvent(env, q, data, xs, h);
    UpToTerminal(env, q, data, xs, h);
    PersistSupersedes(env.limits, env.size, data, q, AnswerOf(h), env.now);
    FindMeans(data, q.responseId);
  }

  const ONE_WORD := [Choice("", "done", "", [], "stop")]

  lemma OneWordSpeaks(o: RB.Options)
    ensures !HasError(ONE_WORD) && RA.LastSpoken(RA.Atoms(ONE_WORD, o)).Some?
  {
    assert ONE_WORD[..0] == [] && RA.Atoms([], o) == [];
  }

  lemma RejectingTerminal(chunks: seq<Chunk>, o: RB.Options, env: Env)
    requires !HasError(chunks) && forall e: Event :: env.encodes(e) <==> !e.payload.Terminal?
    ensures OnlyTerminalFails(env, chunks, o)
  {
    NormalStreamComplete(chunks, o);
  }

  function RejectTerminal(): Event -> bool {
    (e: Event) => !e.payload.Terminal?
  }

  function NoSize(): Messages -> nat {
    (m: Messages) => 0
  }

  /** Such a stream and such surroundings: one word, an empty store, nothing too large. */
  lemma FailedYetStored(o: RB.Options)
    ensures var env, q := Env(Limits(0.0, 1, 0, 0), NoSize(), RejectTerminal(), 0.0), Request("resp_1", None, [], true);
            var p := Serve(env, q, [], Pulls(TraceOf(ONE_WORD, o)), RanOut, FinalHolder(ONE_WORD, o));
            SawFailure(p.sent) && Find(p.data, "resp_1").Some?
  {
    var env, q := Env(Limits(0.0, 1, 0, 0), NoSize(), RejectTerminal(), 0.0), Request("resp_1", None, [], true);
    OneWordSpeaks(o);
    RejectingTerminal(ONE_WORD, o, env);
    TerminalEncodingFails(ONE_WORD, o, env, q, []);
  }

  // ---- A linear chain ----------------------------------------------------------------------------------------

  /** One turn of a chain on the store: look the parent up, build the transcript, persist. */
  function ChainTurn(l: Limits, size: Messages -> nat, data: seq<Entry<Messages>>, parent: Option<string>, id: string,
                     turn: C.Turn, s: C.Settings, now: real): Option<seq<Entry<Messages>>> {
    match parent
    case None =>
      Some(Persist(l, size, data, Request(id, None, C.Normalize(C.RawMessages(turn), s), true), turn.reply, now))
    case Some(p) =>
      match Get(l, data, p, now) {
        case (_, None) => None
        case (found, Some(prior)) =>
          Some(Persist(l, size, found, Request(id, parent, C.Normalize(prior + C.RawMessages(turn), s), true),
                       turn.reply, now))
      }
  }

  /** The store after the turns of a chain, each under its own id at its own time; None when a parent
      was not found. */
  function ChainRun(l: Limits, size: Messages -> nat, data: seq<Entry<Messages>>, turns: seq<(string, C.Turn, real)>,
                    s: C.Settings): Option<seq<Entry<Messages>>> {
    if turns == [] then Some(data)
    else
      var (id, turn, now) := turns[|turns| - 1];
      match ChainRun(l, size, data, turns[..|turns| - 1], s)
      case None => None
      case Some(before) =>
        ChainTurn(l, size, before, if |turns| == 1 then None else Some(turns[|turns| - 2].0), id, turn, s, now)
  }

  function TurnsOf(turns: seq<(string, C.Turn, real)>): seq<C.Turn> {
    seq(|turns|, k requires 0 <= k < |turns| => turns[k].1)
  }

  /** Every turn gets a new id, comes while its parent is alive, and its transcript is not over the
      per-entry cap. */
  predicate Smooth(l: Limits, size: Messages -> nat, data: seq<Entry<Messages>>, turns: seq<(string, C.Turn, real)>,
                   s: C.Settings) {
    turns != [] ==>
      var front, last := turns[..|turns| - 1], turns[|turns| - 1];
      && Smooth(l, size, data, front, s)
      && !Has(data, last.0)
      && (front != [] ==> last.0 != front[|front| - 1].0 && !Expired(l, front[|front| - 1].2, last.2))
      && !Oversized(l, size(C.Stored(TurnsOf(turns), s)))
  }

  lemma HasSuffix(data: seq<Entry<Messages>>, kept: seq<Entry<Messages>>, id: string)
    requires |kept| <= |data| && kept == data[|data| - |kept|..] && Has(kept, id)
    ensures Has(data, id)
  {
    var k :| 0 <= k < |kept| && kept[k].id == id;
    assert data[|data| - |kept| + k].id == id;
  }

  /** Persisting adds no id but its own. */
  lemma PersistAddsOnly(l: Limits, size: Messages -> nat, data: seq<Entry<Messages>>, q: Request, answer: T.Message,
                        now: real, id: string)
    requires Clamped(l) && Has(Persist(l, size, data, q, answer, now), id)
    ensures Has(data, id) || id == q.responseId
  {
    var others, entry := Without(data, q.responseId),
        Entry(q.responseId, now, q.base + [answer], size(q.base + [answer]));
    var after := Put(l, size, data, q.responseId, q.base + [answer], now).0;
    if q.parent.Some? { WithoutHas(after, q.parent.value, id); }
    assert Has(after, id);
    WithoutHas(data, q.responseId, id);
    if !Oversized(l, size(q.base + [answer])) {
      PruneKeepsLongestSuffix(l, others + [entry]);
      HasSuffix(others + [entry], after, id);
      HasSnoc(others, entry, id);
    }
  }

  lemma GetKeepsIds(l: Limits, data: seq<Entry<Messages>>, id: string, now: real, other: string)
    ensures Has(Get(l, data, id, now).0, other) ==> Has(data, other)
  {
    FindMeans(data, id);
    WithoutHas(data, id, other);
    if Find(data, id).Some? { HasSnoc(Without(data, id), Find(data, id).value, other); }
  }

  /** What the store holds of a chain: its last transcript under its last id, and no other. */
  predicate HoldsLatest(data: seq<Entry<Messages>>, id: string, transcript: Messages, now: real) {
    && Find(data, id).Some?
    && Find(data, id).value.messages == transcript
    && Find(data, id).value.storedAt == now
  }

  ghost predicate NothingElse(data: seq<Entry<Messages>>, was: seq<Entry<Messages>>, id: string) {
    forall x: string :: Has(data, x) ==> Has(was, x) || x == id
  }

  lemma FirstTurn(l: Limits, size: Messages -> nat, data: seq<Entry<Messages>>, id: string, turn: C.Turn,
                  s: C.Settings, now: real)
    requires Clamped(l) && !Has(data, id)
    requires !Oversized(l, size(C.Normalize(C.RawMessages(turn), s) + [turn.reply]))
    ensures var after := ChainTurn(l, size, data, None, id, turn, s, now);
            && after.Some? && NothingElse(after.value, data, id)
            && HoldsLatest(after.value, id, C.Normalize(C.RawMessages(turn), s) + [turn.reply], now)
  {
    var q := Request(id, None, C.Normalize(C.RawMessages(turn), s), true);
    PersistSupersedes(l, size, data, q, turn.reply, now);
    forall x: string | Has(Persist(l, size, data, q, turn.reply, now), x) ensures Has(data, x) || x == id {
      PersistAddsOnly(l, size, data, q, turn.reply, now, x);
    }
  }

  lemma NextTurn(l: Limits, size: Messages -> nat, was: seq<Entry<Messages>>, data: seq<Entry<Messages>>,
                 parent: string, prior: Messages,
                 stored: real, id: string, turn: C.Turn, s: C.Settings, now: real)
    requires Clamped(l) && NothingElse(data, was, parent) && HoldsLatest(data, parent, prior, stored)
    requires !Has(was, id) && id != parent && !Expired(l, stored, now)
    requires !Oversized(l, size(C.Normalize(prior + C.RawMessages(turn), s) + [turn.reply]))
    ensures var after := ChainTurn(l, size, data, Some(parent), id, turn, s, now);
            && after.Some? && NothingElse(after.value, was, id)
            && HoldsLatest(after.value, id, C.Normalize(prior + C.RawMessages(turn), s) + [turn.reply], now)
  {
    var found := Get(l, data, parent, now).0;
    var q := Request(id, Some(parent), C.Normalize(prior + C.RawMessages(turn), s), true);
    GetKeepsIds(l, data, parent, now, id);
    PersistSupersedes(l, size, found, q, turn.reply, now);
    var after := Persist(l, size, found, q, turn.reply, now);
    forall x: string | Has(after, x) ensures Has(was, x) || x == id {
      PersistAddsOnly(l, size, found, q, turn.reply, now, x);
      GetKeepsIds(l, data, parent, now, x);
    }
  }

  lemma StoredSnoc(turns: seq<(string, C.Turn, real)>, s: C.Settings)
    requires turns != []
    ensures var n, turn := |turns|, turns[|turns| - 1].1;
            && TurnsOf(turns)[..n - 1] == TurnsOf(turns[..n - 1])
            && C.Stored(TurnsOf(turns), s)
               == C.Normalize((if n == 1 then [] else C.Stored(TurnsOf(turns[..n - 1]), s)) + C.RawMessages(turn), s)
                  + [turn.reply]
  {
    assert [] + C.RawMessages(turns[|turns| - 1].1) == C.RawMessages(turns[|turns| - 1].1);
    assert TurnsOf(turns)[..|turns| - 1] == TurnsOf(turns[..|turns| - 1]);
  }

  /** The store after the turns holds the chain's latest transcript and nothing else of it. */
  ghost predicate ChainStored(l: Limits, size: Messages -> nat, data: seq<Entry<Messages>>, turns: seq<(string, C.Turn,
                              real)>, s: C.Settings)
    requires turns != []
  {
    var after, last := ChainRun(l, size, data, turns, s), turns[|turns| - 1];
    && after.Some? && NothingElse(after.value, data, last.0)
    && HoldsLatest(after.value, last.0, C.Stored(TurnsOf(turns), s), last.2)
  }

  lemma ChainBegins(l: Limits, size: Messages -> nat, data: seq<Entry<Messages>>, turns: seq<(string, C.Turn, real)>,
                    s: C.Settings)
    requires Clamped(l) && |turns| == 1 && Smooth(l, size, data, turns, s)
    ensures ChainStored(l, size, data, turns, s)
  {
    var last := turns[0];
    StoredSnoc(turns, s);
    assert [] + C.RawMessages(last.1) == C.RawMessages(last.1);
    FirstTurn(l, size, data, last.0, last.1, s, last.2);
    assert turns[..0] == [] && ChainRun(l, size, data, turns[..0], s) == Some(data);
  }

  lemma ChainGoesOn(l: Limits, size: Messages -> nat, data: seq<Entry<Messages>>, turns: seq<(string, C.Turn, real)>,
                    s: C.Settings)
    requires Clamped(l) && |turns| > 1 && Smooth(l, size, data, turns, s)
             && ChainStored(l, size, data, turns[..|turns| - 1], s)
    ensures ChainStored(l, size, data, turns, s)
  {
    var front, last, before := turns[..|turns| - 1], turns[|turns| - 1], turns[|turns| - 2];
    StoredSnoc(turns, s);
    NextTurn(l, size, data, ChainRun(l, size, data, front, s).value, before.0, C.Stored(TurnsOf(front), s), before.2,
             last.0, last.1, s, last.2);
  }

  /** A linear chain: every parent is found, and after every turn the store holds exactly the latest
      transcript of the chain, under its latest id, besides what was there before. */
  lemma {:induction false} LinearChain(l: Limits, size: Messages -> nat, data: seq<Entry<Messages>>,
                                       turns: seq<(string, C.Turn, real)>, s: C.Settings)
    requires Clamped(l) && turns != [] && Smooth(l, size, data, turns, s)
    ensures ChainStored(l, size, data, turns, s)
  {
    if |turns| == 1 {
      ChainBegins(l, size, data, turns, s);
    } else {
      LinearChain(l, size, data, turns[..|turns| - 1], s);
      ChainGoesOn(l, size, data, turns, s);
    }
  }

  /** So the transcript in the store is the normalisation of everything ever said in the chain. */
  lemma ChainStoresNormalizedHistory(l: Limits, size: Messages -> nat, data: seq<Entry<Messages>>, turns: seq<(string,
                                     C.Turn, real)>, s: C.Settings)
    requires Clamped(l) && turns != [] && Smooth(l, size, data, turns, s)
    ensures var after, last := ChainRun(l, size, data, turns, s), turns[|turns| - 1];
            && after.Some? && Find(after.value, last.0).Some?
            && Find(after.value, last.0).value.messages
               == C.Normalize(C.RawHistory(TurnsOf(turns)), s) + [last.1.reply]
  {
    LinearChain(l, size, data, turns, s);
    C.ChainSendsNormalizedHistory(TurnsOf(turns), s);
  }
}
