/** Chains in which some turns fail: the parent stays, and the next attempt starts from it. */
module RouteRetries {
  import opened Wrappers
  import opened ConversationStore
  import opened Route
  import opened RouteTheorems
  import C = Chaining

  type Kept = (string, C.Turn, real)

  /** One request of a client; `breaksOff` when the stream ends without an answer to store. */
  datatype Attempt = Attempt(id: string, turn: C.Turn, now: real, breaksOff: bool)

  /** The store, and the turns of the chain whose transcripts were stored. */
  datatype Chain = Chain(data: seq<Entry<Messages>>, turns: seq<Kept>)

  function ParentOf(turns: seq<Kept>): Option<string> {
    if turns == [] then None else Some(turns[|turns| - 1].0)
  }

  /** The store once the parent was looked up; None when it is not there. */
  function LookUp(l: Limits, data: seq<Entry<Messages>>, parent: Option<string>, now: real):
    Option<seq<Entry<Messages>>> {
    match parent
    case None => Some(data)
    case Some(p) => if Get(l, data, p, now).1.None? then None else Some(Get(l, data, p, now).0)
  }

  function Prior(l: Limits, data: seq<Entry<Messages>>, parent: Option<string>, now: real): Messages {
    if parent.None? then [] else Get(l, data, parent.value, now).1.GetOr([])
  }

  /** One attempt. A transcript that is too large is refused, and then the chain has no new turn. */
  function Try(l: Limits, size: Messages -> nat, c: Chain, a: Attempt, s: C.Settings): Option<Chain> {
    var parent := ParentOf(c.turns);
    var base := C.Normalize(Prior(l, c.data, parent, a.now) + C.RawMessages(a.turn), s);
    match LookUp(l, c.data, parent, a.now)
    case None => None
    case Some(found) =>
      if a.breaksOff then Some(Chain(found, c.turns))
      else
        Some(Chain(Persist(l, size, found, Request(a.id, parent, base, true), a.turn.reply, a.now),
                   if Oversized(l, size(base + [a.turn.reply])) then c.turns else c.turns + [(a.id, a.turn, a.now)]))
  }

  function TryAll(l: Limits, size: Messages -> nat, data: seq<Entry<Messages>>, attempts: seq<Attempt>,
                  s: C.Settings): Option<Chain> {
    if attempts == [] then Some(Chain(data, []))
    else match TryAll(l, size, data, attempts[..|attempts| - 1], s)
         case None => None
         case Some(c) => Try(l, size, c, attempts[|attempts| - 1], s)
  }

  /** The attempt has an id of its own and comes while the parent is alive. */
  predicate InTime(l: Limits, was: seq<Entry<Messages>>, c: Chain, a: Attempt) {
    && !Has(was, a.id)
    && (c.turns != [] ==>
          var last := c.turns[|c.turns| - 1];
          a.id != last.0 && !Expired(l, last.2, a.now))
  }

  predicate AllInTime(l: Limits, size: Messages -> nat, data: seq<Entry<Messages>>, attempts: seq<Attempt>,
                      s: C.Settings) {
    attempts != [] ==>
      var front, c := attempts[..|attempts| - 1], TryAll(l, size, data, attempts[..|attempts| - 1], s);
      AllInTime(l, size, data, front, s) && (c.Some? ==> InTime(l, data, c.value, attempts[|attempts| - 1]))
  }

  /** The store is as it was before the chain, or holds its latest transcript and nothing else of it. */
  ghost predicate Holds(was: seq<Entry<Messages>>, c: Chain, s: C.Settings) {
    if c.turns == [] then c.data == was
    else
      var last := c.turns[|c.turns| - 1];
      NothingElse(c.data, was, last.0) && HoldsLatest(c.data, last.0, C.Stored(TurnsOf(c.turns), s), last.2)
  }

  lemma FindSnoc(data: seq<Entry<Messages>>, e: Entry<Messages>)
    ensures Find(data + [e], e.id) == Some(e)
  {
    assert (data + [e])[..|data|] == data;
  }

  /** Looking the parent up leaves the chain as it was. */
  lemma LookUpKeeps(l: Limits, was: seq<Entry<Messages>>, c: Chain, s: C.Settings, now: real)
    requires Holds(was, c, s)
    requires c.turns != [] ==> !Expired(l, c.turns[|c.turns| - 1].2, now)
    ensures var found := LookUp(l, c.data, ParentOf(c.turns), now);
            found.Some? && Holds(was, Chain(found.value, c.turns), s)
    ensures Prior(l, c.data, ParentOf(c.turns), now) == if c.turns == [] then [] else C.Stored(TurnsOf(c.turns), s)
  {
    if c.turns != [] {
      var id := c.turns[|c.turns| - 1].0;
      FindMeans(c.data, id);
      FindSnoc(Without(c.data, id), Find(c.data, id).value);
      forall x: string | Has(Get(l, c.data, id, now).0, x) ensures Has(was, x) || x == id {
        GetKeepsIds(l, c.data, id, now, x);
      }
    }
  }

  /** A refused transcript leaves the store as the look-up left it. */
  lemma RefusedKeeps(l: Limits, size: Messages -> nat, was: seq<Entry<Messages>>, c: Chain, s: C.Settings, q: Request,
                     turn: C.Turn, now: real)
    requires Clamped(l) && Holds(was, c, s) && !Has(was, q.responseId) && q.parent == ParentOf(c.turns)
    requires c.turns != [] ==> q.responseId != c.turns[|c.turns| - 1].0
    requires Oversized(l, size(q.base + [turn.reply]))
    ensures Persist(l, size, c.data, q, turn.reply, now) == c.data
  {
    PersistSupersedes(l, size, c.data, q, turn.reply, now);
  }

  lemma TurnsSnoc(turns: seq<Kept>, t: Kept, s: C.Settings)
    ensures C.Stored(TurnsOf(turns + [t]), s)
            == C.Normalize((if turns == [] then [] else C.Stored(TurnsOf(turns), s)) + C.RawMessages(t.1), s)
               + [t.1.reply]
  {
    StoredSnoc(turns + [t], s);
    assert (turns + [t])[..|turns|] == turns;
  }

  lemma StoredHolds(l: Limits, size: Messages -> nat, was: seq<Entry<Messages>>, c: Chain, a: Attempt, s: C.Settings)
    requires Clamped(l) && Holds(was, c, s) && InTime(l, was, c, a) && !a.breaksOff
    requires var base := C.Normalize(Prior(l, c.data, ParentOf(c.turns), a.now) + C.RawMessages(a.turn), s);
             !Oversized(l, size(base + [a.turn.reply]))
    ensures Try(l, size, c, a, s).Some? && Holds(was, Try(l, size, c, a, s).value, s)
  {
    LookUpKeeps(l, was, c, s, a.now);
    TurnsSnoc(c.turns, (a.id, a.turn, a.now), s);
    if c.turns == [] {
      assert [] + C.RawMessages(a.turn) == C.RawMessages(a.turn);
      FirstTurn(l, size, was, a.id, a.turn, s, a.now);
    } else {
      var last := c.turns[|c.turns| - 1];
      NextTurn(l, size, was, c.data, last.0, C.Stored(TurnsOf(c.turns), s), last.2, a.id, a.turn, s, a.now);
    }
  }

  lemma TryHolds(l: Limits, size: Messages -> nat, was: seq<Entry<Messages>>, c: Chain, a: Attempt, s: C.Settings)
    requires Clamped(l) && Holds(was, c, s) && InTime(l, was, c, a)
    ensures Try(l, size, c, a, s).Some? && Holds(was, Try(l, size, c, a, s).value, s)
  {
    LookUpKeeps(l, was, c, s, a.now);
    var parent := ParentOf(c.turns);
    var base := C.Normalize(Prior(l, c.data, parent, a.now) + C.RawMessages(a.turn), s);
    if !a.breaksOff {
      if Oversized(l, size(base + [a.turn.reply])) {
        var found := Chain(LookUp(l, c.data, parent, a.now).value, c.turns);
        RefusedKeeps(l, size, was, found, s, Request(a.id, parent, base, true), a.turn, a.now);
      } else {
        StoredHolds(l, size, was, c, a, s);
      }
    }
  }

  /** Whatever attempts fail in between, by breaking off or by a transcript that is too large: every
      attempt finds its parent, and the store holds the latest stored transcript of the chain, which is
      that of the successful turns alone. */
  lemma {:induction false} FailuresLeaveChainAlone(l: Limits, size: Messages -> nat, data: seq<Entry<Messages>>,
                                                   attempts: seq<Attempt>, s: C.Settings)
    requires Clamped(l) && AllInTime(l, size, data, attempts, s)
    ensures TryAll(l, size, data, attempts, s).Some? && Holds(data, TryAll(l, size, data, attempts, s).value, s)
  {
    if attempts == [] {
    } else {
      var front := attempts[..|attempts| - 1];
      FailuresLeaveChainAlone(l, size, data, front, s);
      TryHolds(l, size, data, TryAll(l, size, data, front, s).value, attempts[|attempts| - 1], s);
    }
  }
}
