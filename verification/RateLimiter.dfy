/** The query service's sliding-window rate limiter and its concurrency slots. */
module RateLimiter {
  import opened Sequences

  const WINDOW := 60.0

  /** What a check answers; `Raises` is the `ValueError` of taking the oldest of no stamps. */
  datatype Outcome = Allowed(stamp: real) | Refused(retryAfter: int) | Raises

  function Newer(cutoff: real): real -> bool {
    ts => ts > cutoff
  }

  /** The stamps after `cutoff`, in order. */
  function After(stamps: seq<real>, cutoff: real): seq<real> {
    Filter(stamps, Newer(cutoff))
  }

  function Min(stamps: seq<real>): (m: real)
    requires stamps != []
    ensures m in stamps && forall k :: 0 <= k < |stamps| ==> m <= stamps[k]
  {
    if |stamps| == 1 then stamps[0]
    else
      var m := Min(stamps[1..]);
      if stamps[0] <= m then stamps[0] else m
  }

  /** `math.ceil`. */
  function Ceil(x: real): (n: int)
    ensures n as real >= x && n as real - x < 1.0
  {
    -((-x).Floor)
  }

  /** `list.remove`, or nothing when the stamp is not there. */
  function Remove(stamps: seq<real>, stamp: real): seq<real> {
    if stamps == [] then []
    else if stamps[0] == stamp then stamps[1..]
    else [stamps[0]] + Remove(stamps[1..], stamp)
  }

  /** The answer to a check, and the bucket it leaves. */
  function Check(bucket: seq<real>, limit: int, now: real): (seq<real>, Outcome) {
    var live := After(bucket, now - WINDOW);
    if |live| < limit then (live + [now], Allowed(now))
    else if live == [] then (bucket, Raises)
    else (live, Refused(Ceil(Min(live) + WINDOW - now)))
  }

  /** The number of slots held after an acquisition, and whether it succeeded. */
  function Acquire(held: int, limit: int): (int, bool) {
    if held >= limit then (held, false) else (held + 1, true)
  }

  function Release(held: int): int {
    if held > 0 then held - 1 else held
  }

  function Bucket(requests: map<string, seq<real>>, user: string): seq<real> {
    if user in requests then requests[user] else []
  }

  function Held(concurrent: map<string, int>, user: string): int {
    if user in concurrent then concurrent[user] else 0
  }

  /** The table holds, for every user, the bucket of the run of all that user's checks and undos; no entry
      stands for no stamps. */
  ghost predicate TablesShow(requests: map<string, seq<real>>, history: string -> seq<Event>) {
    forall user: string ::
      if user in requests then requests[user] == Runs(history(user)).bucket else Runs(history(user)).bucket == []
  }

  ghost predicate SlotsShow(concurrent: map<string, int>, history: string -> seq<SlotEvent>) {
    forall user: string ::
      if user in concurrent then concurrent[user] == Slots(history(user)).held else Slots(history(user)).held == 0
  }

  /** The limiter's tables. Every method touches one user's entry of one table only. What each user
      did so far is kept beside them; the tables are what those events make of an empty limiter. */
  class Limiter {
    var rateLimit: int
    var maxConcurrent: int
    var requests: map<string, seq<real>>
    var concurrent: map<string, int>
    /** The checks and undos of a user, and the slots asked for and given back. */
    ghost var history: string -> seq<Event>
    ghost var slotHistory: string -> seq<SlotEvent>

    /** A user without an entry has no stamps, and no slots. */
    ghost predicate Valid()
      reads this
    {
      TablesShow(requests, history) && SlotsShow(concurrent, slotHistory)
    }

    constructor (rateLimit: int, maxConcurrent: int)
      ensures Valid() && this.rateLimit == rateLimit && this.maxConcurrent == maxConcurrent
      ensures requests == map[] && concurrent == map[]
      ensures forall user :: history(user) == [] && slotHistory(user) == []
    {
      this.rateLimit, this.maxConcurrent := rateLimit, maxConcurrent;
      requests, concurrent := map[], map[];
      history, slotHistory := (user: string) => [], (user: string) => [];
    }

    /** The answer is that of the run of all the user's checks and undos so far, and with a clock that does
        not go back it is told from the stamps admitted and not undone in the last 60 seconds. */
    method CheckRateLimit(user: string, now: real) returns (outcome: Outcome)
      requires Valid()
      modifies this`requests, this`history
      ensures Valid()
      ensures history(user) == old(history(user)) + [Checked(now, rateLimit)]
      ensures forall other :: other != user ==> history(other) == old(history(other))
      ensures requests == if outcome.Raises? then old(requests)
                          else old(requests)[user := Runs(history(user)).bucket]
      ensures outcome == Check(Runs(old(history(user))).bucket, rateLimit, now).1
      ensures Runs(history(user)).admitted
              == Runs(old(history(user))).admitted + (if outcome.Allowed? then [outcome.stamp] else [])
      ensures Ordered(old(history(user)), now) ==> Decides(outcome, Runs(old(history(user))).admitted, rateLimit, now)
    {
      CheckRecorded(requests, history, user, now, rateLimit);
      var timestamps := After(Bucket(requests, user), now - WINDOW);
      if |timestamps| >= rateLimit {
        if timestamps == [] {
          outcome := Raises;
        } else {
          outcome := Refused(Ceil(Min(timestamps) + WINDOW - now));
          requests := requests[user := timestamps];
        }
      } else {
        requests := requests[user := timestamps + [now]];
        outcome := Allowed(now);
      }
      history := Extended(history, user, Checked(now, rateLimit));
    }

    method UndoRateCount(user: string, stamp: real)
      requires Valid()
      modifies this`requests, this`history
      ensures Valid()
      ensures history(user) == old(history(user)) + [Undone(stamp)]
      ensures forall other :: other != user ==> history(other) == old(history(other))
      ensures requests == old(requests)[user := Runs(history(user)).bucket]
    {
      TableGrows(requests, history, user, Undone(stamp));
      history := Extended(history, user, Undone(stamp));
      requests := requests[user := Remove(Bucket(requests, user), stamp)];
    }

    /** A slot is given exactly when the user holds fewer than the limit. */
    method TryAcquire(user: string) returns (acquired: bool)
      requires Valid()
      modifies this`concurrent, this`slotHistory
      ensures Valid()
      ensures slotHistory(user) == old(slotHistory(user)) + [Attempt(maxConcurrent)]
      ensures forall other :: other != user ==> slotHistory(other) == old(slotHistory(other))
      ensures acquired == (Slots(old(slotHistory(user))).held < maxConcurrent)
      ensures Slots(slotHistory(user)).owned == Slots(old(slotHistory(user))).owned + (if acquired then 1 else 0)
      ensures forall other :: other != user ==> (other in concurrent <==> other in old(concurrent))
      ensures forall other :: other != user && other in concurrent ==> concurrent[other] == old(concurrent)[other]
    {
      SlotsGrow(concurrent, slotHistory, user, Attempt(maxConcurrent));
      slotHistory := Extended(slotHistory, user, Attempt(maxConcurrent));
      var current := Held(concurrent, user);
      if current >= maxConcurrent { return false; }
      concurrent := concurrent[user := current + 1];
      acquired := true;
    }

    method ReleaseSlot(user: string)
      requires Valid()
      modifies this`concurrent, this`slotHistory
      ensures Valid()
      ensures slotHistory(user) == old(slotHistory(user)) + [GiveBack]
      ensures forall other :: other != user ==> slotHistory(other) == old(slotHistory(other))
      ensures forall other :: other != user ==> (other in concurrent <==> other in old(concurrent))
      ensures forall other :: other != user && other in concurrent ==> concurrent[other] == old(concurrent)[other]
    {
      SlotsGrow(concurrent, slotHistory, user, GiveBack);
      slotHistory := Extended(slotHistory, user, GiveBack);
      var current := Held(concurrent, user);
      if current > 0 { concurrent := concurrent[user := current - 1]; }
    }
  }

  /** One more event for one user. */
  function Extended<E>(history: string -> seq<E>, user: string, e: E): string -> seq<E> {
    (other: string) => if other == user then history(user) + [e] else history(other)
  }

  /** The table after one more event: the entry may stay out when there is no stamp. */
  lemma TableGrows(requests: map<string, seq<real>>, history: string -> seq<Event>, user: string, e: Event)
    requires TablesShow(requests, history)
    ensures var after := Step(Runs(history(user)), e);
            && Runs(history(user) + [e]) == after
            && TablesShow(requests[user := after.bucket], Extended(history, user, e))
            && (after.bucket == Runs(history(user)).bucket ==> TablesShow(requests, Extended(history, user, e)))
  {
    RunsSnoc(history(user), e);
  }

  /** A check on the table is the check on the user's run. */
  lemma CheckRecorded(requests: map<string, seq<real>>, history: string -> seq<Event>, user: string, now: real,
                      limit: int)
    requires TablesShow(requests, history)
    ensures var run := Runs(history(user));
            var (after, outcome) := Check(Bucket(requests, user), limit, now);
            && Bucket(requests, user) == run.bucket
            && Runs(history(user) + [Checked(now, limit)])
               == Run(after, run.admitted + (if outcome.Allowed? then [outcome.stamp] else []))
            && TablesShow(if outcome.Raises? then requests else requests[user := after],
                          Extended(history, user, Checked(now, limit)))
            && (Ordered(history(user), now) ==> Decides(outcome, run.admitted, limit, now))
  {
    TableGrows(requests, history, user, Checked(now, limit));
    if Ordered(history(user), now) { CheckDecides(history(user), now, limit); }
  }

  lemma SlotsGrow(concurrent: map<string, int>, history: string -> seq<SlotEvent>, user: string, e: SlotEvent)
    requires SlotsShow(concurrent, history)
    ensures var after := SlotStep(Slots(history(user)), e);
            && Slots(history(user) + [e]) == after
            && SlotsShow(concurrent[user := after.held], Extended(history, user, e))
            && (after.held == Slots(history(user)).held ==> SlotsShow(concurrent, Extended(history, user, e)))
  {
    SlotsSnoc(history(user), e);
    forall other: string | other != user ensures Extended(history, user, e)(other) == history(other) {
    }
  }

  /** The first stamp of this value is at `k`, and is what was left out. */
  predicate LeavesOut(left: seq<real>, stamps: seq<real>, stamp: real, k: nat) {
    && k < |stamps| && stamps[k] == stamp && (forall j :: 0 <= j < k ==> stamps[j] != stamp)
    && left == stamps[..k] + stamps[k + 1..]
  }

  predicate LeavesOutOne(left: seq<real>, stamps: seq<real>, stamp: real) {
    if stamp in stamps then exists k: nat :: k < |stamps| && LeavesOut(left, stamps, stamp, k) else left == stamps
  }

  lemma LeavesOutBehind(head: real, left: seq<real>, stamps: seq<real>, stamp: real, k: nat)
    requires LeavesOut(left, stamps, stamp, k) && head != stamp
    ensures LeavesOut([head] + left, [head] + stamps, stamp, k + 1)
  {
    assert ([head] + stamps)[..k + 1] == [head] + stamps[..k] && ([head] + stamps)[k + 2..] == stamps[k + 1..];
  }

  lemma {:induction false} RemovesFirst(stamps: seq<real>, stamp: real) returns (k: nat)
    requires stamp in stamps
    ensures LeavesOut(Remove(stamps, stamp), stamps, stamp, k)
  {
    if stamps[0] == stamp {
      k := 0;
      assert stamps[..0] + stamps[1..] == stamps[1..];
    } else {
      k := RemovesFirst(stamps[1..], stamp);
      LeavesOutBehind(stamps[0], Remove(stamps[1..], stamp), stamps[1..], stamp, k);
      k := k + 1;
      assert [stamps[0]] + stamps[1..] == stamps;
    }
  }

  lemma {:induction false} RemovesNothing(stamps: seq<real>, stamp: real)
    requires stamp !in stamps
    ensures Remove(stamps, stamp) == stamps
  {
    if stamps != [] { RemovesNothing(stamps[1..], stamp); }
  }

  lemma RemoveLeavesOutOne(stamps: seq<real>, stamp: real)
    ensures LeavesOutOne(Remove(stamps, stamp), stamps, stamp)
  {
    if stamp in stamps {
      var k := RemovesFirst(stamps, stamp);
    } else {
      RemovesNothing(stamps, stamp);
    }
  }

  /** What one more event does to the admitted stamps: an allowed check adds its time, an undo takes out one
      stamp of its value, nothing else changes them. */
  lemma AdmittedNext(events: seq<Event>, e: Event)
    ensures var was, after := Runs(events).admitted, Runs(events + [e]).admitted;
            if e.Undone? then LeavesOutOne(after, was, e.stamp)
            else after == if Check(Runs(events).bucket, e.limit, e.now).1.Allowed? then was + [e.now] else was
  {
    RunsSnoc(events, e);
    if e.Undone? { RemoveLeavesOutOne(Runs(events).admitted, e.stamp); }
  }

  lemma RunsSnoc(events: seq<Event>, e: Event)
    ensures Runs(events + [e]) == Step(Runs(events), e)
  {
    assert (events + [e])[..|events|] == events;
  }

  lemma SlotsSnoc(events: seq<SlotEvent>, e: SlotEvent)
    ensures Slots(events + [e]) == SlotStep(Slots(events), e)
  {
    assert (events + [e])[..|events|] == events;
  }

  // ---- One user's run ------------------------------------------------------------------------------

  /** A check under the limit in force, or an undo. */
  datatype Event = Checked(now: real, limit: int) | Undone(stamp: real)

  /** The bucket, and as a reference every stamp admitted and not undone since the start. */
  datatype Run = Run(bucket: seq<real>, admitted: seq<real>)

  function Step(r: Run, e: Event): Run {
    match e
    case Undone(stamp) => Run(Remove(r.bucket, stamp), Remove(r.admitted, stamp))
    case Checked(now, limit) =>
      var (bucket, outcome) := Check(r.bucket, limit, now);
      Run(bucket, if outcome.Allowed? then r.admitted + [outcome.stamp] else r.admitted)
  }

  function Runs(events: seq<Event>): Run {
    if events == [] then Run([], []) else Step(Runs(events[..|events| - 1]), events[|events| - 1])
  }

  /** No check comes after `clock`, and the checks' times never decrease. */
  predicate Ordered(events: seq<Event>, clock: real) {
    if events == [] then true
    else
      var front, last := events[..|events| - 1], events[|events| - 1];
      if last.Undone? then Ordered(front, clock) else last.now <= clock && Ordered(front, last.now)
  }

  /** Said of any two checks: none is earlier than one before it, and none later than the clock. */
  predicate NeverBack(events: seq<Event>, clock: real) {
    && (forall i, j :: 0 <= i < j < |events| && events[i].Checked? && events[j].Checked? ==>
          events[i].now <= events[j].now)
    && (forall k :: 0 <= k < |events| && events[k].Checked? ==> events[k].now <= clock)
  }

  lemma {:induction false} OrderedIff(events: seq<Event>, clock: real)
    ensures Ordered(events, clock) <==> NeverBack(events, clock)
  {
    if events == [] {
    } else {
      var front, last := events[..|events| - 1], events[|events| - 1];
      assert events == front + [last];
      OrderedIff(front, clock);
      if last.Checked? { OrderedIff(front, last.now); }
    }
  }

  predicate LimitedBy(events: seq<Event>, peak: int) {
    forall k :: 0 <= k < |events| && events[k].Checked? ==> events[k].limit <= peak
  }

  function Within(t: real): real -> bool {
    ts => t - 60.0 < ts <= t
  }

  /** The stamps in (t - 60, t]. */
  function Window(stamps: seq<real>, t: real): seq<real> {
    Filter(stamps, Within(t))
  }

  // ---- Filtering and removing -----------------------------------------------------------------------

  lemma {:induction false} FilterFewer(s: seq<real>, p: real -> bool, q: real -> bool)
    requires forall k :: 0 <= k < |s| && p(s[k]) ==> q(s[k])
    ensures |Filter(s, p)| <= |Filter(s, q)|
    ensures (forall k :: 0 <= k < |s| ==> p(s[k]) == q(s[k])) ==> Filter(s, p) == Filter(s, q)
  {
    if s == [] {
    } else {
      FilterFewer(s[..|s| - 1], p, q);
    }
  }

  lemma {:induction false} FilterElements(s: seq<real>, p: real -> bool)
    ensures forall x :: x in Filter(s, p) <==> x in s && p(x)
  {
    if s == [] {
    } else {
      FilterElements(s[..|s| - 1], p);
      assert s == s[..|s| - 1] + [s[|s| - 1]];
    }
  }

  /** Undoing commutes with every filter. */
  lemma {:induction false} FilterRemove(s: seq<real>, x: real, p: real -> bool)
    ensures Filter(Remove(s, x), p) == if p(x) then Remove(Filter(s, p), x) else Filter(s, p)
  {
    if s == [] {
    } else {
      var h, t := s[0], s[1..];
      assert s == [h] + t;
      FilterAppend([h], t, p);
      FilterOne(h, p);
      assert [] + Filter(t, p) == Filter(t, p);
      assert ([h] + Filter(t, p))[1..] == Filter(t, p);
      if h != x {
        FilterRemove(t, x, p);
        FilterAppend([h], Remove(t, x), p);
        assert [] + Remove(Filter(t, p), x) == Remove(Filter(t, p), x);
      }
    }
  }

  lemma {:induction false} RemoveShrinks(s: seq<real>, x: real)
    ensures |Remove(s, x)| <= |s|
    ensures forall y :: y in Remove(s, x) ==> y in s
  {
    if s == [] {
    } else {
      RemoveShrinks(s[1..], x);
    }
  }

  // ---- The bucket against the reference ------------------------------------------------------------

  /** From `clock` on the bucket stands for the whole history: they have the same stamps after any
      cutoff that can still matter. */
  ghost predicate Agrees(r: Run, clock: real) {
    && (forall c: real :: c >= clock - WINDOW ==> After(r.bucket, c) == After(r.admitted, c))
    && forall k :: 0 <= k < |r.admitted| ==> r.admitted[k] <= clock
  }

  lemma CheckAgrees(r: Run, now: real, limit: int, clock: real)
    requires Agrees(r, clock) && clock <= now
    ensures Agrees(Step(r, Checked(now, limit)), now)
  {
    var next, live := Step(r, Checked(now, limit)), After(r.bucket, now - WINDOW);
    forall c: real | c >= now - WINDOW ensures After(next.bucket, c) == After(next.admitted, c) {
      FilterTwice(r.bucket, Newer(c), Newer(now - WINDOW));
      assert After(r.bucket, c) == After(r.admitted, c);
      FilterSnoc(live, now, Newer(c));
      FilterSnoc(r.admitted, now, Newer(c));
    }
  }

  lemma UndoAgrees(r: Run, stamp: real, clock: real)
    requires Agrees(r, clock)
    ensures Agrees(Step(r, Undone(stamp)), clock)
  {
    forall c: real | c >= clock - WINDOW
      ensures After(Remove(r.bucket, stamp), c) == After(Remove(r.admitted, stamp), c) {
      assert After(r.bucket, c) == After(r.admitted, c);
      FilterRemove(r.bucket, stamp, Newer(c));
      FilterRemove(r.admitted, stamp, Newer(c));
    }
    RemoveShrinks(r.admitted, stamp);
    var left := Remove(r.admitted, stamp);
    forall k | 0 <= k < |left| ensures left[k] <= clock {
      assert left[k] in left;
    }
  }

  lemma {:induction false} RunAgrees(events: seq<Event>, clock: real)
    requires Ordered(events, clock)
    ensures Agrees(Runs(events), clock)
  {
    if events == [] {
    } else {
      var front, last := events[..|events| - 1], events[|events| - 1];
      if last.Undone? {
        RunAgrees(front, clock);
        UndoAgrees(Runs(front), last.stamp, clock);
      } else {
        RunAgrees(front, last.now);
        CheckAgrees(Runs(front), last.now, last.limit, last.now);
      }
    }
  }

  /** At a check the live part of the bucket is the window of the whole history. */
  lemma LiveIsWindow(r: Run, now: real)
    requires Agrees(r, now)
    ensures After(r.bucket, now - WINDOW) == Window(r.admitted, now)
  {
    FilterFewer(r.admitted, Newer(now - WINDOW), Within(now));
  }

  /** What an answer has to be, told from every stamp admitted and not undone so far. */
  predicate Decides(outcome: Outcome, admitted: seq<real>, limit: int, now: real) {
    var live := Window(admitted, now);
    && (outcome.Allowed? <==> |live| < limit)
    && (outcome.Refused? <==> |live| >= limit && live != [])
    && (outcome.Raises? <==> limit <= 0 && live == [])
    && (outcome.Allowed? ==> outcome.stamp == now)
    && (outcome.Refused? ==>
          exists oldest :: oldest in live && (forall ts :: ts in live ==> oldest <= ts)
                           && (outcome.retryAfter - 1) as real < oldest + 60.0 - now <= outcome.retryAfter as real)
  }

  /** The answer to a check, told from the whole history: allowed exactly when fewer than `limit`
      admitted stamps are live, refused exactly when some are and none may be added. */
  lemma CheckDecides(events: seq<Event>, now: real, limit: int)
    requires Ordered(events, now)
    ensures Decides(Check(Runs(events).bucket, limit, now).1, Runs(events).admitted, limit, now)
  {
    RunAgrees(events, now);
    LiveIsWindow(Runs(events), now);
  }

  // ---- The bound -------------------------------------------------------------------------------------

  lemma BoundStep(r: Run, now: real, limit: int, peak: nat, t: real)
    requires Agrees(r, now) && Check(r.bucket, limit, now).1.Allowed? && limit <= peak
    requires |Window(r.admitted, t)| <= peak
    ensures |Window(r.admitted + [now], t)| <= peak
  {
    FilterSnoc(r.admitted, now, Within(t));
    if t >= now {
      LiveIsWindow(r, now);
      FilterFewer(r.admitted, Within(t), Within(now));
    }
  }

  /** In every window of 60 seconds, wherever it lies, at most `peak` admitted stamps survive. */
  lemma {:induction false} SlidingWindow(events: seq<Event>, clock: real, peak: nat, t: real)
    requires Ordered(events, clock) && LimitedBy(events, peak)
    ensures |Window(Runs(events).admitted, t)| <= peak
  {
    if events == [] {
    } else {
      var front, last := events[..|events| - 1], events[|events| - 1];
      assert LimitedBy(front, peak) by {
        forall k | 0 <= k < |front| && front[k].Checked? ensures front[k].limit <= peak {
          assert front[k] == events[k];
        }
      }
      var r := Runs(front);
      if last.Undone? {
        SlidingWindow(front, clock, peak, t);
        FilterRemove(r.admitted, last.stamp, Within(t));
        RemoveShrinks(Window(r.admitted, t), last.stamp);
      } else {
        SlidingWindow(front, last.now, peak, t);
        RunAgrees(front, last.now);
        if Check(r.bucket, last.limit, last.now).1.Allowed? {
          BoundStep(r, last.now, last.limit, peak, t);
        }
      }
    }
  }

  /** So for a limiter in use: of the stamps it answered to a user and did not undo, at most `peak` lie in
      any window of 60 seconds, and its table has at most `peak` live ones. */
  lemma LimiterKeepsTheLimit(limiter: Limiter, user: string, clock: real, peak: nat)
    requires limiter.Valid() && Ordered(limiter.history(user), clock) && LimitedBy(limiter.history(user), peak)
    ensures forall t: real :: |Window(Runs(limiter.history(user)).admitted, t)| <= peak
    ensures user in limiter.requests ==> |After(limiter.requests[user], clock - WINDOW)| <= peak
  {
    forall t: real ensures |Window(Runs(limiter.history(user)).admitted, t)| <= peak {
      SlidingWindow(limiter.history(user), clock, peak, t);
    }
    RunAgrees(limiter.history(user), clock);
    LiveIsWindow(Runs(limiter.history(user)), clock);
  }

  // ---- Retrying ---------------------------------------------------------------------------------------

  /** A refusal asks for a wait of between 1 and 60 seconds. */
  lemma RetryWithinAMinute(events: seq<Event>, now: real, limit: int)
    requires Ordered(events, now) && Check(Runs(events).bucket, limit, now).1.Refused?
    ensures 1 <= Check(Runs(events).bucket, limit, now).1.retryAfter <= 60
  {
    var r := Runs(events);
    RunAgrees(events, now);
    var live := After(r.bucket, now - WINDOW);
    assert live == After(r.admitted, now - WINDOW);
    FilterElements(r.admitted, Newer(now - WINDOW));
    var oldest := Min(live);
    assert now - WINDOW < oldest <= now;
  }

  lemma {:induction false} FilterLoses(s: seq<real>, p: real -> bool, x: real)
    requires x in s && !p(x)
    ensures |Filter(s, p)| < |s|
  {
    var front, last := s[..|s| - 1], s[|s| - 1];
    assert s == front + [last];
    FilterShorter(front, p);
    if x !in front {
    } else {
      FilterLoses(front, p, x);
    }
  }

  predicate OnlyUndoes(events: seq<Event>) {
    forall k :: 0 <= k < |events| ==> events[k].Undone?
  }

  function RunsFrom(r: Run, events: seq<Event>): Run {
    if events == [] then r else Step(RunsFrom(r, events[..|events| - 1]), events[|events| - 1])
  }

  /** Undoing never leaves more stamps after a cutoff. */
  lemma {:induction false} UndoesShrink(r: Run, undos: seq<Event>, cutoff: real)
    requires OnlyUndoes(undos)
    ensures |After(RunsFrom(r, undos).bucket, cutoff)| <= |After(r.bucket, cutoff)|
  {
    if undos == [] {
    } else {
      var front, stamp := undos[..|undos| - 1], undos[|undos| - 1].stamp;
      UndoesShrink(r, front, cutoff);
      var b := RunsFrom(r, front).bucket;
      FilterRemove(b, stamp, Newer(cutoff));
      RemoveShrinks(After(b, cutoff), stamp);
    }
  }

  /** The wait outlasts the oldest live stamp, so fewer stamps are live after it. */
  lemma WaitDropsOldest(bucket: seq<real>, limit: int, now: real, later: real)
    requires Check(bucket, limit, now).1.Refused?
    requires later >= now + Check(bucket, limit, now).1.retryAfter as real
    ensures |After(Check(bucket, limit, now).0, later - WINDOW)| < |After(bucket, now - WINDOW)|
  {
    var live := After(bucket, now - WINDOW);
    FilterLoses(live, Newer(later - WINDOW), Min(live));
  }

  /** Under one limit, waiting as long as a refusal asks, with no admission but any number of undos
      meanwhile, leads to acceptance. */
  lemma WaitingIsRewarded(events: seq<Event>, limit: int, now: real, undos: seq<Event>, later: real)
    requires Ordered(events, now) && limit >= 1 && LimitedBy(events, limit)
    requires Check(Runs(events).bucket, limit, now).1.Refused? && OnlyUndoes(undos)
    requires later >= now + Check(Runs(events).bucket, limit, now).1.retryAfter as real
    ensures Check(RunsFrom(Step(Runs(events), Checked(now, limit)), undos).bucket, limit, later).1 == Allowed(later)
  {
    var r := Runs(events);
    RunAgrees(events, now);
    LiveIsWindow(r, now);
    SlidingWindow(events, now, limit, now);
    WaitDropsOldest(r.bucket, limit, now, later);
    UndoesShrink(Step(r, Checked(now, limit)), undos, later - WINDOW);
  }

  /** A refused check leaves the live stamps in the bucket. */
  lemma RefusalKeepsLive(events: seq<Event>, limit: int, now: real)
    requires Ordered(events, now) && Check(Runs(events).bucket, limit, now).1.Refused?
    ensures Step(Runs(events), Checked(now, limit)).bucket == Window(Runs(events).admitted, now)
  {
    RunAgrees(events, now);
    LiveIsWindow(Runs(events), now);
  }

  /** What undos leave of some stamps. */
  function Remaining(stamps: seq<real>, undos: seq<Event>): seq<real>
    requires OnlyUndoes(undos)
  {
    if undos == [] then stamps
    else Remove(Remaining(stamps, undos[..|undos| - 1]), undos[|undos| - 1].stamp)
  }

  lemma {:induction false} UndoesRemain(r: Run, undos: seq<Event>)
    requires OnlyUndoes(undos)
    ensures RunsFrom(r, undos).bucket == Remaining(r.bucket, undos)
  {
    if undos == [] {
    } else {
      UndoesRemain(r, undos[..|undos| - 1]);
    }
  }

  /** The exact condition, whatever limits were in force before: a retry at `later` with any undos but no
      admission in between is allowed under the limit then in force exactly when fewer than that many of
      the stamps live at the refusal are neither undone nor expired by then. */
  lemma RetryAllowedIff(events: seq<Event>, limit: int, now: real, undos: seq<Event>, limitThen: int, later: real)
    requires Ordered(events, now) && Check(Runs(events).bucket, limit, now).1.Refused? && OnlyUndoes(undos)
    requires later >= now + Check(Runs(events).bucket, limit, now).1.retryAfter as real
    ensures Check(RunsFrom(Step(Runs(events), Checked(now, limit)), undos).bucket, limitThen, later).1.Allowed?
            <==> |After(Remaining(Window(Runs(events).admitted, now), undos), later - WINDOW)| < limitThen
  {
    RefusalKeepsLive(events, limit, now);
    UndoesRemain(Step(Runs(events), Checked(now, limit)), undos);
  }

  // ---- Where the bound and the promise stop ------------------------------------------------------------

  lemma AfterOf2(a: real, b: real, c: real)
    ensures After([a, b], c) == (if a > c then [a] else []) + (if b > c then [b] else [])
  {
    assert [a, b] == [a] + [b];
    FilterAppend([a], [b], Newer(c));
    FilterOne(a, Newer(c));
    FilterOne(b, Newer(c));
  }

  lemma Admits(events: seq<Event>, r: Run, live: seq<real>, now: real, limit: int)
    requires Runs(events) == r && After(r.bucket, now - WINDOW) == live && |live| < limit
    ensures Runs(events + [Checked(now, limit)]) == Run(live + [now], r.admitted + [now])
  {
    assert (events + [Checked(now, limit)])[..|events|] == events;
  }

  /** Two checks less than a minute apart under a limit of two. */
  lemma TwoAdmitted(second: real)
    requires 0.0 <= second < 60.0
    ensures Runs([] + [Checked(0.0, 2)] + [Checked(second, 2)]) == Run([0.0, second], [0.0, second])
  {
    Admits([], Run([], []), [], 0.0, 2);
    assert [] + [0.0] == [0.0];
    FilterOne(0.0, Newer(second - WINDOW));
    Admits([] + [Checked(0.0, 2)], Run([0.0], [0.0]), [0.0], second, 2);
    assert [0.0] + [second] == [0.0, second];
  }

  lemma Refuses(events: seq<Event>, r: Run, live: seq<real>, now: real, limit: int)
    requires Runs(events) == r && After(r.bucket, now - WINDOW) == live && |live| >= limit && live != []
    ensures Check(r.bucket, limit, now).1 == Refused(Ceil(Min(live) + WINDOW - now))
    ensures Runs(events + [Checked(now, limit)]) == Run(live, r.admitted)
  {
    assert (events + [Checked(now, limit)])[..|events|] == events;
  }

  const ADMITTED_AT_0_AND_50 := [] + [Checked(0.0, 2)] + [Checked(50.0, 2)]

  /** A run in which the limit is lowered from two to one: the check at 51 is refused for 9 seconds,
      and the check at 60 is refused again. */
  lemma LoweredLimitBreaksThePromise()
    ensures Check(Runs(ADMITTED_AT_0_AND_50).bucket, 1, 51.0).1 == Refused(9)
    ensures Check(Runs(ADMITTED_AT_0_AND_50 + [Checked(51.0, 1)]).bucket, 1, 60.0).1.Refused?
  {
    TwoAdmitted(50.0);
    AfterOf2(0.0, 50.0, -9.0);
    assert [0.0] + [50.0] == [0.0, 50.0];
    Refuses(ADMITTED_AT_0_AND_50, Run([0.0, 50.0], [0.0, 50.0]), [0.0, 50.0], 51.0, 1);
    AfterOf2(0.0, 50.0, 0.0);
    assert [] + [50.0] == [50.0];
    Refuses(ADMITTED_AT_0_AND_50 + [Checked(51.0, 1)], Run([0.0, 50.0], [0.0, 50.0]), [50.0], 60.0, 1);
  }

  lemma OutOfOrderWindow()
    ensures |Window([0.0, 1.0, 61.0, 59.0], 59.0)| == 3
  {
    var p := Within(59.0);
    FilterOne(0.0, p);
    FilterSnoc([0.0], 1.0, p);
    FilterSnoc([0.0, 1.0], 61.0, p);
    FilterSnoc([0.0, 1.0, 61.0], 59.0, p);
    assert [0.0] + [1.0] + [61.0] + [59.0] == [0.0, 1.0, 61.0, 59.0];
  }

  const ADMITTED_AT_0_AND_1 := [] + [Checked(0.0, 2)] + [Checked(1.0, 2)]

  lemma ThirdAdmitted()
    ensures Runs(ADMITTED_AT_0_AND_1 + [Checked(61.0, 2)]) == Run([61.0], [0.0, 1.0, 61.0])
  {
    TwoAdmitted(1.0);
    AfterOf2(0.0, 1.0, 1.0);
    Admits(ADMITTED_AT_0_AND_1, Run([0.0, 1.0], [0.0, 1.0]), [], 61.0, 2);
    assert [] + [61.0] == [61.0] && [0.0, 1.0] + [61.0] == [0.0, 1.0, 61.0];
  }

  lemma OneLiveStamp(stamp: real, cutoff: real)
    requires stamp > cutoff
    ensures After([stamp], cutoff) == [stamp]
  {
    FilterOne(stamp, Newer(cutoff));
  }

  lemma LateArrivalAdmitted()
    ensures Runs(ADMITTED_AT_0_AND_1 + [Checked(61.0, 2)] + [Checked(59.0, 2)])
            == Run([61.0, 59.0], [0.0, 1.0, 61.0, 59.0])
  {
    ThirdAdmitted();
    OneLiveStamp(61.0, 59.0 - WINDOW);
    Admits(ADMITTED_AT_0_AND_1 + [Checked(61.0, 2)], Run([61.0], [0.0, 1.0, 61.0]), [61.0], 59.0, 2);
    assert [61.0] + [59.0] == [61.0, 59.0] && [0.0, 1.0, 61.0] + [59.0] == [0.0, 1.0, 61.0, 59.0];
  }

  /** The time is read before the lock is taken. Checks that reach the bucket out of order can
      exceed the limit: three stamps within a minute under a limit of two. */
  lemma OutOfOrderChecksExceedTheLimit()
    ensures |Window(Runs(ADMITTED_AT_0_AND_1 + [Checked(61.0, 2)] + [Checked(59.0, 2)]).admitted, 59.0)| == 3
  {
    LateArrivalAdmitted();
    OutOfOrderWindow();
  }

  // ---- Slots ----------------------------------------------------------------------------------------------

  /** What callers do with slots: an attempt under the limit in force, or giving one back. */
  datatype SlotEvent = Attempt(limit: int) | GiveBack

  /** The counter, beside the number of slots callers really hold. */
  datatype SlotCount = SlotCount(held: int, owned: int)

  function SlotStep(count: SlotCount, e: SlotEvent): SlotCount {
    match e
    case Attempt(limit) =>
      var (held, ok) := Acquire(count.held, limit);
      SlotCount(held, if ok then count.owned + 1 else count.owned)
    case GiveBack => SlotCount(Release(count.held), count.owned - 1)
  }

  function Slots(events: seq<SlotEvent>): SlotCount {
    if events == [] then SlotCount(0, 0) else SlotStep(Slots(events[..|events| - 1]), events[|events| - 1])
  }

  /** Slots are given back only by callers that hold one. */
  predicate Disciplined(events: seq<SlotEvent>) {
    events == [] || (Disciplined(events[..|events| - 1])
                     && (events[|events| - 1].GiveBack? ==> Slots(events[..|events| - 1]).owned > 0))
  }

  /** The counter is the number of slots held, never more than the largest limit in force, and an attempt
      succeeds exactly when fewer than its limit are held. */
  lemma {:induction false} SlotsAreCounted(events: seq<SlotEvent>, peak: int, limit: int)
    requires Disciplined(events)
    requires forall k :: 0 <= k < |events| && events[k].Attempt? ==> events[k].limit <= peak
    ensures var count := Slots(events);
            count.held == count.owned && 0 <= count.held && (count.held == 0 || count.held <= peak)
    ensures Slots(events + [Attempt(limit)]).owned
            == Slots(events).owned + (if Slots(events).owned < limit then 1 else 0)
  {
    SlotsSnoc(events, Attempt(limit));
    if events == [] {
    } else {
      SlotsAreCounted(events[..|events| - 1], peak, limit);
    }
  }
}
