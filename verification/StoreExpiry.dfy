/** The live part of the in-memory store: what its entries come to once the expired ones, which it
    only drops when they are fetched, are left out. */
module StoreExpiry {
  import opened Wrappers
  import opened Sequences
  import opened ConversationStore

  function Unexpired<M>(l: Limits, now: real): Entry<M> -> bool {
    (e: Entry<M>) => !Expired(l, e.storedAt, now)
  }

  /** The entries that a fetch would still return, in order of use. */
  function Live<M>(l: Limits, data: seq<Entry<M>>, now: real): seq<Entry<M>> {
    Filter(data, Unexpired(l, now))
  }

  // ---- Live entries and the elementary operations ------------------------------------------------------

  lemma LiveSnoc<M>(l: Limits, data: seq<Entry<M>>, e: Entry<M>, now: real)
    ensures Live(l, data + [e], now) == Live(l, data, now) + (if Expired(l, e.storedAt, now) then [] else [e])
  {
    FilterSnoc(data, e, Unexpired(l, now));
  }

  lemma LiveAppend<M>(l: Limits, a: seq<Entry<M>>, b: seq<Entry<M>>, now: real)
    ensures Live(l, a + b, now) == Live(l, a, now) + Live(l, b, now)
  {
    FilterAppend(a, b, Unexpired(l, now));
  }

  /** Time only takes live entries away. */
  lemma LiveLater<M>(l: Limits, data: seq<Entry<M>>, now: real, later: real)
    requires now <= later
    ensures Live(l, Live(l, data, now), later) == Live(l, data, later)
  {
    FilterTwice(data, Unexpired(l, later), Unexpired(l, now));
  }

  lemma {:induction false} AllLive<M>(l: Limits, data: seq<Entry<M>>, now: real)
    requires forall k :: 0 <= k < |data| ==> !Expired(l, data[k].storedAt, now)
    ensures Live(l, data, now) == data
  {
    if data == [] {
    } else {
      AllLive(l, data[..|data| - 1], now);
      assert data == data[..|data| - 1] + [data[|data| - 1]];
    }
  }

  lemma {:induction false} LiveIsLive<M>(l: Limits, data: seq<Entry<M>>, now: real)
    ensures forall k :: 0 <= k < |Live(l, data, now)| ==> !Expired(l, Live(l, data, now)[k].storedAt, now)
  {
    if data == [] {
    } else {
      LiveIsLive(l, data[..|data| - 1], now);
      LiveSnoc(l, data[..|data| - 1], data[|data| - 1], now);
      assert data == data[..|data| - 1] + [data[|data| - 1]];
    }
  }

  lemma {:induction false} LiveWithout<M>(l: Limits, data: seq<Entry<M>>, id: string, now: real)
    ensures Live(l, Without(data, id), now) == Without(Live(l, data, now), id)
  {
    if data == [] {
    } else {
      var front, last := data[..|data| - 1], data[|data| - 1];
      LiveWithout(l, front, id, now);
      LiveSnoc(l, Without(front, id), last, now);
      WithoutSnoc(Live(l, front, now), last, id);
    }
  }

  lemma {:induction false} LiveHas<M>(l: Limits, data: seq<Entry<M>>, id: string, now: real)
    requires Has(Live(l, data, now), id)
    ensures Has(data, id)
  {
    if data == [] {
    } else {
      var front, last := data[..|data| - 1], data[|data| - 1];
      assert data == front + [last];
      HasSnoc(front, last, id);
      HasSnoc(Live(l, front, now), last, id);
      if Has(Live(l, front, now), id) { LiveHas(l, front, id, now); }
    }
  }

  lemma {:induction false} LiveDistinct<M>(l: Limits, data: seq<Entry<M>>, now: real)
    requires DistinctIds(data)
    ensures DistinctIds(Live(l, data, now))
  {
    if data == [] {
    } else {
      var front, last := data[..|data| - 1], data[|data| - 1];
      assert data == front + [last];
      DistinctSnoc(front, last);
      LiveDistinct(l, front, now);
      if Has(Live(l, front, now), last.id) { LiveHas(l, front, last.id, now); }
      DistinctSnoc(Live(l, front, now), last);
    }
  }

  lemma LiveAbsent<M>(l: Limits, data: seq<Entry<M>>, id: string, now: real)
    requires !Has(data, id)
    ensures Find(Live(l, data, now), id) == None
  {
    if Has(Live(l, data, now), id) { LiveHas(l, data, id, now); }
    FindMeans(Live(l, data, now), id);
  }

  lemma FindLast<M>(data: seq<Entry<M>>, e: Entry<M>, id: string)
    ensures Find(data + [e], id) == if e.id == id then Some(e) else Find(data, id)
  {
    assert (data + [e])[..|data|] == data;
  }

  /** What a look-up among the live entries gives. */
  function IfLive<M>(l: Limits, found: Option<Entry<M>>, now: real): Option<Entry<M>> {
    if found.Some? && !Expired(l, found.value.storedAt, now) then found else None
  }

  lemma LiveFindSnoc<M>(l: Limits, front: seq<Entry<M>>, last: Entry<M>, id: string, now: real)
    requires last.id == id ==> !Has(front, id)
    requires Find(Live(l, front, now), id) == IfLive(l, Find(front, id), now)
    ensures Find(Live(l, front + [last], now), id) == IfLive(l, Find(front + [last], id), now)
  {
    LiveSnoc(l, front, last, now);
    FindLast(front, last, id);
    if Expired(l, last.storedAt, now) {
      assert Live(l, front, now) + [] == Live(l, front, now);
      if last.id == id { LiveAbsent(l, front, id, now); }
    } else {
      FindLast(Live(l, front, now), last, id);
    }
  }

  /** Looking up among the live entries is looking up and checking the age. */
  lemma {:induction false} LiveFind<M>(l: Limits, data: seq<Entry<M>>, id: string, now: real)
    requires DistinctIds(data)
    ensures Find(Live(l, data, now), id) == IfLive(l, Find(data, id), now)
  {
    if data == [] {
    } else {
      var front, last := data[..|data| - 1], data[|data| - 1];
      assert data == front + [last];
      DistinctSnoc(front, last);
      LiveFind(l, front, id, now);
      LiveFindSnoc(l, front, last, id, now);
    }
  }

  /** A fetch reads and moves live entries only: it can be told from them alone. */
  lemma LiveGet<M>(l: Limits, data: seq<Entry<M>>, id: string, now: real)
    requires DistinctIds(data)
    ensures Get(l, data, id, now).1 == Get(l, Live(l, data, now), id, now).1
    ensures Live(l, Get(l, data, id, now).0, now) == Get(l, Live(l, data, now), id, now).0
  {
    var live := Live(l, data, now);
    LiveFind(l, data, id, now);
    LiveWithout(l, data, id, now);
    if Find(data, id).None? {
    } else if Expired(l, Find(data, id).value.storedAt, now) {
      FindMeans(live, id);
      WithoutAbsent(live, id);
    } else {
      LiveSnoc(l, Without(data, id), Find(data, id).value, now);
    }
  }

  // ---- Eviction ----------------------------------------------------------------------------------------

  lemma {:induction false} LiveTotals<M>(l: Limits, data: seq<Entry<M>>, now: real)
    ensures |Live(l, data, now)| <= |data| && Total(Live(l, data, now)) <= Total(data)
  {
    if data == [] {
    } else {
      var front, last := data[..|data| - 1], data[|data| - 1];
      LiveTotals(l, front, now);
      TotalSnoc(Live(l, front, now), last);
    }
  }

  /** A live entry that is not the newest is too far back to be kept, and only because of expired
      ones: all the entries from it on are not within the limits, the live ones are. */
  predicate EvictsFittingLive<M>(l: Limits, data: seq<Entry<M>>, now: real) {
    exists k :: 0 <= k < |data| - 1 && CrowdedOut(l, data, now, k)
  }

  predicate CrowdedOut<M>(l: Limits, data: seq<Entry<M>>, now: real, k: nat)
    requires k < |data|
  {
    !Expired(l, data[k].storedAt, now) && !Fits(l, data[k..]) && Fits(l, Live(l, data[k..], now))
  }

  lemma {:induction false} SuffixTotal<M>(data: seq<Entry<M>>, k: nat)
    requires k <= |data|
    ensures Total(data[k..]) <= Total(data)
  {
    if k == 0 {
      assert data[0..] == data;
    } else {
      TotalHead(data);
      SuffixTotal(data[1..], k - 1);
      SuffixOfSuffix(data, 1, k - 1);
    }
  }

  lemma SuffixFits<M>(l: Limits, data: seq<Entry<M>>, k: nat)
    requires k <= |data| && Fits(l, data)
    ensures Fits(l, data[k..])
  {
    SuffixTotal(data, k);
  }

  /** Told before pruning: an entry goes exactly when it is not the newest and the entries from it on
      are not within the limits. */
  lemma EvictedIff<M>(l: Limits, data: seq<Entry<M>>, k: nat)
    requires Clamped(l) && k < |data|
    ensures k < |data| - |Prune(l, data)| <==> k < |data| - 1 && !Fits(l, data[k..])
  {
    PruneKeepsLongestSuffix(l, data);
    var n := |data| - |Prune(l, data)|;
    if n <= k < |data| - 1 {
      SuffixFits(l, Prune(l, data), k - n);
      SuffixOfSuffix(data, n, k - n);
    }
  }

  /** A fitting suffix is kept. */
  lemma FittingKept<M>(l: Limits, data: seq<Entry<M>>, m: nat)
    requires Clamped(l) && data != [] && m <= |data| && Fits(l, data[|data| - m..])
    ensures m <= |Prune(l, data)|
  {
    if m > 0 { EvictedIff(l, data, |data| - m); }
  }

  /** The live entries of a suffix are a suffix of the live entries. */
  lemma LiveSuffix<M>(l: Limits, data: seq<Entry<M>>, now: real, k: nat)
    requires k <= |data|
    ensures var live, part := Live(l, data, now), Live(l, data[k..], now);
            |part| <= |live| && part == live[|live| - |part|..]
  {
    assert data == data[..k] + data[k..];
    LiveAppend(l, data[..k], data[k..], now);
  }

  /** A live entry and what follows it. */
  lemma LiveFrom<M>(l: Limits, data: seq<Entry<M>>, now: real, k: nat)
    requires k < |data| && !Expired(l, data[k].storedAt, now)
    ensures Live(l, data[k..], now) == [data[k]] + Live(l, data[k + 1..], now)
  {
    assert data[k..] == [data[k]] + data[k + 1..];
    LiveAppend(l, [data[k]], data[k + 1..], now);
    FilterOne(data[k], Unexpired(l, now));
  }

  /** Every non-empty suffix of the live entries is what is live from some live entry on. */
  lemma {:induction false} SuffixStarts<M>(l: Limits, data: seq<Entry<M>>, now: real, m: nat) returns (k: nat)
    requires 0 < m <= |Live(l, data, now)|
    ensures k < |data| && !Expired(l, data[k].storedAt, now)
    ensures var live := Live(l, data, now);
            Live(l, data[k..], now) == live[|live| - m..]
  {
    assert Live<M>(l, [], now) == [];
    var live, rest := Live(l, data, now), data[1..];
    assert data == [data[0]] + rest;
    LiveAppend(l, [data[0]], rest, now);
    FilterOne(data[0], Unexpired(l, now));
    if m <= |Live(l, rest, now)| {
      var j := SuffixStarts(l, rest, now, m);
      k := j + 1;
      assert data[k..] == rest[j..];
    } else {
      k := 0;
      assert data[0..] == data;
    }
  }

  lemma FitsLive<M>(l: Limits, data: seq<Entry<M>>, now: real)
    requires Fits(l, data)
    ensures Fits(l, Live(l, data, now))
  {
    LiveTotals(l, data, now);
  }

  lemma LiveNotEmpty<M>(l: Limits, data: seq<Entry<M>>, now: real)
    requires data != [] && !Expired(l, data[|data| - 1].storedAt, now)
    ensures Live(l, data, now) != []
  {
    assert data == data[..|data| - 1] + [data[|data| - 1]];
    LiveSnoc(l, data[..|data| - 1], data[|data| - 1], now);
  }

  /** What is live of what pruning keeps is a suffix of the live entries. */
  lemma LiveOfPruned<M>(l: Limits, data: seq<Entry<M>>, now: real)
    requires Clamped(l) && data != [] && !Expired(l, data[|data| - 1].storedAt, now)
    ensures var live, kept := Live(l, data, now), Live(l, Prune(l, data), now);
            0 < |kept| <= |live| && kept == live[|live| - |kept|..]
  {
    PruneKeepsLongestSuffix(l, data);
    LiveSuffix(l, data, now, |data| - |Prune(l, data)|);
    LiveNotEmpty(l, Prune(l, data), now);
  }

  /** What pruning the live entries keeps is at least that. */
  lemma LivePrunedLess<M>(l: Limits, data: seq<Entry<M>>, now: real)
    requires Clamped(l) && data != [] && !Expired(l, data[|data| - 1].storedAt, now)
    ensures Live(l, data, now) != [] && |Live(l, Prune(l, data), now)| <= |Prune(l, Live(l, data, now))|
  {
    var live, pruned := Live(l, data, now), Prune(l, data);
    LiveOfPruned(l, data, now);
    PruneKeepsLongestSuffix(l, data);
    if Fits(l, pruned) {
      FitsLive(l, pruned, now);
      FittingKept(l, live, |Live(l, pruned, now)|);
    } else {
      LiveTotals(l, pruned, now);
      PruneKeepsLongestSuffix(l, live);
    }
  }

  /** A live entry makes a longer live suffix than any later one. */
  lemma LiveStrict<M>(l: Limits, data: seq<Entry<M>>, now: real, k: nat, n: nat)
    requires k < n <= |data| && !Expired(l, data[k].storedAt, now)
    ensures |Live(l, data[n..], now)| < |Live(l, data[k..], now)|
  {
    LiveFrom(l, data, now, k);
    LiveSuffix(l, data[k + 1..], now, n - k - 1);
    SuffixOfSuffix(data, k + 1, n - k - 1);
  }

  /** Pruning the live entries keeps an entry that only expired ones crowd out. */
  lemma CrowdedOutKept<M>(l: Limits, data: seq<Entry<M>>, now: real, k: nat)
    requires Clamped(l) && k < |data| && CrowdedOut(l, data, now, k)
    ensures |Live(l, data[k..], now)| <= |Prune(l, Live(l, data, now))|
  {
    LiveFrom(l, data, now, k);
    LiveSuffix(l, data, now, k);
    FittingKept(l, Live(l, data, now), |Live(l, data[k..], now)|);
  }

  /** So it makes the difference. */
  lemma CrowdedOutDiffers<M>(l: Limits, data: seq<Entry<M>>, now: real, k: nat)
    requires Clamped(l) && k < |data| - 1 && CrowdedOut(l, data, now, k)
    ensures |Live(l, Prune(l, data), now)| < |Prune(l, Live(l, data, now))|
  {
    EvictedIff(l, data, k);
    PruneKeepsLongestSuffix(l, data);
    LiveStrict(l, data, now, k, |data| - |Prune(l, data)|);
    CrowdedOutKept(l, data, now, k);
  }

  /** Where the pruned live entries start, when they are more than the newest. */
  lemma LivePrunedStarts<M>(l: Limits, data: seq<Entry<M>>, now: real) returns (k: nat)
    requires Clamped(l) && Live(l, data, now) != [] && |Prune(l, Live(l, data, now))| > 1
    ensures k < |data| && !Expired(l, data[k].storedAt, now)
    ensures Live(l, data[k..], now) == Prune(l, Live(l, data, now)) && Fits(l, Live(l, data[k..], now))
  {
    PruneKeepsLongestSuffix(l, Live(l, data, now));
    k := SuffixStarts(l, data, now, |Prune(l, Live(l, data, now))|);
  }

  /** And without such an entry there is none. */
  lemma NoneCrowdedOut<M>(l: Limits, data: seq<Entry<M>>, now: real)
    requires Clamped(l) && data != [] && !Expired(l, data[|data| - 1].storedAt, now)
    requires !EvictsFittingLive(l, data, now)
    ensures |Prune(l, Live(l, data, now))| <= |Live(l, Prune(l, data), now)|
  {
    LiveOfPruned(l, data, now);
    if |Prune(l, Live(l, data, now))| > 1 {
      var k := LivePrunedStarts(l, data, now);
      NotCrowdedOutStays(l, data, now, k);
    }
  }

  lemma NotCrowdedOutStays<M>(l: Limits, data: seq<Entry<M>>, now: real, k: nat)
    requires Clamped(l) && k < |data| && !Expired(l, data[k].storedAt, now) && Fits(l, Live(l, data[k..], now))
    requires k < |data| - 1 ==> !CrowdedOut(l, data, now, k)
    ensures |Live(l, data[k..], now)| <= |Live(l, Prune(l, data), now)|
  {
    EvictedIff(l, data, k);
    PruneKeepsLongestSuffix(l, data);
    StartsInPruned(l, data, now, k);
  }

  /** Pruning commutes with leaving out the expired entries exactly when expired entries crowd out no
      live one. */
  lemma EvictionAgreesIff<M>(l: Limits, data: seq<Entry<M>>, now: real)
    requires Clamped(l) && data != [] && !Expired(l, data[|data| - 1].storedAt, now)
    ensures Live(l, Prune(l, data), now) == Prune(l, Live(l, data, now)) <==> !EvictsFittingLive(l, data, now)
  {
    if EvictsFittingLive(l, data, now) {
      var k :| 0 <= k < |data| - 1 && CrowdedOut(l, data, now, k);
      CrowdedOutDiffers(l, data, now, k);
    } else {
      NoneCrowdedOut(l, data, now);
      LivePrunedLess(l, data, now);
      LiveOfPruned(l, data, now);
      PruneKeepsLongestSuffix(l, Live(l, data, now));
    }
  }

  lemma StartsInPruned<M>(l: Limits, data: seq<Entry<M>>, now: real, k: nat)
    requires |Prune(l, data)| <= |data| && Prune(l, data) == data[|data| - |Prune(l, data)|..]
    requires |data| - |Prune(l, data)| <= k < |data|
    ensures |Live(l, data[k..], now)| <= |Live(l, Prune(l, data), now)|
  {
    var n := |data| - |Prune(l, data)|;
    assert data[k..] == data[n..][k - n..];
    LiveSuffix(l, data[n..], now, k - n);
  }

  /** Without a TTL everything is live and no entry is crowded out by expired ones. */
  lemma WithoutTtlAllLive<M>(l: Limits, data: seq<Entry<M>>, now: real)
    requires l.ttl <= 0.0
    ensures Live(l, data, now) == data && !EvictsFittingLive(l, data, now)
  {
    AllLive(l, data, now);
    forall k | 0 <= k < |data| - 1 ensures !CrowdedOut(l, data, now, k) {
      AllLive(l, data[k..], now);
    }
  }
}
