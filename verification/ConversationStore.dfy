/** The in-memory store of transcripts by response id: a TTL, an entry cap and a byte budget over a
    map kept in order of use. `M` is a stored transcript, `size` its serialised length. */
module ConversationStore {
  import opened Wrappers

  /** The limits after clamping; 0 switches the TTL and either byte limit off. */
  datatype Limits = Limits(ttl: real, maxEntries: nat, maxBytes: nat, maxEntryBytes: nat)

  predicate Clamped(l: Limits) {
    l.maxEntries >= 1
  }

  predicate Expired(l: Limits, storedAt: real, now: real) {
    l.ttl > 0.0 && now - storedAt > l.ttl
  }

  predicate Oversized(l: Limits, bytes: nat) {
    l.maxEntryBytes > 0 && bytes > l.maxEntryBytes
  }

  datatype Entry<M> = Entry(id: string, storedAt: real, messages: M, bytes: nat)

  predicate Has<M>(data: seq<Entry<M>>, id: string) {
    exists k :: 0 <= k < |data| && data[k].id == id
  }

  /** The entry under `id`, if any. */
  function Find<M>(data: seq<Entry<M>>, id: string): Option<Entry<M>> {
    if data == [] then None
    else if data[|data| - 1].id == id then Some(data[|data| - 1])
    else Find(data[..|data| - 1], id)
  }

  /** The entries under other ids, in order. */
  function Without<M>(data: seq<Entry<M>>, id: string): seq<Entry<M>> {
    if data == [] then []
    else
      var front, last := Without(data[..|data| - 1], id), data[|data| - 1];
      if last.id == id then front else front + [last]
  }

  function Total<M>(data: seq<Entry<M>>): nat {
    if data == [] then 0 else Total(data[..|data| - 1]) + data[|data| - 1].bytes
  }

  predicate DistinctIds<M>(data: seq<Entry<M>>) {
    forall i, j :: 0 <= i < j < |data| ==> data[i].id != data[j].id
  }

  // ---- The operations -----------------------------------------------------------------------------

  function Get<M>(l: Limits, data: seq<Entry<M>>, id: string, now: real): (seq<Entry<M>>, Option<M>) {
    match Find(data, id)
    case None => (data, None)
    case Some(e) =>
      if Expired(l, e.storedAt, now) then (Without(data, id), None) else (Without(data, id) + [e], Some(e.messages))
  }

  /** Least recently used entries go until the count fits. */
  function PruneCount<M>(l: Limits, data: seq<Entry<M>>): seq<Entry<M>> {
    if |data| > l.maxEntries then PruneCount(l, data[1..]) else data
  }

  /** Least recently used entries go until the budget is met or one entry is left. */
  function PruneBytes<M>(l: Limits, data: seq<Entry<M>>): seq<Entry<M>> {
    if l.maxBytes > 0 && Total(data) > l.maxBytes && |data| > 1 then PruneBytes(l, data[1..]) else data
  }

  function Prune<M>(l: Limits, data: seq<Entry<M>>): seq<Entry<M>> {
    PruneBytes(l, PruneCount(l, data))
  }

  function Put<M>(l: Limits, size: M -> nat, data: seq<Entry<M>>, id: string, messages: M, now: real): (seq<Entry<M>>,
                  bool) {
    if Oversized(l, size(messages)) then (Without(data, id), false)
    else (Prune(l, Without(data, id) + [Entry(id, now, messages, size(messages))]), true)
  }

  // ---- Elementary facts -----------------------------------------------------------------------------

  lemma WithoutSnoc<M>(data: seq<Entry<M>>, e: Entry<M>, id: string)
    ensures Without(data + [e], id) == Without(data, id) + (if e.id == id then [] else [e])
  {
    assert (data + [e])[..|data|] == data;
  }

  lemma TotalSnoc<M>(data: seq<Entry<M>>, e: Entry<M>)
    ensures Total(data + [e]) == Total(data) + e.bytes
  {
    assert (data + [e])[..|data|] == data;
  }

  lemma {:induction false} TotalHead<M>(data: seq<Entry<M>>)
    requires data != []
    ensures Total(data) == data[0].bytes + Total(data[1..])
  {
    var front, last := data[..|data| - 1], data[|data| - 1];
    if front == [] {
      assert data[1..] == [];
    } else {
      TotalHead(front);
      assert data[1..] == front[1..] + [last];
      TotalSnoc(front[1..], last);
    }
  }

  lemma HasSnoc<M>(data: seq<Entry<M>>, e: Entry<M>, id: string)
    ensures Has(data + [e], id) <==> Has(data, id) || e.id == id
  {
    var all := data + [e];
    if e.id == id { assert all[|data|].id == id; }
    if Has(data, id) {
      var k :| 0 <= k < |data| && data[k].id == id;
      assert all[k].id == id;
    }
  }

  lemma DistinctSnoc<M>(data: seq<Entry<M>>, e: Entry<M>)
    ensures DistinctIds(data + [e]) <==> DistinctIds(data) && !Has(data, e.id)
  {
    var all := data + [e];
    if DistinctIds(all) {
      forall i, j | 0 <= i < j < |data| ensures data[i].id != data[j].id { assert all[i].id != all[j].id; }
      forall i | 0 <= i < |data| ensures data[i].id != e.id { assert all[i].id != all[|data|].id; }
    }
  }

  /** What is under another id stays, and nothing under this one. */
  lemma {:induction false} WithoutHas<M>(data: seq<Entry<M>>, id: string, other: string)
    ensures Has(Without(data, id), other) <==> other != id && Has(data, other)
  {
    if data == [] {
    } else {
      var front, last := data[..|data| - 1], data[|data| - 1];
      WithoutHas(front, id, other);
      HasSnoc(front, last, other);
      HasSnoc(Without(front, id), last, other);
      assert data == front + [last];
    }
  }

  lemma {:induction false} WithoutDistinct<M>(data: seq<Entry<M>>, id: string)
    requires DistinctIds(data)
    ensures DistinctIds(Without(data, id)) && !Has(Without(data, id), id)
  {
    WithoutHas(data, id, id);
    if data == [] {
    } else {
      var front, last := data[..|data| - 1], data[|data| - 1];
      assert data == front + [last];
      DistinctSnoc(front, last);
      WithoutDistinct(front, id);
      WithoutHas(front, id, last.id);
      DistinctSnoc(Without(front, id), last);
    }
  }

  lemma {:induction false} WithoutAbsent<M>(data: seq<Entry<M>>, id: string)
    requires !Has(data, id)
    ensures Without(data, id) == data
  {
    if data == [] {
    } else {
      var front, last := data[..|data| - 1], data[|data| - 1];
      assert data == front + [last];
      HasSnoc(front, last, id);
      WithoutAbsent(front, id);
    }
  }

  lemma {:induction false} FindMeans<M>(data: seq<Entry<M>>, id: string)
    ensures Find(data, id).Some? <==> Has(data, id)
    ensures Find(data, id).Some? ==> Find(data, id).value in data && Find(data, id).value.id == id
  {
    if data == [] {
    } else {
      var front, last := data[..|data| - 1], data[|data| - 1];
      assert data == front + [last];
      FindMeans(front, id);
      HasSnoc(front, last, id);
    }
  }

  lemma {:induction false} TotalWithout<M>(data: seq<Entry<M>>, id: string)
    requires DistinctIds(data)
    ensures Total(Without(data, id)) == Total(data) - (if Find(data, id).Some? then Find(data, id).value.bytes else 0)
    ensures Find(data, id).Some? ==> Total(data) >= Find(data, id).value.bytes
  {
    if data == [] {
    } else {
      var front, last := data[..|data| - 1], data[|data| - 1];
      assert data == front + [last];
      if last.id == id {
        DistinctSnoc(front, last);
        WithoutAbsent(front, id);
      } else {
        TotalWithout(front, id);
        TotalSnoc(Without(front, id), last);
      }
    }
  }

  // ---- The class ---------------------------------------------------------------------------------------

  class Store<M> {
    const limits: Limits
    const size: M -> nat
    var data: seq<Entry<M>>
    var totalBytes: int

    ghost predicate Valid()
      reads this
    {
      Clamped(limits) && DistinctIds(data) && totalBytes == Total(data)
    }

    constructor (ttl: real, maxEntries: int, maxBytes: int, maxEntryBytes: int, size: M -> nat)
      ensures Valid() && data == [] && this.size == size
      ensures limits.ttl == ttl && limits.maxEntries == (if maxEntries > 1 then maxEntries else 1)
      ensures limits.maxBytes == (if maxBytes > 0 then maxBytes else 0)
      ensures limits.maxEntryBytes == (if maxEntryBytes > 0 then maxEntryBytes else 0)
    {
      limits := Limits(ttl, if maxEntries > 1 then maxEntries else 1, if maxBytes > 0 then maxBytes else 0,
                       if maxEntryBytes > 0 then maxEntryBytes else 0);
      this.size := size;
      data, totalBytes := [], 0;
    }

    /** `_forget`. */
    method Forget(id: string)
      requires Valid()
      modifies this
      ensures Valid() && data == Without(old(data), id)
    {
      var entry := Find(data, id);
      TotalWithout(data, id);
      WithoutDistinct(data, id);
      FindMeans(data, id);
      if entry.None? {
        WithoutAbsent(data, id);
      } else {
        data := Without(data, id);
        totalBytes := totalBytes - entry.value.bytes;
      }
    }

    method GetTranscript(id: string, now: real) returns (messages: Option<M>)
      requires Valid()
      modifies this
      ensures Valid() && (data, messages) == Get(limits, old(data), id, now)
    {
      var entry := Find(data, id);
      if entry.None? { return None; }
      FindMeans(data, id);
      TotalWithout(data, id);
      WithoutDistinct(data, id);
      DistinctSnoc(Without(data, id), entry.value);
      if Expired(limits, entry.value.storedAt, now) {
        Forget(id);
        return None;
      }
      TotalSnoc(Without(data, id), entry.value);
      data := Without(data, id) + [entry.value];
      messages := Some(entry.value.messages);
    }

    /** `_prune`: one loop for the count, one for the budget. */
    method PruneOldest()
      requires Valid()
      modifies this
      ensures Valid() && data == Prune(limits, old(data))
    {
      while |data| > limits.maxEntries
        invariant Valid() && PruneCount(limits, data) == PruneCount(limits, old(data))
        decreases |data|
      {
        TotalHead(data);
        totalBytes := totalBytes - data[0].bytes;
        data := data[1..];
      }
      if limits.maxBytes > 0 {
        while totalBytes > limits.maxBytes && |data| > 1
          invariant Valid() && PruneBytes(limits, data) == Prune(limits, old(data))
          decreases |data|
        {
          TotalHead(data);
          totalBytes := totalBytes - data[0].bytes;
          data := data[1..];
        }
      }
    }

    method PutTranscript(id: string, messages: M, now: real) returns (stored: bool)
      requires Valid()
      modifies this
      ensures Valid() && (data, stored) == Put(limits, size, old(data), id, messages, now)
    {
      WithoutDistinct(data, id);
      Forget(id);
      var bytes := size(messages);
      if limits.maxEntryBytes > 0 && bytes > limits.maxEntryBytes { return false; }
      var entry := Entry(id, now, messages, bytes);
      TotalSnoc(data, entry);
      DistinctSnoc(data, entry);
      data := data + [entry];
      totalBytes := totalBytes + bytes;
      PruneOldest();
      stored := true;
    }

    method DeleteTranscript(id: string)
      requires Valid()
      modifies this
      ensures Valid() && data == Without(old(data), id)
    {
      Forget(id);
    }
  }

  // ---- What eviction keeps -------------------------------------------------------------------------------

  predicate Fits<M>(l: Limits, data: seq<Entry<M>>) {
    |data| <= l.maxEntries && (l.maxBytes == 0 || Total(data) <= l.maxBytes)
  }

  /** The longest most-recently-used run of entries within the limits, or the newest alone. */
  ghost predicate LongestFittingSuffix<M>(l: Limits, kept: seq<Entry<M>>, data: seq<Entry<M>>) {
    && |kept| <= |data| && kept == data[|data| - |kept|..]
    && (Fits(l, kept) || |kept| == 1)
    && forall k :: 0 <= k < |data| - |kept| ==> !Fits(l, data[k..])
  }

  lemma {:induction false} PruneCountIs<M>(l: Limits, data: seq<Entry<M>>)
    ensures PruneCount(l, data) == if |data| > l.maxEntries then data[|data| - l.maxEntries..] else data
  {
    if |data| <= l.maxEntries {
    } else {
      PruneCountIs(l, data[1..]);
    }
  }

  lemma SuffixOfSuffix<T>(s: seq<T>, a: nat, b: nat)
    requires a + b <= |s|
    ensures s[a..][b..] == s[a + b..]
  {
  }

  /** What is the longest fitting run of a suffix is that of the whole, when no longer suffix fits. */
  lemma LongestOfWhole<M>(l: Limits, kept: seq<Entry<M>>, data: seq<Entry<M>>, cut: nat)
    requires cut <= |data| && LongestFittingSuffix(l, kept, data[cut..])
    requires forall k :: 0 <= k < cut ==> !Fits(l, data[k..])
    ensures LongestFittingSuffix(l, kept, data)
  {
    SuffixOfSuffix(data, cut, |data| - cut - |kept|);
    forall k | 0 <= k < |data| - |kept| ensures !Fits(l, data[k..]) {
      if k >= cut { SuffixOfSuffix(data, cut, k - cut); }
    }
  }

  lemma {:induction false} PruneBytesKeeps<M>(l: Limits, data: seq<Entry<M>>)
    requires Clamped(l) && data != [] && |data| <= l.maxEntries
    ensures LongestFittingSuffix(l, PruneBytes(l, data), data) && PruneBytes(l, data) != []
  {
    if l.maxBytes > 0 && Total(data) > l.maxBytes && |data| > 1 {
      PruneBytesKeeps(l, data[1..]);
      assert data[0..] == data;
      LongestOfWhole(l, PruneBytes(l, data), data, 1);
    }
  }

  /** What pruning leaves is a function of the limits alone, and the newest entry is always in it. */
  lemma PruneKeepsLongestSuffix<M>(l: Limits, data: seq<Entry<M>>)
    requires Clamped(l) && data != []
    ensures LongestFittingSuffix(l, Prune(l, data), data)
    ensures Prune(l, data) != [] && Prune(l, data)[|Prune(l, data)| - 1] == data[|data| - 1]
  {
    PruneCountIs(l, data);
    var cut := if |data| > l.maxEntries then |data| - l.maxEntries else 0;
    assert data[0..] == data;
    PruneBytesKeeps(l, data[cut..]);
    forall k | 0 <= k < cut ensures !Fits(l, data[k..]) {
      assert |data[k..]| > l.maxEntries;
    }
    LongestOfWhole(l, Prune(l, data), data, cut);
    NewestKept(l, Prune(l, data), data);
  }

  lemma NewestKept<M>(l: Limits, kept: seq<Entry<M>>, data: seq<Entry<M>>)
    requires LongestFittingSuffix(l, kept, data) && kept != []
    ensures kept[|kept| - 1] == data[|data| - 1]
  {
  }

  /** A stored transcript can be fetched straight away, whatever had to go for it. */
  lemma StoredIsThere<M>(l: Limits, size: M -> nat, data: seq<Entry<M>>, id: string, messages: M, now: real)
    requires Clamped(l)
    ensures Put(l, size, data, id, messages, now).1 <==> !Oversized(l, size(messages))
    ensures var (after, stored) := Put(l, size, data, id, messages, now);
            Find(after, id) == if stored then Some(Entry(id, now, messages, size(messages))) else None
  {
    WithoutHas(data, id, id);
    FindMeans(Without(data, id), id);
    if !Oversized(l, size(messages)) {
      PruneKeepsLongestSuffix(l, Without(data, id) + [Entry(id, now, messages, size(messages))]);
    }
  }

  // ---- Every run --------------------------------------------------------------------------------------------

  datatype Operation<M> = GetOp(id: string) | PutOp(id: string, messages: M) | DeleteOp(id: string)

  /** What a caller sees of one operation. */
  datatype Answer<M> = Got(found: Option<M>) | PutSaid(stored: bool) | Deleted

  function Apply<M>(l: Limits, size: M -> nat, data: seq<Entry<M>>, op: Operation<M>, now: real): (seq<Entry<M>>,
                    Answer<M>) {
    match op
    case GetOp(id) => var (after, found) := Get(l, data, id, now); (after, Got(found))
    case PutOp(id, messages) => var (after, stored) := Put(l, size, data, id, messages, now); (after, PutSaid(stored))
    case DeleteOp(id) => (Without(data, id), Deleted)
  }

  /** The state after operations at the given times. */
  function Runs<M>(l: Limits, size: M -> nat, ops: seq<(Operation<M>, real)>): seq<Entry<M>> {
    if ops == [] then []
    else
      var (op, now) := ops[|ops| - 1];
      Apply(l, size, Runs(l, size, ops[..|ops| - 1]), op, now).0
  }

  /** Every entry is accounted at its own size, which is not oversized. */
  predicate Sized<M>(l: Limits, size: M -> nat, data: seq<Entry<M>>) {
    forall k :: 0 <= k < |data| ==> data[k].bytes == size(data[k].messages) && !Oversized(l, data[k].bytes)
  }

  predicate WithinLimits<M>(l: Limits, size: M -> nat, data: seq<Entry<M>>) {
    && DistinctIds(data)
    && |data| <= l.maxEntries
    && (l.maxBytes > 0 && |data| > 1 ==> Total(data) <= l.maxBytes)
    && Sized(l, size, data)
  }

  lemma {:induction false} WithoutShrinks<M>(data: seq<Entry<M>>, id: string)
    ensures |Without(data, id)| <= |data| && Total(Without(data, id)) <= Total(data)
    ensures Has(data, id) ==> |Without(data, id)| < |data|
  {
    if data == [] {
    } else {
      var front, last := data[..|data| - 1], data[|data| - 1];
      assert data == front + [last];
      HasSnoc(front, last, id);
      WithoutShrinks(front, id);
      TotalSnoc(Without(front, id), last);
    }
  }

  lemma {:induction false} WithoutSized<M>(l: Limits, size: M -> nat, data: seq<Entry<M>>, id: string)
    requires Sized(l, size, data)
    ensures Sized(l, size, Without(data, id))
  {
    if data == [] {
    } else {
      WithoutSized(l, size, data[..|data| - 1], id);
    }
  }

  lemma WithoutWithin<M>(l: Limits, size: M -> nat, data: seq<Entry<M>>, id: string)
    requires WithinLimits(l, size, data)
    ensures WithinLimits(l, size, Without(data, id))
  {
    WithoutDistinct(data, id);
    WithoutShrinks(data, id);
    WithoutSized(l, size, data, id);
  }

  lemma GetWithin<M>(l: Limits, size: M -> nat, data: seq<Entry<M>>, id: string, now: real)
    requires WithinLimits(l, size, data)
    ensures WithinLimits(l, size, Get(l, data, id, now).0)
  {
    FindMeans(data, id);
    WithoutWithin(l, size, data, id);
    if Find(data, id).Some? {
      var e := Find(data, id).value;
      WithoutDistinct(data, id);
      DistinctSnoc(Without(data, id), e);
      TotalWithout(data, id);
      TotalSnoc(Without(data, id), e);
      WithoutShrinks(data, id);
    }
  }

  lemma SuffixWithin<M>(l: Limits, size: M -> nat, kept: seq<Entry<M>>, data: seq<Entry<M>>)
    requires Clamped(l) && DistinctIds(data) && Sized(l, size, data)
    requires |kept| <= |data| && kept == data[|data| - |kept|..] && (Fits(l, kept) || |kept| == 1)
    ensures WithinLimits(l, size, kept)
  {
  }

  lemma SizedSnoc<M>(l: Limits, size: M -> nat, data: seq<Entry<M>>, e: Entry<M>)
    requires Sized(l, size, data) && e.bytes == size(e.messages) && !Oversized(l, e.bytes)
    ensures Sized(l, size, data + [e])
  {
  }

  lemma PutWithin<M>(l: Limits, size: M -> nat, data: seq<Entry<M>>, id: string, messages: M, now: real)
    requires Clamped(l) && WithinLimits(l, size, data)
    ensures WithinLimits(l, size, Put(l, size, data, id, messages, now).0)
  {
    WithoutWithin(l, size, data, id);
    if !Oversized(l, size(messages)) {
      var others, entry := Without(data, id), Entry(id, now, messages, size(messages));
      WithoutDistinct(data, id);
      DistinctSnoc(others, entry);
      SizedSnoc(l, size, others, entry);
      PruneKeepsLongestSuffix(l, others + [entry]);
      SuffixWithin(l, size, Prune(l, others + [entry]), others + [entry]);
    }
  }

  /** Every reachable state is within its limits. */
  lemma {:induction false} ReachableWithinLimits<M>(l: Limits, size: M -> nat, ops: seq<(Operation<M>, real)>)
    requires Clamped(l)
    ensures WithinLimits(l, size, Runs(l, size, ops))
  {
    if ops == [] {
    } else {
      var before := Runs(l, size, ops[..|ops| - 1]);
      ReachableWithinLimits(l, size, ops[..|ops| - 1]);
      match ops[|ops| - 1].0 {
        case GetOp(id) => GetWithin(l, size, before, id, ops[|ops| - 1].1);
        case PutOp(id, messages) => PutWithin(l, size, before, id, messages, ops[|ops| - 1].1);
        case DeleteOp(id) => WithoutWithin(l, size, before, id);
      }
    }
  }

  // ---- What the operations do, position by position ----------------------------------------------------------

  lemma {:induction false} FoundAt<M>(data: seq<Entry<M>>, k: nat)
    requires DistinctIds(data) && k < |data|
    ensures Find(data, data[k].id) == Some(data[k]) && Without(data, data[k].id) == data[..k] + data[k + 1..]
  {
    var front, last := data[..|data| - 1], data[|data| - 1];
    var id := data[k].id;
    if k == |front| {
      forall j | 0 <= j < |front| ensures front[j].id != id { assert data[j].id != data[k].id; }
      WithoutAbsent(front, id);
      assert data[..k] + data[k + 1..] == front;
    } else {
      assert DistinctIds(front) && front[k] == data[k] && last.id != id;
      FoundAt(front, k);
      assert front[..k] + front[k + 1..] + [last] == data[..k] + data[k + 1..];
    }
  }

  lemma NotFound<M>(data: seq<Entry<M>>, id: string)
    requires !Has(data, id)
    ensures Find(data, id) == None && Without(data, id) == data
  {
    FindMeans(data, id);
    WithoutAbsent(data, id);
  }

  /** A fetch finds an entry that is at most `ttl` seconds old, or of any age without a limit, and puts it last;
      an older one it drops. */
  lemma FetchTells<M>(l: Limits, data: seq<Entry<M>>, id: string, now: real)
    requires DistinctIds(data)
    ensures var (after, found) := Get(l, data, id, now);
            && (!Has(data, id) ==> found == None && after == data)
            && forall k :: 0 <= k < |data| && data[k].id == id ==>
                 if l.ttl <= 0.0 || now - data[k].storedAt <= l.ttl
                 then found == Some(data[k].messages) && after == data[..k] + data[k + 1..] + [data[k]]
                 else found == None && after == data[..k] + data[k + 1..]
  {
    if Has(data, id) {
      forall k | 0 <= k < |data| && data[k].id == id
        ensures Find(data, id) == Some(data[k]) && Without(data, id) == data[..k] + data[k + 1..]
      {
        FoundAt(data, k);
      }
    } else {
      NotFound(data, id);
    }
  }

  /** The entries without the one under `id`, wherever it is. */
  ghost predicate IsRest<M>(rest: seq<Entry<M>>, data: seq<Entry<M>>, id: string) {
    if Has(data, id) then exists k :: 0 <= k < |data| && data[k].id == id && rest == data[..k] + data[k + 1..]
    else rest == data
  }

  lemma RestIs<M>(data: seq<Entry<M>>, id: string)
    requires DistinctIds(data)
    ensures IsRest(Without(data, id), data, id)
  {
    if Has(data, id) {
      var k :| 0 <= k < |data| && data[k].id == id;
      FoundAt(data, k);
    } else {
      NotFound(data, id);
    }
  }

  /** A put is accepted when there is no limit on one transcript or it is within it; the new entry then comes
      last, and the oldest go that leave no room. Either way the entry of before is gone. */
  lemma PutTells<M>(l: Limits, size: M -> nat, data: seq<Entry<M>>, id: string, messages: M, now: real)
    returns (rest: seq<Entry<M>>)
    requires Clamped(l) && DistinctIds(data)
    ensures IsRest(rest, data, id)
    ensures var (after, stored) := Put(l, size, data, id, messages, now);
            && (stored <==> l.maxEntryBytes == 0 || size(messages) <= l.maxEntryBytes)
            && (stored ==> after != []
                           && LongestFittingSuffix(l, after, rest + [Entry(id, now, messages, size(messages))]))
            && (!stored ==> after == rest)
  {
    RestIs(data, id);
    rest := Without(data, id);
    PruneKeepsLongestSuffix(l, rest + [Entry(id, now, messages, size(messages))]);
  }

  lemma KeptDistinct<M>(l: Limits, kept: seq<Entry<M>>, data: seq<Entry<M>>)
    requires LongestFittingSuffix(l, kept, data) && DistinctIds(data)
    ensures DistinctIds(kept)
  {
  }

  /** The same under an id that is not in use. */
  lemma FreshPutTells<M>(l: Limits, size: M -> nat, data: seq<Entry<M>>, id: string, messages: M, now: real)
    requires Clamped(l) && DistinctIds(data) && !Has(data, id)
    ensures var (after, stored) := Put(l, size, data, id, messages, now);
            && (stored <==> l.maxEntryBytes == 0 || size(messages) <= l.maxEntryBytes)
            && (stored ==> after != [] && DistinctIds(after)
                           && LongestFittingSuffix(l, after, data + [Entry(id, now, messages, size(messages))]))
            && (!stored ==> after == data)
  {
    var rest := PutTells(l, size, data, id, messages, now);
    DistinctSnoc(data, Entry(id, now, messages, size(messages)));
    if Put(l, size, data, id, messages, now).1 {
      KeptDistinct(l, Put(l, size, data, id, messages, now).0, data + [Entry(id, now, messages, size(messages))]);
    }
  }

  /** A deletion takes out the entry and nothing else. */
  lemma DeleteTells<M>(l: Limits, size: M -> nat, data: seq<Entry<M>>, id: string, now: real)
    requires DistinctIds(data)
    ensures IsRest(Apply(l, size, data, DeleteOp(id), now).0, data, id)
  {
    RestIs(data, id);
  }
}
