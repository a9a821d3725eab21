/** The two stores answer alike. Sorted by access time the table is the ordered map of the in-memory
    store as far as live entries go, and every operation keeps it so, with two exact exceptions: a put
    refused over a live id, and a put for which the map evicts a live entry in favour of expired ones. */
module StoreBisimulation {
  import opened Wrappers
  import opened ConversationStore
  import opened SqliteStore
  import opened StoreExpiry
  import Sequences

  function EntriesOf<M>(rows: seq<Row<M>>): seq<Entry<M>> {
    if rows == [] then [] else EntriesOf(rows[..|rows| - 1]) + [rows[|rows| - 1].entry]
  }

  /** Insertion by access time, after those accessed at the same time. */
  function Insert<M>(rows: seq<Row<M>>, r: Row<M>): seq<Row<M>> {
    if rows == [] || rows[|rows| - 1].accessedAt <= r.accessedAt then rows + [r]
    else Insert(rows[..|rows| - 1], r) + [rows[|rows| - 1]]
  }

  function Sorted<M>(rows: seq<Row<M>>): seq<Row<M>> {
    if rows == [] then [] else Insert(Sorted(rows[..|rows| - 1]), rows[|rows| - 1])
  }

  /** The table as the ordered map it stands for. */
  function View<M>(rows: seq<Row<M>>): seq<Entry<M>> {
    EntriesOf(Sorted(rows))
  }

  predicate Ascending<M>(rows: seq<Row<M>>) {
    forall i, j :: 0 <= i < j < |rows| ==> rows[i].accessedAt <= rows[j].accessedAt
  }

  predicate AccessedBefore<M>(rows: seq<Row<M>>, now: real) {
    forall k :: 0 <= k < |rows| ==> rows[k].accessedAt < now
  }

  // ---- Rows and their entries ------------------------------------------------------------------------

  lemma EntriesSnoc<M>(rows: seq<Row<M>>, r: Row<M>)
    ensures EntriesOf(rows + [r]) == EntriesOf(rows) + [r.entry]
  {
    assert (rows + [r])[..|rows|] == rows;
  }

  lemma {:induction false} EntriesAt<M>(rows: seq<Row<M>>)
    ensures |EntriesOf(rows)| == |rows| && forall k :: 0 <= k < |rows| ==> EntriesOf(rows)[k] == rows[k].entry
  {
    if rows == [] {
    } else {
      EntriesAt(rows[..|rows| - 1]);
    }
  }

  lemma {:induction false} EntriesDelete<M>(rows: seq<Row<M>>, id: string)
    ensures EntriesOf(DeleteRow(rows, id)) == Without(EntriesOf(rows), id)
  {
    if rows == [] {
    } else {
      var front, last := rows[..|rows| - 1], rows[|rows| - 1];
      EntriesDelete(front, id);
      WithoutSnoc(EntriesOf(front), last.entry, id);
      EntriesSnoc(DeleteRow(front, id), last);
    }
  }

  lemma {:induction false} EntriesTotal<M>(rows: seq<Row<M>>)
    ensures Total(EntriesOf(rows)) == SumBytes(rows)
  {
    if rows == [] {
    } else {
      var front, last := rows[..|rows| - 1], rows[|rows| - 1];
      EntriesTotal(front);
      TotalSnoc(EntriesOf(front), last.entry);
    }
  }

  lemma FindSnoc<M>(data: seq<Entry<M>>, e: Entry<M>, id: string)
    ensures Find(data + [e], id) == if e.id == id then Some(e) else Find(data, id)
  {
    assert (data + [e])[..|data|] == data;
  }

  function EntryOf<M>(row: Option<Row<M>>): Option<Entry<M>> {
    match row
    case None => None
    case Some(r) => Some(r.entry)
  }

  lemma {:induction false} EntriesFind<M>(rows: seq<Row<M>>, id: string)
    ensures Find(EntriesOf(rows), id) == EntryOf(Select(rows, id))
  {
    if rows == [] {
    } else {
      var front, last := rows[..|rows| - 1], rows[|rows| - 1];
      EntriesFind(front, id);
      FindSnoc(EntriesOf(front), last.entry, id);
    }
  }

  // ---- Sorting ------------------------------------------------------------------------------------------

  predicate AccessedBy<M>(rows: seq<Row<M>>, t: real) {
    forall k :: 0 <= k < |rows| ==> rows[k].accessedAt <= t
  }

  lemma {:induction false} InsertAccessedBy<M>(rows: seq<Row<M>>, r: Row<M>, t: real)
    requires AccessedBy(rows, t) && r.accessedAt <= t
    ensures AccessedBy(Insert(rows, r), t)
  {
    if rows != [] && rows[|rows| - 1].accessedAt > r.accessedAt { InsertAccessedBy(rows[..|rows| - 1], r, t); }
  }

  lemma {:induction false} SortedAccessedBy<M>(rows: seq<Row<M>>, t: real)
    requires AccessedBy(rows, t)
    ensures AccessedBy(Sorted(rows), t)
  {
    if rows == [] {
    } else {
      SortedAccessedBy(rows[..|rows| - 1], t);
      InsertAccessedBy(Sorted(rows[..|rows| - 1]), rows[|rows| - 1], t);
    }
  }

  lemma {:induction false} DeleteAccessedBy<M>(rows: seq<Row<M>>, id: string, t: real)
    requires AccessedBy(rows, t)
    ensures AccessedBy(DeleteRow(rows, id), t)
  {
    if rows == [] {
    } else {
      DeleteAccessedBy(rows[..|rows| - 1], id, t);
    }
  }

  lemma {:induction false} InsertAscends<M>(rows: seq<Row<M>>, r: Row<M>)
    requires Ascending(rows)
    ensures Ascending(Insert(rows, r)) && |Insert(rows, r)| == |rows| + 1
    ensures Insert(rows, r)[0] == if rows == [] || r.accessedAt < rows[0].accessedAt then r else rows[0]
  {
    if rows != [] && rows[|rows| - 1].accessedAt > r.accessedAt {
      var front, last := rows[..|rows| - 1], rows[|rows| - 1];
      InsertAscends(front, r);
      InsertAccessedBy(front, r, last.accessedAt);
    }
  }

  lemma {:induction false} SortedAscends<M>(rows: seq<Row<M>>)
    ensures Ascending(Sorted(rows)) && |Sorted(rows)| == |rows|
  {
    if rows == [] {
    } else {
      SortedAscends(rows[..|rows| - 1]);
      InsertAscends(Sorted(rows[..|rows| - 1]), rows[|rows| - 1]);
    }
  }

  /** The row deleted first is the first of the sorted table. */
  lemma {:induction false} OldestIsFirst<M>(rows: seq<Row<M>>)
    requires rows != []
    ensures Sorted(rows) != [] && Sorted(rows)[0] == Oldest(rows)
  {
    var front, last := rows[..|rows| - 1], rows[|rows| - 1];
    SortedAscends(front);
    InsertAscends(Sorted(front), last);
    if |rows| == 1 {
    } else {
      OldestIsFirst(front);
    }
  }

  lemma DeleteSnoc<M>(rows: seq<Row<M>>, r: Row<M>, id: string)
    ensures DeleteRow(rows + [r], id) == DeleteRow(rows, id) + (if r.entry.id == id then [] else [r])
  {
    assert (rows + [r])[..|rows|] == rows;
  }

  lemma InsertLast<M>(rows: seq<Row<M>>, r: Row<M>)
    requires AccessedBy(rows, r.accessedAt)
    ensures Insert(rows, r) == rows + [r]
  {
  }

  lemma InsertSnoc<M>(rows: seq<Row<M>>, last: Row<M>, r: Row<M>)
    requires last.accessedAt > r.accessedAt
    ensures Insert(rows + [last], r) == Insert(rows, r) + [last]
  {
    assert (rows + [last])[..|rows|] == rows;
  }

  lemma {:induction false} DeleteFromInsert<M>(rows: seq<Row<M>>, r: Row<M>, id: string)
    requires Ascending(rows)
    ensures DeleteRow(Insert(rows, r), id)
            == if r.entry.id == id then DeleteRow(rows, id) else Insert(DeleteRow(rows, id), r)
  {
    if rows == [] || rows[|rows| - 1].accessedAt <= r.accessedAt {
      DeleteSnoc(rows, r, id);
      DeleteAccessedBy(rows, id, r.accessedAt);
      InsertLast(DeleteRow(rows, id), r);
    } else {
      var front, last := rows[..|rows| - 1], rows[|rows| - 1];
      DeleteFromInsert(front, r, id);
      DeleteSnoc(Insert(front, r), last, id);
      InsertSnoc(DeleteRow(front, id), last, r);
    }
  }

  lemma {:induction false} SortedDelete<M>(rows: seq<Row<M>>, id: string)
    ensures Sorted(DeleteRow(rows, id)) == DeleteRow(Sorted(rows), id)
  {
    if rows == [] {
    } else {
      var front, last := rows[..|rows| - 1], rows[|rows| - 1];
      SortedDelete(front, id);
      SortedAscends(front);
      DeleteFromInsert(Sorted(front), last, id);
      SortedSnoc(DeleteRow(front, id), last);
    }
  }

  lemma SortedSnoc<M>(rows: seq<Row<M>>, r: Row<M>)
    ensures Sorted(rows + [r]) == Insert(Sorted(rows), r)
  {
    assert (rows + [r])[..|rows|] == rows;
  }

  /** A row accessed after all others is sorted last. */
  lemma SortedNewest<M>(rows: seq<Row<M>>, r: Row<M>)
    requires AccessedBefore(rows, r.accessedAt)
    ensures Sorted(rows + [r]) == Sorted(rows) + [r]
  {
    SortedSnoc(rows, r);
    SortedAccessedBy(rows, r.accessedAt);
    InsertLast(Sorted(rows), r);
  }

  lemma {:induction false} InsertDistinct<M>(rows: seq<Row<M>>, r: Row<M>, id: string)
    ensures Has(EntriesOf(Insert(rows, r)), id) <==> Has(EntriesOf(rows), id) || r.entry.id == id
  {
    if rows == [] || rows[|rows| - 1].accessedAt <= r.accessedAt {
      EntriesSnoc(rows, r);
      HasSnoc(EntriesOf(rows), r.entry, id);
    } else {
      var front, last := rows[..|rows| - 1], rows[|rows| - 1];
      InsertDistinct(front, r, id);
      EntriesSnoc(Insert(front, r), last);
      HasSnoc(EntriesOf(Insert(front, r)), last.entry, id);
      HasSnoc(EntriesOf(front), last.entry, id);
    }
  }

  lemma {:induction false} SortedHas<M>(rows: seq<Row<M>>, id: string)
    ensures Has(View(rows), id) <==> Has(EntriesOf(rows), id)
  {
    if rows == [] {
    } else {
      var front, last := rows[..|rows| - 1], rows[|rows| - 1];
      SortedHas(front, id);
      InsertDistinct(Sorted(front), last, id);
      HasSnoc(EntriesOf(front), last.entry, id);
    }
  }

  lemma {:induction false} InsertKeepsDistinct<M>(rows: seq<Row<M>>, r: Row<M>)
    ensures DistinctIds(EntriesOf(Insert(rows, r)))
            <==> DistinctIds(EntriesOf(rows)) && !Has(EntriesOf(rows), r.entry.id)
  {
    if rows == [] || rows[|rows| - 1].accessedAt <= r.accessedAt {
      EntriesSnoc(rows, r);
      DistinctSnoc(EntriesOf(rows), r.entry);
    } else {
      var front, last := rows[..|rows| - 1], rows[|rows| - 1];
      InsertKeepsDistinct(front, r);
      InsertDistinct(front, r, last.entry.id);
      EntriesSnoc(Insert(front, r), last);
      DistinctSnoc(EntriesOf(Insert(front, r)), last.entry);
      DistinctSnoc(EntriesOf(front), last.entry);
      HasSnoc(EntriesOf(front), last.entry, r.entry.id);
    }
  }

  lemma {:induction false} SortedDistinct<M>(rows: seq<Row<M>>)
    ensures DistinctIds(View(rows)) <==> DistinctIds(EntriesOf(rows))
  {
    if rows == [] {
    } else {
      var front, last := rows[..|rows| - 1], rows[|rows| - 1];
      SortedDistinct(front);
      SortedHas(front, last.entry.id);
      InsertKeepsDistinct(Sorted(front), last);
      DistinctSnoc(EntriesOf(front), last.entry);
    }
  }

  // ---- Looking up ------------------------------------------------------------------------------------------

  lemma SelectSnoc<M>(rows: seq<Row<M>>, r: Row<M>, id: string)
    ensures Select(rows + [r], id) == if r.entry.id == id then Some(r) else Select(rows, id)
  {
    assert (rows + [r])[..|rows|] == rows;
  }

  lemma {:induction false} SelectInserted<M>(rows: seq<Row<M>>, r: Row<M>, id: string)
    requires !Has(EntriesOf(rows), r.entry.id)
    ensures Select(Insert(rows, r), id) == if r.entry.id == id then Some(r) else Select(rows, id)
  {
    if rows == [] || rows[|rows| - 1].accessedAt <= r.accessedAt {
      SelectSnoc(rows, r, id);
    } else {
      var front, last := rows[..|rows| - 1], rows[|rows| - 1];
      HasSnoc(EntriesOf(front), last.entry, r.entry.id);
      SelectInserted(front, r, id);
      SelectSnoc(Insert(front, r), last, id);
    }
  }

  lemma {:induction false} SelectSorted<M>(rows: seq<Row<M>>, id: string)
    requires DistinctIds(EntriesOf(rows))
    ensures Select(Sorted(rows), id) == Select(rows, id)
  {
    if rows == [] {
    } else {
      var front, last := rows[..|rows| - 1], rows[|rows| - 1];
      DistinctSnoc(EntriesOf(front), last.entry);
      SortedHas(front, last.entry.id);
      SelectSorted(front, id);
      SelectInserted(Sorted(front), last, id);
    }
  }

  /** Looking an id up by key is looking it up in the ordered map. */
  lemma ViewFind<M>(rows: seq<Row<M>>, id: string)
    requires DistinctIds(EntriesOf(rows))
    ensures Find(View(rows), id) == EntryOf(Select(rows, id))
  {
    SelectSorted(rows, id);
    EntriesFind(Sorted(rows), id);
  }

  lemma ViewDelete<M>(rows: seq<Row<M>>, id: string)
    ensures View(DeleteRow(rows, id)) == Without(View(rows), id)
  {
    SortedDelete(rows, id);
    EntriesDelete(Sorted(rows), id);
  }

  // ---- Touching ---------------------------------------------------------------------------------------------

  lemma {:induction false} TouchAbsent<M>(rows: seq<Row<M>>, id: string, now: real)
    requires !Has(EntriesOf(rows), id)
    ensures Touch(rows, id, now) == rows
  {
    if rows == [] {
    } else {
      var front, last := rows[..|rows| - 1], rows[|rows| - 1];
      HasSnoc(EntriesOf(front), last.entry, id);
      TouchAbsent(front, id, now);
    }
  }

  lemma {:induction false} DeleteAbsent<M>(rows: seq<Row<M>>, id: string)
    requires !Has(EntriesOf(rows), id)
    ensures DeleteRow(rows, id) == rows
  {
    if rows == [] {
    } else {
      var front, last := rows[..|rows| - 1], rows[|rows| - 1];
      HasSnoc(EntriesOf(front), last.entry, id);
      DeleteAbsent(front, id);
    }
  }

  /** Touching a row and deleting it to insert it anew give the same sorted table. */
  lemma {:induction false} SortedTouch<M>(rows: seq<Row<M>>, id: string, now: real)
    requires DistinctIds(EntriesOf(rows)) && AccessedBefore(rows, now) && Select(rows, id).Some?
    ensures Sorted(Touch(rows, id, now)) == Sorted(DeleteRow(rows, id)) + [Select(rows, id).value.(accessedAt := now)]
  {
    var front, last := rows[..|rows| - 1], rows[|rows| - 1];
    DistinctSnoc(EntriesOf(front), last.entry);
    if last.entry.id == id {
      TouchAbsent(front, id, now);
      DeleteAbsent(front, id);
      SortedNewest(front, last.(accessedAt := now));
    } else {
      var touched := Select(front, id).value.(accessedAt := now);
      SortedTouch(front, id, now);
      SortedSnoc(Touch(front, id, now), last);
      SortedSnoc(DeleteRow(front, id), last);
      InsertSnoc(Sorted(DeleteRow(front, id)), touched, last);
    }
  }

  lemma TouchIsReinsert<M>(rows: seq<Row<M>>, id: string, now: real)
    requires DistinctIds(EntriesOf(rows)) && AccessedBefore(rows, now) && Select(rows, id).Some?
    ensures View(Touch(rows, id, now)) == Without(View(rows), id) + [Select(rows, id).value.entry]
  {
    SortedTouch(rows, id, now);
    EntriesSnoc(Sorted(DeleteRow(rows, id)), Select(rows, id).value.(accessedAt := now));
    ViewDelete(rows, id);
  }

  // ---- Pruning ----------------------------------------------------------------------------------------------

  lemma {:induction false} WithoutFirst<M>(data: seq<Entry<M>>)
    requires DistinctIds(data) && data != []
    ensures Without(data, data[0].id) == data[1..]
  {
    var front, last := data[..|data| - 1], data[|data| - 1];
    if front == [] {
      assert data[1..] == [] && Without(front, data[0].id) == [];
    } else {
      WithoutFirst(front);
      assert data[1..] == front[1..] + [last];
    }
  }

  lemma DropOldest<M>(rows: seq<Row<M>>)
    requires DistinctIds(View(rows)) && rows != []
    ensures View(rows) != [] && View(DeleteOldest(rows)) == View(rows)[1..]
    ensures DistinctIds(View(DeleteOldest(rows))) && |View(DeleteOldest(rows))| == |DeleteOldest(rows)| == |rows| - 1
  {
    OldestIsFirst(rows);
    ViewDelete(rows, Oldest(rows).entry.id);
    EntriesAt(Sorted(rows));
    SortedAscends(rows);
    WithoutFirst(View(rows));
    EntriesAt(Sorted(DeleteOldest(rows)));
    SortedAscends(DeleteOldest(rows));
  }

  lemma ViewLength<M>(rows: seq<Row<M>>)
    ensures |View(rows)| == |rows|
  {
    EntriesAt(Sorted(rows));
    SortedAscends(rows);
  }

  lemma {:induction false} DropOldestN<M>(rows: seq<Row<M>>, n: nat)
    requires DistinctIds(View(rows)) && n <= |rows|
    ensures |View(rows)| == |rows| && View(DeleteOldestN(rows, n)) == View(rows)[n..]
    decreases n
  {
    ViewLength(rows);
    if n == 0 {
    } else {
      DropOldest(rows);
      DropOldestN(DeleteOldest(rows), n - 1);
      SuffixOfSuffix(View(rows), 1, n - 1);
    }
  }

  lemma {:induction false} PruneBytesAgrees<M>(l: Limits, rows: seq<Row<M>>)
    requires DistinctIds(View(rows))
    ensures View(PruneRowBytes(l, rows)) == PruneBytes(l, View(rows))
    decreases |rows|
  {
    ViewTotals(rows);
    if l.maxBytes > 0 && SumBytes(rows) > l.maxBytes && |rows| > 1 {
      DropOldest(rows);
      PruneBytesAgrees(l, DeleteOldest(rows));
    }
  }

  lemma {:induction false} SumInsert<M>(rows: seq<Row<M>>, r: Row<M>)
    ensures SumBytes(Insert(rows, r)) == SumBytes(rows) + r.entry.bytes
  {
    if rows == [] || rows[|rows| - 1].accessedAt <= r.accessedAt {
      SumSnoc(rows, r);
    } else {
      var front, last := rows[..|rows| - 1], rows[|rows| - 1];
      SumInsert(front, r);
      SumSnoc(Insert(front, r), last);
    }
  }

  lemma SumSnoc<M>(rows: seq<Row<M>>, r: Row<M>)
    ensures SumBytes(rows + [r]) == SumBytes(rows) + r.entry.bytes
  {
    assert (rows + [r])[..|rows|] == rows;
  }

  lemma {:induction false} SumSorted<M>(rows: seq<Row<M>>)
    ensures SumBytes(Sorted(rows)) == SumBytes(rows)
  {
    if rows == [] {
    } else {
      SumSorted(rows[..|rows| - 1]);
      SumInsert(Sorted(rows[..|rows| - 1]), rows[|rows| - 1]);
    }
  }

  lemma ViewTotals<M>(rows: seq<Row<M>>)
    ensures Total(View(rows)) == SumBytes(rows) && |View(rows)| == |rows|
  {
    SumSorted(rows);
    EntriesTotal(Sorted(rows));
    EntriesAt(Sorted(rows));
    SortedAscends(rows);
  }

  lemma SuffixDistinct<M>(data: seq<Entry<M>>, kept: seq<Entry<M>>)
    requires DistinctIds(data) && |kept| <= |data| && kept == data[|data| - |kept|..]
    ensures DistinctIds(kept)
  {
  }

  lemma PrunedCountDistinct<M>(l: Limits, data: seq<Entry<M>>)
    requires DistinctIds(data)
    ensures DistinctIds(PruneCount(l, data))
  {
    PruneCountIs(l, data);
    SuffixDistinct(data, PruneCount(l, data));
  }

  lemma PruneCountAgrees<M>(l: Limits, rows: seq<Row<M>>)
    requires DistinctIds(View(rows))
    ensures View(PruneRowCount(l, rows)) == PruneCount(l, View(rows))
  {
    ViewTotals(rows);
    PruneCountIs(l, View(rows));
    if |rows| > l.maxEntries { DropOldestN(rows, |rows| - l.maxEntries); }
  }

  // ---- Expiry ------------------------------------------------------------------------------------------

  lemma {:induction false} FilteredBy<M>(rows: seq<Row<M>>, keep: Row<M> -> bool, t: real)
    requires AccessedBy(rows, t)
    ensures AccessedBy(Sequences.Filter(rows, keep), t)
  {
    if rows == [] {
    } else {
      FilteredBy(rows[..|rows| - 1], keep, t);
    }
  }

  lemma {:induction false} FilterInserted<M>(rows: seq<Row<M>>, r: Row<M>, keep: Row<M> -> bool)
    requires Ascending(rows)
    ensures Sequences.Filter(Insert(rows, r), keep)
            == if keep(r) then Insert(Sequences.Filter(rows, keep), r) else Sequences.Filter(rows, keep)
  {
    if rows == [] || rows[|rows| - 1].accessedAt <= r.accessedAt {
      Sequences.FilterSnoc(rows, r, keep);
      FilteredBy(rows, keep, r.accessedAt);
      InsertLast(Sequences.Filter(rows, keep), r);
    } else {
      var front, last := rows[..|rows| - 1], rows[|rows| - 1];
      FilterInserted(front, r, keep);
      Sequences.FilterSnoc(Insert(front, r), last, keep);
      InsertSnoc(Sequences.Filter(front, keep), last, r);
    }
  }

  lemma {:induction false} SortedFilter<M>(rows: seq<Row<M>>, keep: Row<M> -> bool)
    ensures Sorted(Sequences.Filter(rows, keep)) == Sequences.Filter(Sorted(rows), keep)
  {
    if rows == [] {
    } else {
      var front, last := rows[..|rows| - 1], rows[|rows| - 1];
      SortedFilter(front, keep);
      SortedAscends(front);
      FilterInserted(Sorted(front), last, keep);
      SortedSnoc(Sequences.Filter(front, keep), last);
    }
  }

  lemma {:induction false} EntriesLive<M>(l: Limits, rows: seq<Row<M>>, now: real)
    requires l.ttl > 0.0
    ensures EntriesOf(Sequences.Filter(rows, StoredSince(now - l.ttl))) == Live(l, EntriesOf(rows), now)
  {
    if rows == [] {
    } else {
      var front, last := rows[..|rows| - 1], rows[|rows| - 1];
      EntriesLive(l, front, now);
      EntriesSnoc(Sequences.Filter(front, StoredSince(now - l.ttl)), last);
      LiveSnoc(l, EntriesOf(front), last.entry, now);
    }
  }

  /** Deleting the expired rows leaves the live entries of the ordered map. */
  lemma ViewLive<M>(l: Limits, rows: seq<Row<M>>, now: real)
    ensures View(DeleteExpired(l, rows, now)) == Live(l, View(rows), now)
  {
    if l.ttl > 0.0 {
      SortedFilter(rows, StoredSince(now - l.ttl));
      EntriesLive(l, Sorted(rows), now);
    } else {
      WithoutTtlAllLive(l, View(rows), now);
    }
  }

  /** The table is pruned as the live part of the ordered map. */
  lemma PruneAgrees<M>(l: Limits, rows: seq<Row<M>>, now: real)
    requires DistinctIds(View(rows))
    ensures View(PruneRows(l, rows, now)) == Prune(l, Live(l, View(rows), now))
  {
    var live := DeleteExpired(l, rows, now);
    ViewLive(l, rows, now);
    LiveDistinct(l, View(rows), now);
    PruneCountAgrees(l, live);
    PrunedCountDistinct(l, View(live));
    PruneBytesAgrees(l, PruneRowCount(l, live));
  }

  // ---- One step ----------------------------------------------------------------------------------------

  /** The two puts that the stores treat differently: one refused for its size over a live id, and one
      for which the map evicts a live entry that fits among the live ones. */
  predicate Diverges<M>(l: Limits, size: M -> nat, data: seq<Entry<M>>, op: Operation<M>, now: real) {
    op.PutOp?
    && if Oversized(l, size(op.messages)) then Has(Live(l, data, now), op.id)
       else EvictsFittingLive(l, Without(data, op.id) + [NewEntry(size, op.id, op.messages, now)], now)
  }

  function NewEntry<M>(size: M -> nat, id: string, messages: M, now: real): Entry<M> {
    Entry(id, now, messages, size(messages))
  }

  /** The same live entries in the same order of use. */
  ghost predicate SameLive<M>(l: Limits, rows: seq<Row<M>>, data: seq<Entry<M>>, now: real) {
    Live(l, View(rows), now) == Live(l, data, now)
  }

  lemma SameLiveLater<M>(l: Limits, rows: seq<Row<M>>, data: seq<Entry<M>>, now: real, later: real)
    requires SameLive(l, rows, data, now) && now <= later
    ensures SameLive(l, rows, data, later)
  {
    LiveLater(l, View(rows), now, later);
    LiveLater(l, data, now, later);
  }

  lemma GetAgrees<M>(l: Limits, rows: seq<Row<M>>, id: string, now: real)
    requires DistinctIds(View(rows)) && AccessedBefore(rows, now)
    ensures View(GetRow(l, rows, id, now).0) == Get(l, View(rows), id, now).0
    ensures GetRow(l, rows, id, now).1 == Get(l, View(rows), id, now).1
  {
    SortedDistinct(rows);
    ViewFind(rows, id);
    ViewDelete(rows, id);
    if Select(rows, id).Some? { TouchIsReinsert(rows, id, now); }
  }

  lemma {:induction false} DeletedBefore<M>(rows: seq<Row<M>>, id: string, now: real)
    requires AccessedBefore(rows, now)
    ensures AccessedBefore(DeleteRow(rows, id), now)
  {
    if rows == [] {
    } else {
      DeletedBefore(rows[..|rows| - 1], id, now);
    }
  }

  /** The live entries a stored put starts from: the others, then the new one. */
  lemma LiveWithNew<M>(l: Limits, data: seq<Entry<M>>, e: Entry<M>, now: real)
    requires e.storedAt == now
    ensures Live(l, Without(data, e.id) + [e], now) == Without(Live(l, data, now), e.id) + [e]
  {
    LiveSnoc(l, Without(data, e.id), e, now);
    LiveWithout(l, data, e.id, now);
  }

  /** A stored put prunes the live entries and the new one. */
  lemma StoredView<M>(l: Limits, size: M -> nat, rows: seq<Row<M>>, id: string, messages: M, now: real)
    requires DistinctIds(View(rows)) && AccessedBefore(rows, now) && !Oversized(l, size(messages))
    ensures View(PutRow(l, size, rows, id, messages, now).0)
            == Prune(l, Without(Live(l, View(rows), now), id) + [NewEntry(size, id, messages, now)])
  {
    var others, row := DeleteRow(rows, id), Row(now, NewEntry(size, id, messages, now));
    ViewDelete(rows, id);
    WithoutDistinct(View(rows), id);
    DeletedBefore(rows, id, now);
    SortedNewest(others, row);
    EntriesSnoc(Sorted(others), row);
    DistinctSnoc(View(others), row.entry);
    PruneAgrees(l, others + [row], now);
    LiveWithNew(l, View(rows), row.entry, now);
  }

  lemma PrunedLive<M>(l: Limits, data: seq<Entry<M>>, now: real)
    requires Clamped(l) && data != [] && forall k :: 0 <= k < |data| ==> !Expired(l, data[k].storedAt, now)
    ensures Live(l, Prune(l, data), now) == Prune(l, data)
  {
    PruneKeepsLongestSuffix(l, data);
    AllLive(l, Prune(l, data), now);
  }

  lemma StoredAgreesIff<M>(l: Limits, size: M -> nat, rows: seq<Row<M>>, data: seq<Entry<M>>, id: string, messages: M,
                           now: real)
    requires Clamped(l) && DistinctIds(View(rows)) && AccessedBefore(rows, now) && SameLive(l, rows, data, now)
    requires !Oversized(l, size(messages))
    ensures SameLive(l, PutRow(l, size, rows, id, messages, now).0, Put(l, size, data, id, messages, now).0, now)
            <==> !Diverges(l, size, data, PutOp(id, messages), now)
  {
    var e := NewEntry(size, id, messages, now);
    var all := Without(data, id) + [e];
    StoredView(l, size, rows, id, messages, now);
    LiveWithNew(l, data, e, now);
    LiveIsLive(l, all, now);
    PrunedLive(l, Live(l, all, now), now);
    EvictionAgreesIff(l, all, now);
  }

  lemma RefusedAgreesIff<M>(l: Limits, size: M -> nat, rows: seq<Row<M>>, data: seq<Entry<M>>, id: string, messages: M,
                            now: real)
    requires SameLive(l, rows, data, now) && Oversized(l, size(messages))
    ensures SameLive(l, PutRow(l, size, rows, id, messages, now).0, Put(l, size, data, id, messages, now).0, now)
            <==> !Diverges(l, size, data, PutOp(id, messages), now)
  {
    var live := Live(l, data, now);
    LiveWithout(l, data, id, now);
    WithoutHas(live, id, id);
    if !Has(live, id) { WithoutAbsent(live, id); }
  }

  /** Under any limits, TTL included: while both stores hold the same live entries they answer every
      operation alike, and hold the same live entries after it exactly when it does not diverge. */
  lemma StepAgrees<M>(l: Limits, size: M -> nat, rows: seq<Row<M>>, data: seq<Entry<M>>, op: Operation<M>, now: real)
    requires Clamped(l) && DistinctIds(View(rows)) && DistinctIds(data) && AccessedBefore(rows, now)
    requires SameLive(l, rows, data, now)
    ensures ApplyRow(l, size, rows, op, now).1 == Apply(l, size, data, op, now).1
    ensures SameLive(l, ApplyRow(l, size, rows, op, now).0, Apply(l, size, data, op, now).0, now)
            <==> !Diverges(l, size, data, op, now)
  {
    match op {
      case GetOp(id) =>
        GetAgrees(l, rows, id, now);
        LiveGet(l, View(rows), id, now);
        LiveGet(l, data, id, now);
      case DeleteOp(id) =>
        ViewDelete(rows, id);
        LiveWithout(l, View(rows), id, now);
        LiveWithout(l, data, id, now);
      case PutOp(id, messages) =>
        if Oversized(l, size(messages)) {
          RefusedAgreesIff(l, size, rows, data, id, messages, now);
        } else {
          StoredAgreesIff(l, size, rows, data, id, messages, now);
        }
    }
  }

  lemma GetDistinct<M>(l: Limits, data: seq<Entry<M>>, id: string, now: real)
    requires DistinctIds(data)
    ensures DistinctIds(Get(l, data, id, now).0)
  {
    FindMeans(data, id);
    WithoutDistinct(data, id);
    if Find(data, id).Some? { DistinctSnoc(Without(data, id), Find(data, id).value); }
  }

  /** Response ids stay a primary key. */
  lemma RowsStayDistinct<M>(l: Limits, size: M -> nat, rows: seq<Row<M>>, op: Operation<M>, now: real)
    requires Clamped(l) && DistinctIds(View(rows)) && AccessedBefore(rows, now)
    ensures DistinctIds(View(ApplyRow(l, size, rows, op, now).0))
  {
    match op {
      case GetOp(id) =>
        GetAgrees(l, rows, id, now);
        GetDistinct(l, View(rows), id, now);
      case DeleteOp(id) =>
        ViewDelete(rows, id);
        WithoutDistinct(View(rows), id);
      case PutOp(id, messages) =>
        if !Oversized(l, size(messages)) {
          StoredView(l, size, rows, id, messages, now);
          LiveDistinct(l, View(rows), now);
          StoredDistinct(l, Live(l, View(rows), now), NewEntry(size, id, messages, now));
        }
    }
  }

  lemma StoredDistinct<M>(l: Limits, data: seq<Entry<M>>, e: Entry<M>)
    requires Clamped(l) && DistinctIds(data)
    ensures DistinctIds(Prune(l, Without(data, e.id) + [e]))
  {
    var all := Without(data, e.id) + [e];
    WithoutDistinct(data, e.id);
    DistinctSnoc(Without(data, e.id), e);
    PruneKeepsLongestSuffix(l, all);
    SuffixDistinct(all, Prune(l, all));
  }

  // ---- What a divergence shows -----------------------------------------------------------------------------

  lemma {:induction false} FindAt<M>(data: seq<Entry<M>>, k: nat)
    requires DistinctIds(data) && k < |data|
    ensures Find(data, data[k].id) == Some(data[k])
  {
    if k == |data| - 1 {
    } else {
      assert data[|data| - 1].id != data[k].id;
      FindAt(data[..|data| - 1], k);
    }
  }

  lemma RefusedShows<M>(l: Limits, size: M -> nat, rows: seq<Row<M>>, data: seq<Entry<M>>, op: Operation<M>,
                        now: real) returns (e: Entry<M>)
    requires DistinctIds(View(rows)) && SameLive(l, rows, data, now)
    requires Diverges(l, size, data, op, now) && Oversized(l, size(op.messages))
    ensures !Expired(l, e.storedAt, now)
    ensures Find(Apply(l, size, data, op, now).0, e.id) == None
    ensures Find(View(ApplyRow(l, size, rows, op, now).0), e.id) == Some(e)
  {
    FindMeans(Live(l, data, now), op.id);
    e := Find(Live(l, data, now), op.id).value;
    LiveFind(l, View(rows), op.id, now);
    WithoutHas(data, op.id, op.id);
    FindMeans(Without(data, op.id), op.id);
  }

  lemma EvictionShows<M>(l: Limits, size: M -> nat, rows: seq<Row<M>>, data: seq<Entry<M>>, op: Operation<M>,
                         now: real) returns (e: Entry<M>)
    requires Clamped(l) && DistinctIds(View(rows)) && DistinctIds(data) && AccessedBefore(rows, now)
             && SameLive(l, rows, data, now)
    requires Diverges(l, size, data, op, now) && !Oversized(l, size(op.messages))
    ensures !Expired(l, e.storedAt, now)
    ensures Find(Apply(l, size, data, op, now).0, e.id) == None
    ensures Find(View(ApplyRow(l, size, rows, op, now).0), e.id) == Some(e)
  {
    var added := NewEntry(size, op.id, op.messages, now);
    var all := Without(data, op.id) + [added];
    var pruned := Prune(l, all);
    var k :| 0 <= k < |all| - 1 && CrowdedOut(l, all, now, k);
    e := all[k];
    EvictedIff(l, all, k);
    PruneKeepsLongestSuffix(l, all);
    WithoutDistinct(data, op.id);
    DistinctSnoc(Without(data, op.id), added);
    NotInSuffix(all, |all| - |pruned|, k);
    FindMeans(pruned, e.id);
    StoredView(l, size, rows, op.id, op.messages, now);
    LiveWithNew(l, data, added, now);
    KeptByLive(l, all, now, k);
  }

  lemma NotInSuffix<M>(data: seq<Entry<M>>, n: nat, k: nat)
    requires DistinctIds(data) && k < n <= |data|
    ensures !Has(data[n..], data[k].id)
  {
    forall j | 0 <= j < |data[n..]| ensures data[n..][j].id != data[k].id {
      assert data[n..][j] == data[n + j];
    }
  }

  /** The entry crowded out is kept when only live entries are pruned. */
  lemma KeptByLive<M>(l: Limits, all: seq<Entry<M>>, now: real, k: nat)
    requires Clamped(l) && DistinctIds(all) && k < |all| && CrowdedOut(l, all, now, k)
    ensures Find(Prune(l, Live(l, all, now)), all[k].id) == Some(all[k])
  {
    var live, part := Live(l, all, now), Live(l, all[k..], now);
    var kept := Prune(l, live);
    CrowdedOutKept(l, all, now, k);
    LiveFrom(l, all, now, k);
    LiveSuffix(l, all, now, k);
    PruneKeepsLongestSuffix(l, live);
    assert kept[|kept| - |part|] == live[|live| - |part|] == part[0] == all[k];
    LiveDistinct(l, all, now);
    SuffixDistinct(live, kept);
    FindAt(kept, |kept| - |part|);
  }

  /** After a divergence there is a transcript that the map has lost and the table still serves, for as
      long as it does not expire. */
  lemma DivergenceShows<M>(l: Limits, size: M -> nat, rows: seq<Row<M>>, data: seq<Entry<M>>, op: Operation<M>,
                           now: real) returns (e: Entry<M>)
    requires Clamped(l) && DistinctIds(View(rows)) && DistinctIds(data) && AccessedBefore(rows, now)
             && SameLive(l, rows, data, now)
    requires Diverges(l, size, data, op, now)
    ensures !Expired(l, e.storedAt, now)
    ensures forall later: real :: !Expired(l, e.storedAt, later) ==>
              && Apply(l, size, Apply(l, size, data, op, now).0, GetOp(e.id), later).1 == Got(None)
              && ApplyRow(l, size, ApplyRow(l, size, rows, op, now).0, GetOp(e.id), later).1 == Got(Some(e.messages))
  {
    if Oversized(l, size(op.messages)) {
      e := RefusedShows(l, size, rows, data, op, now);
    } else {
      e := EvictionShows(l, size, rows, data, op, now);
    }
    var after := ApplyRow(l, size, rows, op, now).0;
    RowsStayDistinct(l, size, rows, op, now);
    SortedDistinct(after);
    ViewFind(after, e.id);
  }

  // ---- Every trace -------------------------------------------------------------------------------------------

  function RowRuns<M>(l: Limits, size: M -> nat, ops: seq<(Operation<M>, real)>): seq<Row<M>> {
    if ops == [] then []
    else
      var (op, now) := ops[|ops| - 1];
      ApplyRow(l, size, RowRuns(l, size, ops[..|ops| - 1]), op, now).0
  }

  /** The answer to the last operation. */
  function LastAnswer<M>(l: Limits, size: M -> nat, ops: seq<(Operation<M>, real)>): Answer<M>
    requires ops != []
  {
    var (op, now) := ops[|ops| - 1];
    Apply(l, size, Runs(l, size, ops[..|ops| - 1]), op, now).1
  }

  function LastRowAnswer<M>(l: Limits, size: M -> nat, ops: seq<(Operation<M>, real)>): Answer<M>
    requires ops != []
  {
    var (op, now) := ops[|ops| - 1];
    ApplyRow(l, size, RowRuns(l, size, ops[..|ops| - 1]), op, now).1
  }

  predicate Increasing<M>(ops: seq<(Operation<M>, real)>) {
    forall i, j :: 0 <= i < j < |ops| ==> ops[i].1 < ops[j].1
  }

  /** No operation of the trace diverges. */
  predicate NoDivergence<M>(l: Limits, size: M -> nat, ops: seq<(Operation<M>, real)>) {
    ops == [] || (NoDivergence(l, size, ops[..|ops| - 1])
                  && !Diverges(l, size, Runs(l, size, ops[..|ops| - 1]), ops[|ops| - 1].0, ops[|ops| - 1].1))
  }

  lemma {:induction false} TouchedBefore<M>(rows: seq<Row<M>>, id: string, now: real, later: real)
    requires AccessedBefore(rows, now) && now < later
    ensures AccessedBefore(Touch(rows, id, now), later)
  {
    if rows == [] {
    } else {
      TouchedBefore(rows[..|rows| - 1], id, now, later);
    }
  }

  lemma {:induction false} DeletedOldestBefore<M>(rows: seq<Row<M>>, n: nat, now: real)
    requires AccessedBefore(rows, now)
    ensures AccessedBefore(DeleteOldestN(rows, n), now)
    decreases n
  {
    if n == 0 || rows == [] {
    } else {
      DeletedBefore(rows, Oldest(rows).entry.id, now);
      DeletedOldestBefore(DeleteOldest(rows), n - 1, now);
    }
  }

  lemma {:induction false} PrunedBytesBefore<M>(l: Limits, rows: seq<Row<M>>, now: real)
    requires AccessedBefore(rows, now)
    ensures AccessedBefore(PruneRowBytes(l, rows), now)
    decreases |rows|
  {
    if l.maxBytes > 0 && SumBytes(rows) > l.maxBytes && |rows| > 1 {
      DeletedBefore(rows, Oldest(rows).entry.id, now);
      PrunedBytesBefore(l, DeleteOldest(rows), now);
    }
  }

  lemma {:induction false} FilteredBefore<M>(rows: seq<Row<M>>, keep: Row<M> -> bool, now: real)
    requires AccessedBefore(rows, now)
    ensures AccessedBefore(Sequences.Filter(rows, keep), now)
  {
    if rows == [] {
    } else {
      FilteredBefore(rows[..|rows| - 1], keep, now);
    }
  }

  lemma PrunedBefore<M>(l: Limits, rows: seq<Row<M>>, now: real, later: real)
    requires AccessedBefore(rows, later)
    ensures AccessedBefore(PruneRows(l, rows, now), later)
  {
    FilteredBefore(rows, StoredSince(now - l.ttl), later);
    var live := DeleteExpired(l, rows, now);
    if |live| > l.maxEntries { DeletedOldestBefore(live, |live| - l.maxEntries, later); }
    PrunedBytesBefore(l, PruneRowCount(l, live), later);
  }

  /** No access time lies in the future. */
  lemma AppliedBefore<M>(l: Limits, size: M -> nat, rows: seq<Row<M>>, op: Operation<M>, now: real, later: real)
    requires AccessedBefore(rows, now) && now < later
    ensures AccessedBefore(ApplyRow(l, size, rows, op, now).0, later)
  {
    match op {
      case GetOp(id) =>
        TouchedBefore(rows, id, now, later);
        DeletedBefore(rows, id, now);
      case DeleteOp(id) => DeletedBefore(rows, id, now);
      case PutOp(id, messages) =>
        DeletedBefore(rows, id, now);
        PrunedBefore(l, DeleteRow(rows, id) + [Row(now, NewEntry(size, id, messages, now))], now, later);
    }
  }

  lemma IncreasingFront<M>(ops: seq<(Operation<M>, real)>)
    requires Increasing(ops) && ops != []
    ensures var front := ops[..|ops| - 1];
            Increasing(front) && (front != [] ==> front[|front| - 1].1 < ops[|ops| - 1].1)
  {
  }

  lemma {:induction false} RowsSound<M>(l: Limits, size: M -> nat, ops: seq<(Operation<M>, real)>, later: real)
    requires Clamped(l) && Increasing(ops) && (ops != [] ==> ops[|ops| - 1].1 < later)
    ensures AccessedBefore(RowRuns(l, size, ops), later) && DistinctIds(View(RowRuns(l, size, ops)))
  {
    if ops == [] {
    } else {
      var front := ops[..|ops| - 1];
      var (op, now) := ops[|ops| - 1];
      IncreasingFront(ops);
      RowsSound(l, size, front, now);
      AppliedBefore(l, size, RowRuns(l, size, front), op, now, later);
      RowsStayDistinct(l, size, RowRuns(l, size, front), op, now);
    }
  }

  /** On every trace without divergence the sorted table and the ordered map hold the same live entries
      in the same order, at every time from the last operation on. */
  lemma {:induction false} TableIsOrderedMap<M>(l: Limits, size: M -> nat, ops: seq<(Operation<M>, real)>, later: real)
    requires Clamped(l) && Increasing(ops) && NoDivergence(l, size, ops) && (ops != [] ==> ops[|ops| - 1].1 <= later)
    ensures SameLive(l, RowRuns(l, size, ops), Runs(l, size, ops), later)
  {
    if ops == [] {
    } else {
      var front := ops[..|ops| - 1];
      var (op, now) := ops[|ops| - 1];
      IncreasingFront(ops);
      TableIsOrderedMap(l, size, front, now);
      RowsSound(l, size, front, now);
      ReachableWithinLimits(l, size, front);
      StepAgrees(l, size, RowRuns(l, size, front), Runs(l, size, front), op, now);
      SameLiveLater(l, RowRuns(l, size, ops), Runs(l, size, ops), now, later);
    }
  }

  /** The bisimulation: under any limits and an increasing clock every operation is answered alike,
      whatever it is itself, unless one before it diverged. */
  lemma StoresAnswerAlike<M>(l: Limits, size: M -> nat, ops: seq<(Operation<M>, real)>)
    requires Clamped(l) && Increasing(ops) && ops != [] && NoDivergence(l, size, ops[..|ops| - 1])
    ensures LastRowAnswer(l, size, ops) == LastAnswer(l, size, ops)
  {
    var front := ops[..|ops| - 1];
    var (op, now) := ops[|ops| - 1];
    IncreasingFront(ops);
    TableIsOrderedMap(l, size, front, now);
    RowsSound(l, size, front, now);
    ReachableWithinLimits(l, size, front);
    StepAgrees(l, size, RowRuns(l, size, front), Runs(l, size, front), op, now);
  }

  /** The condition is exact: from the first divergence on the stores hold different live entries, and
      as long as the transcript concerned is not too old a fetch shows it. */
  lemma FirstDivergenceShows<M>(l: Limits, size: M -> nat, ops: seq<(Operation<M>, real)>) returns (e: Entry<M>)
    requires Clamped(l) && Increasing(ops) && ops != []
    requires NoDivergence(l, size, ops[..|ops| - 1]) && !NoDivergence(l, size, ops)
    ensures !SameLive(l, RowRuns(l, size, ops), Runs(l, size, ops), ops[|ops| - 1].1)
    ensures !Expired(l, e.storedAt, ops[|ops| - 1].1)
    ensures forall later: real :: !Expired(l, e.storedAt, later) ==>
              LastAnswer(l, size, ops + [(GetOp(e.id), later)]) != LastRowAnswer(l, size, ops + [(GetOp(e.id), later)])
  {
    var front := ops[..|ops| - 1];
    var (op, now) := ops[|ops| - 1];
    IncreasingFront(ops);
    TableIsOrderedMap(l, size, front, now);
    RowsSound(l, size, front, now);
    ReachableWithinLimits(l, size, front);
    StepAgrees(l, size, RowRuns(l, size, front), Runs(l, size, front), op, now);
    e := DivergenceShows(l, size, RowRuns(l, size, front), Runs(l, size, front), op, now);
    forall later: real | !Expired(l, e.storedAt, later)
      ensures LastAnswer(l, size, ops + [(GetOp(e.id), later)])
              != LastRowAnswer(l, size, ops + [(GetOp(e.id), later)]) {
      assert (ops + [(GetOp(e.id), later)])[..|ops|] == ops;
    }
  }

  /** Without a TTL only refused puts over stored ids diverge, and the table is the whole map. */
  lemma WithoutTtl<M>(l: Limits, size: M -> nat, ops: seq<(Operation<M>, real)>, op: Operation<M>, now: real)
    requires Clamped(l) && l.ttl <= 0.0
    ensures Diverges(l, size, Runs(l, size, ops), op, now)
            <==> op.PutOp? && Oversized(l, size(op.messages)) && Has(Runs(l, size, ops), op.id)
    ensures Increasing(ops) && NoDivergence(l, size, ops) ==> View(RowRuns(l, size, ops)) == Runs(l, size, ops)
  {
    var data := Runs(l, size, ops);
    WithoutTtlAllLive(l, data, now);
    if op.PutOp? {
      WithoutTtlAllLive(l, Without(data, op.id) + [NewEntry(size, op.id, op.messages, now)], now);
    }
    if Increasing(ops) && NoDivergence(l, size, ops) {
      var later := if ops == [] then 0.0 else ops[|ops| - 1].1;
      TableIsOrderedMap(l, size, ops, later);
      WithoutTtlAllLive(l, data, later);
      WithoutTtlAllLive(l, View(RowRuns(l, size, ops)), later);
    }
  }

  // ---- A divergence under a TTL -----------------------------------------------------------------------------

  const TTL_LIMITS := Limits(10.0, 2, 0, 0)

  function One(m: string): nat {
    1
  }

  const ENTRY_A := Entry("a", 0.0, "A", 1)
  const ENTRY_B := Entry("b", 5.0, "B", 1)

  /** Two puts and a fetch of the first: `a` was stored first but fetched last. */
  const ONE_PUT: seq<(Operation<string>, real)> := [] + [(PutOp("a", "A"), 0.0)]
  const TWO_PUTS := ONE_PUT + [(PutOp("b", "B"), 5.0)]
  const PUTS_AND_FETCH := TWO_PUTS + [(GetOp("a"), 9.0)]

  lemma MapSnoc<M>(l: Limits, size: M -> nat, ops: seq<(Operation<M>, real)>, op: Operation<M>, now: real)
    ensures Runs(l, size, ops + [(op, now)]) == Apply(l, size, Runs(l, size, ops), op, now).0
  {
    assert (ops + [(op, now)])[..|ops|] == ops;
  }

  lemma TableSnoc<M>(l: Limits, size: M -> nat, ops: seq<(Operation<M>, real)>, op: Operation<M>, now: real)
    ensures RowRuns(l, size, ops + [(op, now)]) == ApplyRow(l, size, RowRuns(l, size, ops), op, now).0
  {
    assert (ops + [(op, now)])[..|ops|] == ops;
  }

  /** A put of a new id into a store with room. */
  lemma {:induction false} MapPut(data: seq<Entry<string>>, id: string, messages: string, now: real)
    requires !Has(data, id) && |data| < 2
    ensures Put(TTL_LIMITS, One, data, id, messages, now).0 == data + [Entry(id, now, messages, 1)]
  {
    WithoutAbsent(data, id);
  }

  lemma MapAfterOnePut()
    ensures Runs(TTL_LIMITS, One, ONE_PUT) == [ENTRY_A]
  {
    MapSnoc(TTL_LIMITS, One, [], PutOp("a", "A"), 0.0);
    MapPut([], "a", "A", 0.0);
    assert [] + [ENTRY_A] == [ENTRY_A];
  }

  lemma MapAfterTwoPuts()
    ensures Runs(TTL_LIMITS, One, TWO_PUTS) == [ENTRY_A, ENTRY_B]
  {
    MapAfterOnePut();
    MapSnoc(TTL_LIMITS, One, ONE_PUT, PutOp("b", "B"), 5.0);
    assert !Has([ENTRY_A], "b");
    MapPut([ENTRY_A], "b", "B", 5.0);
    assert [ENTRY_A] + [ENTRY_B] == [ENTRY_A, ENTRY_B];
  }

  lemma MapFetch()
    ensures Get(TTL_LIMITS, [ENTRY_A, ENTRY_B], "a", 9.0).0 == [ENTRY_B, ENTRY_A]
  {
    assert [ENTRY_A, ENTRY_B] == [ENTRY_A] + [ENTRY_B] && [ENTRY_A] == [] + [ENTRY_A];
    FindLast([ENTRY_A], ENTRY_B, "a");
    FindLast([], ENTRY_A, "a");
    WithoutSnoc([ENTRY_A], ENTRY_B, "a");
    WithoutSnoc([], ENTRY_A, "a");
    assert [] + [ENTRY_B] == [ENTRY_B] && [ENTRY_B] + [ENTRY_A] == [ENTRY_B, ENTRY_A];
  }

  lemma MapAfterFetch()
    ensures Runs(TTL_LIMITS, One, PUTS_AND_FETCH) == [ENTRY_B, ENTRY_A]
  {
    MapAfterTwoPuts();
    MapSnoc(TTL_LIMITS, One, TWO_PUTS, GetOp("a"), 9.0);
    MapFetch();
  }

  /** A put of a new id into a table with room and nothing expired. */
  lemma {:induction false} TablePut(rows: seq<Row<string>>, id: string, messages: string, now: real)
    requires |rows| < 2
    requires forall k :: 0 <= k < |rows| ==> rows[k].entry.id != id && rows[k].entry.storedAt >= now - 10.0
    ensures PutRow(TTL_LIMITS, One, rows, id, messages, now).0 == rows + [Row(now, Entry(id, now, messages, 1))]
  {
    EntriesAt(rows);
    DeleteAbsent(rows, id);
    AllKept(rows + [Row(now, Entry(id, now, messages, 1))], StoredSince(now - 10.0));
  }

  lemma {:induction false} AllKept(rows: seq<Row<string>>, keep: Row<string> -> bool)
    requires forall k :: 0 <= k < |rows| ==> keep(rows[k])
    ensures Sequences.Filter(rows, keep) == rows
  {
    if rows == [] {
    } else {
      AllKept(rows[..|rows| - 1], keep);
      assert rows == rows[..|rows| - 1] + [rows[|rows| - 1]];
    }
  }

  lemma {:induction false} TablePutSnoc(ops: seq<(Operation<string>, real)>, rows: seq<Row<string>>, id: string,
                                        messages: string, now: real)
    requires RowRuns(TTL_LIMITS, One, ops) == rows && |rows| < 2
    requires forall k :: 0 <= k < |rows| ==> rows[k].entry.id != id && rows[k].entry.storedAt >= now - 10.0
    ensures RowRuns(TTL_LIMITS, One, ops + [(PutOp(id, messages), now)])
            == rows + [Row(now, Entry(id, now, messages, 1))]
  {
    TableSnoc(TTL_LIMITS, One, ops, PutOp(id, messages), now);
    TablePut(rows, id, messages, now);
  }

  lemma TableAfterOnePut()
    ensures RowRuns(TTL_LIMITS, One, ONE_PUT) == [Row(0.0, ENTRY_A)]
  {
    TablePutSnoc([], [], "a", "A", 0.0);
    assert [] + [Row(0.0, ENTRY_A)] == [Row(0.0, ENTRY_A)];
  }

  lemma TableAfterTwoPuts()
    ensures RowRuns(TTL_LIMITS, One, TWO_PUTS) == [Row(0.0, ENTRY_A), Row(5.0, ENTRY_B)]
  {
    TableAfterOnePut();
    TablePutSnoc(ONE_PUT, [Row(0.0, ENTRY_A)], "b", "B", 5.0);
    assert [Row(0.0, ENTRY_A)] + [Row(5.0, ENTRY_B)] == [Row(0.0, ENTRY_A), Row(5.0, ENTRY_B)];
  }

  lemma TableFetch()
    ensures GetRow(TTL_LIMITS, [Row(0.0, ENTRY_A), Row(5.0, ENTRY_B)], "a", 9.0).0
            == [Row(9.0, ENTRY_A), Row(5.0, ENTRY_B)]
  {
    var rows := [Row(0.0, ENTRY_A), Row(5.0, ENTRY_B)];
    assert rows == [rows[0]] + [rows[1]] && [rows[0]] == [] + [rows[0]];
    SelectSnoc([rows[0]], rows[1], "a");
    SelectSnoc([], rows[0], "a");
    assert rows[..1] == [rows[0]] && [rows[0]][..0] == [];
    assert Touch([rows[0]], "a", 9.0) == [] + [Row(9.0, ENTRY_A)];
  }

  lemma TableAfterFetch()
    ensures RowRuns(TTL_LIMITS, One, PUTS_AND_FETCH) == [Row(9.0, ENTRY_A), Row(5.0, ENTRY_B)]
  {
    TableAfterTwoPuts();
    TableSnoc(TTL_LIMITS, One, TWO_PUTS, GetOp("a"), 9.0);
    TableFetch();
  }

  lemma MapEvictsTheLiveEntry()
    ensures Get(TTL_LIMITS, Put(TTL_LIMITS, One, [ENTRY_B, ENTRY_A], "c", "C", 11.0).0, "b", 12.0).1 == None
  {
    var a, b := ENTRY_A, ENTRY_B;
    var c := Entry("c", 11.0, "C", 1);
    assert !Has([b, a], "c");
    WithoutAbsent([b, a], "c");
    PruneCountIs(TTL_LIMITS, [b, a] + [c]);
    assert ([b, a] + [c])[1..] == [a, c];
    assert Put(TTL_LIMITS, One, [b, a], "c", "C", 11.0).0 == [a, c];
    assert !Has([a, c], "b");
    FindMeans([a, c], "b");
  }

  const TOUCHED_A := [Row(9.0, ENTRY_A), Row(5.0, ENTRY_B)]
  const ROW_C := Row(11.0, Entry("c", 11.0, "C", 1))

  lemma LiveRows()
    ensures DeleteExpired(TTL_LIMITS, TOUCHED_A + [ROW_C], 11.0) == [TOUCHED_A[1], ROW_C]
  {
    var rows, live := TOUCHED_A, StoredSince<string>(1.0);
    Sequences.FilterSnoc(rows, ROW_C, live);
    Sequences.FilterSnoc([rows[0]], rows[1], live);
    Sequences.FilterSnoc([], rows[0], live);
    assert [] + [rows[0]] == [rows[0]] && [rows[0]] + [rows[1]] == rows;
  }

  lemma TableAfterThirdPut()
    ensures PutRow(TTL_LIMITS, One, TOUCHED_A, "c", "C", 11.0).0 == [TOUCHED_A[1], ROW_C]
  {
    EntriesAt(TOUCHED_A);
    assert !Has(EntriesOf(TOUCHED_A), "c");
    DeleteAbsent(TOUCHED_A, "c");
    LiveRows();
  }

  lemma TableEvictsTheExpiredEntry()
    ensures GetRow(TTL_LIMITS, PutRow(TTL_LIMITS, One, TOUCHED_A, "c", "C", 11.0).0, "b", 12.0).1 == Some("B")
  {
    TableAfterThirdPut();
    SelectSnoc([TOUCHED_A[1]], ROW_C, "b");
    assert [TOUCHED_A[1]] + [ROW_C] == [TOUCHED_A[1], ROW_C];
  }

  /** The trace that tells the stores apart under a TTL of 10 and room for two: a third put makes the
      map evict the live `b` and the table the expired `a`, and a fetch of `b` shows it. */
  lemma ExpiryTellsStoresApart()
    ensures var ops := PUTS_AND_FETCH + [(PutOp("c", "C"), 11.0)] + [(GetOp("b"), 12.0)];
            LastAnswer(TTL_LIMITS, One, ops) == Got(None) && LastRowAnswer(TTL_LIMITS, One, ops) == Got(Some("B"))
  {
    var four := PUTS_AND_FETCH + [(PutOp("c", "C"), 11.0)];
    MapAfterFetch();
    TableAfterFetch();
    MapSnoc(TTL_LIMITS, One, PUTS_AND_FETCH, PutOp("c", "C"), 11.0);
    TableSnoc(TTL_LIMITS, One, PUTS_AND_FETCH, PutOp("c", "C"), 11.0);
    MapEvictsTheLiveEntry();
    TableEvictsTheExpiredEntry();
    assert (four + [(GetOp("b"), 12.0)])[..|four|] == four;
  }
}
