/** The SQLite-backed store of the same interface. The table is an unordered list of rows; order of
    use is only in their access times. */
module SqliteStore {
  import opened Wrappers
  import opened Sequences
  import opened ConversationStore

  datatype Row<M> = Row(accessedAt: real, entry: Entry<M>)

  predicate HasRow<M>(rows: seq<Row<M>>, id: string) {
    exists k :: 0 <= k < |rows| && rows[k].entry.id == id
  }

  function Select<M>(rows: seq<Row<M>>, id: string): Option<Row<M>> {
    if rows == [] then None
    else if rows[|rows| - 1].entry.id == id then Some(rows[|rows| - 1])
    else Select(rows[..|rows| - 1], id)
  }

  /** `DELETE ... WHERE resp_id = ?`. */
  function DeleteRow<M>(rows: seq<Row<M>>, id: string): seq<Row<M>> {
    if rows == [] then []
    else
      var front, last := DeleteRow(rows[..|rows| - 1], id), rows[|rows| - 1];
      if last.entry.id == id then front else front + [last]
  }

  /** `UPDATE ... SET accessed_at = ? WHERE resp_id = ?`. */
  function Touch<M>(rows: seq<Row<M>>, id: string, now: real): seq<Row<M>> {
    if rows == [] then []
    else
      var front, last := Touch(rows[..|rows| - 1], id, now), rows[|rows| - 1];
      front + [if last.entry.id == id then last.(accessedAt := now) else last]
  }

  function StoredSince<M>(cutoff: real): Row<M> -> bool {
    (r: Row<M>) => r.entry.storedAt >= cutoff
  }

  /** `DELETE ... WHERE stored_at < ?`, unless the TTL is off. */
  function DeleteExpired<M>(l: Limits, rows: seq<Row<M>>, now: real): seq<Row<M>> {
    if l.ttl > 0.0 then Filter(rows, StoredSince(now - l.ttl)) else rows
  }

  function SumBytes<M>(rows: seq<Row<M>>): nat {
    if rows == [] then 0 else SumBytes(rows[..|rows| - 1]) + rows[|rows| - 1].entry.bytes
  }

  /** `ORDER BY accessed_at ASC LIMIT 1`. */
  function Oldest<M>(rows: seq<Row<M>>): Row<M>
    requires rows != []
  {
    var last := rows[|rows| - 1];
    if |rows| == 1 then last
    else
      var before := Oldest(rows[..|rows| - 1]);
      if last.accessedAt < before.accessedAt then last else before
  }

  lemma {:induction false} DeleteShrinks<M>(rows: seq<Row<M>>, id: string)
    ensures |DeleteRow(rows, id)| <= |rows|
    ensures HasRow(rows, id) ==> |DeleteRow(rows, id)| < |rows|
  {
    if rows == [] {
    } else {
      var front, last := rows[..|rows| - 1], rows[|rows| - 1];
      DeleteShrinks(front, id);
      if HasRow(rows, id) && last.entry.id != id {
        var k :| 0 <= k < |rows| && rows[k].entry.id == id;
        assert front[k].entry.id == id;
      }
    }
  }

  lemma {:induction false} OldestIn<M>(rows: seq<Row<M>>)
    requires rows != []
    ensures Oldest(rows) in rows && HasRow(rows, Oldest(rows).entry.id)
  {
    var front, last := rows[..|rows| - 1], rows[|rows| - 1];
    assert rows == front + [last];
    assert rows[|rows| - 1].entry.id == last.entry.id;
    if |rows| == 1 {
    } else {
      OldestIn(front);
      var k :| 0 <= k < |front| && front[k] == Oldest(front);
      assert rows[k].entry.id == Oldest(front).entry.id;
    }
  }

  function DeleteOldest<M>(rows: seq<Row<M>>): (left: seq<Row<M>>)
    requires rows != []
    ensures |left| < |rows|
  {
    OldestIn(rows);
    DeleteShrinks(rows, Oldest(rows).entry.id);
    DeleteRow(rows, Oldest(rows).entry.id)
  }

  /** The `n` least recently accessed rows go. */
  function DeleteOldestN<M>(rows: seq<Row<M>>, n: nat): seq<Row<M>>
    decreases n
  {
    if n == 0 || rows == [] then rows else DeleteOldestN(DeleteOldest(rows), n - 1)
  }

  function PruneRowCount<M>(l: Limits, rows: seq<Row<M>>): seq<Row<M>> {
    if |rows| > l.maxEntries then DeleteOldestN(rows, |rows| - l.maxEntries) else rows
  }

  function PruneRowBytes<M>(l: Limits, rows: seq<Row<M>>): seq<Row<M>>
    decreases |rows|
  {
    if l.maxBytes > 0 && SumBytes(rows) > l.maxBytes && |rows| > 1 then PruneRowBytes(l, DeleteOldest(rows)) else rows
  }

  /** `_prune_locked`. */
  function PruneRows<M>(l: Limits, rows: seq<Row<M>>, now: real): seq<Row<M>> {
    PruneRowBytes(l, PruneRowCount(l, DeleteExpired(l, rows, now)))
  }

  function GetRow<M>(l: Limits, rows: seq<Row<M>>, id: string, now: real): (seq<Row<M>>, Option<M>) {
    match Select(rows, id)
    case None => (rows, None)
    case Some(r) =>
      if Expired(l, r.entry.storedAt, now) then (DeleteRow(rows, id), None)
      else (Touch(rows, id, now), Some(r.entry.messages))
  }

  /** A refused transcript leaves the table alone, even a row under the same id. */
  function PutRow<M>(l: Limits, size: M -> nat, rows: seq<Row<M>>, id: string, messages: M, now: real): (seq<Row<M>>,
                     bool) {
    if Oversized(l, size(messages)) then (rows, false)
    else
      var row := Row(now, Entry(id, now, messages, size(messages)));
      (PruneRows(l, DeleteRow(rows, id) + [row], now), true)
  }

  function ApplyRow<M>(l: Limits, size: M -> nat, rows: seq<Row<M>>, op: Operation<M>, now: real): (seq<Row<M>>,
                       Answer<M>) {
    match op
    case GetOp(id) => var (after, found) := GetRow(l, rows, id, now); (after, Got(found))
    case PutOp(id, messages) =>
      var (after, stored) := PutRow(l, size, rows, id, messages, now);
      (after, PutSaid(stored))
    case DeleteOp(id) => (DeleteRow(rows, id), Deleted)
  }

  /** The store: one table, and each method one transaction on it. */
  class SqlStore<M> {
    const limits: Limits
    const size: M -> nat
    var rows: seq<Row<M>>

    constructor (ttl: real, maxEntries: int, maxBytes: int, maxEntryBytes: int, size: M -> nat, found: seq<Row<M>>)
      ensures rows == found && this.size == size && Clamped(limits)
      ensures limits.ttl == ttl && limits.maxEntries == (if maxEntries > 1 then maxEntries else 1)
      ensures limits.maxBytes == (if maxBytes > 0 then maxBytes else 0)
      ensures limits.maxEntryBytes == (if maxEntryBytes > 0 then maxEntryBytes else 0)
    {
      limits := Limits(ttl, if maxEntries > 1 then maxEntries else 1, if maxBytes > 0 then maxBytes else 0,
                       if maxEntryBytes > 0 then maxEntryBytes else 0);
      this.size := size;
      rows := found;
    }

    method PruneLocked(now: real)
      requires Clamped(limits)
      modifies this
      ensures rows == PruneRows(limits, old(rows), now)
    {
      rows := DeleteExpired(limits, rows, now);
      var overflow := |rows| - limits.maxEntries;
      if overflow > 0 { rows := DeleteOldestN(rows, overflow); }
      if limits.maxBytes <= 0 { return; }
      while true
        invariant PruneRowBytes(limits, rows) == PruneRows(limits, old(rows), now)
        decreases |rows|
      {
        var total, count := SumBytes(rows), |rows|;
        if total <= limits.maxBytes || count <= 1 { return; }
        rows := DeleteRow(rows, Oldest(rows).entry.id);
      }
    }

    method GetTranscript(id: string, now: real) returns (messages: Option<M>)
      modifies this
      ensures (rows, messages) == GetRow(limits, old(rows), id, now)
    {
      var row := Select(rows, id);
      if row.None? { return None; }
      if Expired(limits, row.value.entry.storedAt, now) {
        rows := DeleteRow(rows, id);
        return None;
      }
      rows := Touch(rows, id, now);
      messages := Some(row.value.entry.messages);
    }

    method PutTranscript(id: string, messages: M, now: real) returns (stored: bool)
      requires Clamped(limits)
      modifies this
      ensures (rows, stored) == PutRow(limits, size, old(rows), id, messages, now)
    {
      var bytes := size(messages);
      if limits.maxEntryBytes > 0 && bytes > limits.maxEntryBytes { return false; }
      rows := DeleteRow(rows, id) + [Row(now, Entry(id, now, messages, bytes))];
      PruneLocked(now);
      stored := true;
    }

    method DeleteTranscript(id: string)
      modifies this
      ensures rows == DeleteRow(old(rows), id)
    {
      rows := DeleteRow(rows, id);
    }
  }
}
