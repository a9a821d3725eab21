/** The buffer of streamed tool calls: a list in order of arrival and, per upstream index, the
    position of the call its fragments currently extend. */
module ToolBuffer {
  import opened Sequences
  import opened ChatChunks
  import opened ArgumentAssembly
  import opened ToolSegments

  datatype Call = Call(id: CallId, upstreamId: string, name: string, parts: seq<string>)

  datatype Buffer = Buffer(pending: seq<Call>, current: map<int, nat>, minted: nat)

  /** Every entry of the index table is a call of the list. */
  predicate Valid(b: Buffer) {
    forall index :: index in b.current ==> b.current[index] < |b.pending|
  }

  predicate IsNewCall(b: Buffer, f: Fragment)
    requires Valid(b)
  {
    && f.index in b.current
    && b.pending[b.current[f.index]].upstreamId != ""
    && f.id != "" && f.id != b.pending[b.current[f.index]].upstreamId
  }

  function NewCall(f: Fragment, serial: nat): Call {
    Call(if f.id != "" then Given(f.id) else Minted(serial), f.id, f.name, [])
  }

  function UpdateMetadata(c: Call, f: Fragment): Call {
    c.(id := if f.id != "" then Given(f.id) else c.id,
       upstreamId := if f.id != "" then f.id else c.upstreamId,
       name := if f.name != "" then f.name else c.name)
  }

  function Extend(complete: JsonTest, c: Call, f: Fragment): Call {
    c.(parts := AddArguments(complete, c.parts, f.args))
  }

  /** `_record_tool_call_delta`. */
  function Record(complete: JsonTest, b: Buffer, f: Fragment): (r: Buffer)
    requires Valid(b)
    ensures Valid(r)
  {
    if f.index !in b.current || IsNewCall(b, f) then
      Buffer(b.pending + [Extend(complete, NewCall(f, b.minted), f)], b.current[f.index := |b.pending|], b.minted + 1)
    else
      var k := b.current[f.index];
      b.(pending := b.pending[k := Extend(complete, UpdateMetadata(b.pending[k], f), f)])
  }

  function Empty(minted: nat): Buffer {
    Buffer([], map[], minted)
  }

  function RecordAll(complete: JsonTest, minted: nat, fs: seq<Fragment>): (r: Buffer)
    ensures Valid(r)
  {
    if fs == [] then Empty(minted) else Record(complete, RecordAll(complete, minted, fs[..|fs| - 1]), fs[|fs| - 1])
  }

  // ---- What a call says of its fragments --------------------------------------------------

  function ArgsOf(fs: seq<Fragment>): seq<string> {
    seq(|fs|, i requires 0 <= i < |fs| => fs[i].args)
  }

  /** The last non-empty id. */
  function IdOf(fs: seq<Fragment>): string {
    if fs == [] then ""
    else if fs[|fs| - 1].id != "" then fs[|fs| - 1].id
    else IdOf(fs[..|fs| - 1])
  }

  /** The last non-empty name. */
  function NameOf(fs: seq<Fragment>): string {
    if fs == [] then ""
    else if fs[|fs| - 1].name != "" then fs[|fs| - 1].name
    else NameOf(fs[..|fs| - 1])
  }

  /** The call has the id and name its fragments gave, and their arguments assembled in order. */
  predicate Represents(complete: JsonTest, c: Call, fs: seq<Fragment>) {
    && c.parts == Assemble(complete, ArgsOf(fs))
    && c.name == NameOf(fs)
    && c.upstreamId == IdOf(fs)
    && (if IdOf(fs) != "" then c.id == Given(IdOf(fs)) else c.id.Minted?)
  }

  /** The list: one call per key, each with its own fragments. */
  predicate ListRefines(complete: JsonTest, pending: seq<Call>, fs: seq<Fragment>) {
    && |pending| == |CallKeys(fs)|
    && (forall j :: 0 <= j < |pending| ==> Represents(complete, pending[j], Pick(fs, CallKeys(fs)[j])))
  }

  /** The table: every index seen so far points at its current call. */
  ghost predicate TableRefines(b: Buffer, fs: seq<Fragment>) {
    && Valid(b) && |b.pending| == |CallKeys(fs)|
    && (forall index :: index in b.current <==> Occurs(fs, index))
    && (forall index :: index in b.current ==>
          && CallKeys(fs)[b.current[index]] == Key(index, Generation(fs, index))
          && b.pending[b.current[index]].upstreamId == LatestId(fs, index))
  }

  ghost predicate Refines(complete: JsonTest, b: Buffer, fs: seq<Fragment>) {
    ListRefines(complete, b.pending, fs) && TableRefines(b, fs)
  }

  lemma RepresentsSnoc(complete: JsonTest, c: Call, fs: seq<Fragment>, f: Fragment)
    requires Represents(complete, c, fs)
    ensures Represents(complete, Extend(complete, UpdateMetadata(c, f), f), fs + [f])
  {
    assert (fs + [f])[..|fs|] == fs;
    assert ArgsOf(fs + [f]) == ArgsOf(fs) + [f.args];
    AssembleSnoc(complete, ArgsOf(fs), f.args);
  }

  lemma RepresentsFirst(complete: JsonTest, f: Fragment, serial: nat)
    ensures Represents(complete, Extend(complete, NewCall(f, serial), f), [f])
  {
    assert [f][..0] == [];
    AssembleSnoc(complete, [], f.args);
    assert ArgsOf([f]) == [] + [f.args];
    assert IdOf([f]) == f.id && NameOf([f]) == f.name;
  }

  /** A key that was never used has no fragments. */
  lemma {:induction false} PickUnused(fs: seq<Fragment>, key: Key)
    requires key !in Keys(fs)
    ensures Pick(fs, key) == []
  {
    if fs == [] {
    } else {
      PickUnused(fs[..|fs| - 1], key);
    }
  }

  lemma ListOpens(complete: JsonTest, pending: seq<Call>, c: Call, fs: seq<Fragment>, f: Fragment)
    requires ListRefines(complete, pending, fs) && KeyAfter(fs, f) !in Keys(fs)
    requires Represents(complete, c, [f])
    ensures ListRefines(complete, pending + [c], fs + [f])
  {
    SnocKeys(fs, f);
    FirstOccurrencesDistinct(Keys(fs));
    forall j | 0 <= j < |pending + [c]|
      ensures Represents(complete, (pending + [c])[j], Pick(fs + [f], CallKeys(fs + [f])[j]))
    {
      SnocPick(fs, f, CallKeys(fs + [f])[j]);
      if j < |pending| {
        assert CallKeys(fs)[j] in Keys(fs);
      } else {
        PickUnused(fs, KeyAfter(fs, f));
        assert [] + [f] == [f];
      }
    }
  }

  lemma ListUpdates(complete: JsonTest, pending: seq<Call>, k: nat, c: Call, fs: seq<Fragment>, f: Fragment)
    requires ListRefines(complete, pending, fs) && KeyAfter(fs, f) in Keys(fs)
    requires k < |pending| && CallKeys(fs)[k] == KeyAfter(fs, f)
    requires Represents(complete, c, Pick(fs, KeyAfter(fs, f)) + [f])
    ensures ListRefines(complete, pending[k := c], fs + [f])
  {
    SnocKeys(fs, f);
    FirstOccurrencesDistinct(Keys(fs));
    forall j | 0 <= j < |pending|
      ensures Represents(complete, pending[k := c][j], Pick(fs + [f], CallKeys(fs + [f])[j]))
    {
      SnocPick(fs, f, CallKeys(fs)[j]);
      if j != k { assert CallKeys(fs)[j] != CallKeys(fs)[k]; }
    }
  }

  /** The history of an index after one more fragment that opens a call. */
  lemma OpenedHistory(fs: seq<Fragment>, f: Fragment, index: int)
    requires !Occurs(fs, f.index) || ChangesId(fs, f)
    ensures LatestId(fs + [f], index) == if index == f.index then f.id else LatestId(fs, index)
    ensures index != f.index ==> Generation(fs + [f], index) == Generation(fs, index)
    ensures Occurs(fs + [f], index) <==> Occurs(fs, index) || f.index == index
  {
    Snoc(fs, f);
    if !Occurs(fs, f.index) { NoHistory(fs, f.index); }
  }

  lemma TableOpens(b: Buffer, c: Call, minted: nat, fs: seq<Fragment>, f: Fragment)
    requires TableRefines(b, fs) && KeyAfter(fs, f) !in Keys(fs) && c.upstreamId == f.id
    requires !Occurs(fs, f.index) || ChangesId(fs, f)
    ensures TableRefines(Buffer(b.pending + [c], b.current[f.index := |b.pending|], minted), fs + [f])
  {
    var r := Buffer(b.pending + [c], b.current[f.index := |b.pending|], minted);
    SnocKeys(fs, f);
    forall index
      ensures index in r.current <==> Occurs(fs + [f], index)
      ensures index in r.current ==>
                && CallKeys(fs + [f])[r.current[index]] == Key(index, Generation(fs + [f], index))
                && r.pending[r.current[index]].upstreamId == LatestId(fs + [f], index)
    {
      OpenedHistory(fs, f, index);
    }
  }

  lemma TableUpdates(b: Buffer, c: Call, fs: seq<Fragment>, f: Fragment)
    requires TableRefines(b, fs) && KeyAfter(fs, f) in Keys(fs) && f.index in b.current && !ChangesId(fs, f)
    requires c.upstreamId == LatestId(fs + [f], f.index)
    ensures TableRefines(b.(pending := b.pending[b.current[f.index] := c]), fs + [f])
  {
    Snoc(fs, f);
    var k := b.current[f.index];
    forall index | index in b.current && index != f.index ensures b.current[index] != k {
      assert CallKeys(fs)[b.current[index]] == Key(index, Generation(fs, index));
    }
  }

  lemma RecordRefines(complete: JsonTest, b: Buffer, fs: seq<Fragment>, f: Fragment)
    requires Refines(complete, b, fs)
    ensures Refines(complete, Record(complete, b, f), fs + [f])
  {
    OpensCall(fs, f);
    if f.index !in b.current || IsNewCall(b, f) {
      RepresentsFirst(complete, f, b.minted);
      ListOpens(complete, b.pending, Extend(complete, NewCall(f, b.minted), f), fs, f);
      TableOpens(b, Extend(complete, NewCall(f, b.minted), f), b.minted + 1, fs, f);
    } else {
      var k := b.current[f.index];
      var c := Extend(complete, UpdateMetadata(b.pending[k], f), f);
      Snoc(fs, f);
      RepresentsSnoc(complete, b.pending[k], Pick(fs, KeyAfter(fs, f)), f);
      ListUpdates(complete, b.pending, k, c, fs, f);
      TableUpdates(b, c, fs, f);
    }
  }

  /** Buffering refines filtering: the buffered calls are the calls of the reference in order of
      arrival, each with exactly its own fragments, whatever the interleaving and the reuse of
      indices. */
  lemma {:induction false} BufferRefinesFilter(complete: JsonTest, minted: nat, fs: seq<Fragment>)
    ensures Refines(complete, RecordAll(complete, minted, fs), fs)
  {
    if fs == [] {
    } else {
      var front, last := fs[..|fs| - 1], fs[|fs| - 1];
      BufferRefinesFilter(complete, minted, front);
      RecordRefines(complete, RecordAll(complete, minted, front), front, last);
      assert front + [last] == fs;
    }
  }

  /** With at most one upstream id per index: the distinct indices in order of arrival, each with
      that index's fragments. */
  lemma OneIdBuffer(complete: JsonTest, minted: nat, fs: seq<Fragment>)
    requires OneIdPerIndex(fs)
    ensures var pending, indices := RecordAll(complete, minted, fs).pending, FirstOccurrences(Indices(fs));
            && |pending| == |indices|
            && forall j :: 0 <= j < |indices| ==> Represents(complete, pending[j], OfIndex(fs, indices[j]))
  {
    BufferRefinesFilter(complete, minted, fs);
    OneIdCalls(fs);
  }

  /** Two calls that share one index stay two calls, whole and in order. */
  lemma ReusedIndexKeepsBothCalls(complete: JsonTest, minted: nat, index: int, first: seq<Fragment>,
                                  second: seq<Fragment>)
    requires first != [] && second != [] && first[0].id != "" && second[0].id != "" && first[0].id != second[0].id
    requires forall i :: 0 <= i < |first| ==> first[i].index == index && first[i].id in {"", first[0].id}
    requires forall i :: 0 <= i < |second| ==> second[i].index == index && second[i].id in {"", second[0].id}
    ensures var pending := RecordAll(complete, minted, first + second).pending;
            && |pending| == 2
            && Represents(complete, pending[0], first) && Represents(complete, pending[1], second)
  {
    BufferRefinesFilter(complete, minted, first + second);
    ReusedKeys(index, first, second);
    var keys := CallKeys(first + second);
    assert keys[0] == Key(index, 0) && keys[1] == Key(index, 1);
  }

  /** What the reference says when the fragments so far are one call. */
  predicate IsOneCall(index: int, fs: seq<Fragment>, id: string) {
    && Generation(fs, index) == 0 && LatestId(fs, index) == id
    && Keys(fs) != [] && (forall i :: 0 <= i < |Keys(fs)| ==> Keys(fs)[i] == Key(index, 0))
    && CallKeys(fs) == [Key(index, 0)]
    && Pick(fs, Key(index, 0)) == fs
    && Pick(fs, Key(index, 1)) == []
  }

  lemma FirstCallOpens(index: int, f: Fragment)
    requires f.index == index && f.id != ""
    ensures IsOneCall(index, [f], f.id)
  {
    SnocHistory([], f, index);
    SnocKeys([], f);
    SnocPick([], f, Key(index, 0));
    SnocPick([], f, Key(index, 1));
    assert [] + [f] == [f];
  }

  lemma FirstCallGrows(index: int, fs: seq<Fragment>, f: Fragment, id: string)
    requires IsOneCall(index, fs, id) && id != "" && f.index == index && (f.id == "" || f.id == id)
    ensures IsOneCall(index, fs + [f], id)
  {
    SnocHistory(fs, f, index);
    SnocKeys(fs, f);
    SnocPick(fs, f, Key(index, 0));
    SnocPick(fs, f, Key(index, 1));
    assert KeyAfter(fs, f) == Key(index, 0) == Keys(fs)[0];
  }

  lemma {:induction false} OneGeneration(index: int, fs: seq<Fragment>)
    requires fs != [] && fs[0].id != ""
    requires forall i :: 0 <= i < |fs| ==> fs[i].index == index && fs[i].id in {"", fs[0].id}
    ensures IsOneCall(index, fs, fs[0].id)
  {
    var front, last := fs[..|fs| - 1], fs[|fs| - 1];
    if front == [] {
      assert fs == [last];
      FirstCallOpens(index, last);
    } else {
      assert fs == front + [last];
      OneGeneration(index, front);
      FirstCallGrows(index, front, last, fs[0].id);
    }
  }

  /** ... and when they are a first call followed by a second under the same index. */
  predicate AreTwoCalls(index: int, fs: seq<Fragment>, first: seq<Fragment>, second: seq<Fragment>, id: string) {
    && Generation(fs, index) == 1 && LatestId(fs, index) == id
    && Key(index, 1) in Keys(fs)
    && CallKeys(fs) == [Key(index, 0), Key(index, 1)]
    && Pick(fs, Key(index, 0)) == first
    && Pick(fs, Key(index, 1)) == second
  }

  lemma SecondCallOpens(index: int, first: seq<Fragment>, f: Fragment, id: string)
    requires IsOneCall(index, first, id) && id != "" && f.index == index && f.id != "" && f.id != id
    ensures AreTwoCalls(index, first + [f], first, [f], f.id)
  {
    SnocHistory(first, f, index);
    var key := KeyAfter(first, f);
    assert key == Key(index, 1);
    assert key !in Keys(first);
    SnocKeys(first, f);
    assert Keys(first + [f])[|Keys(first)|] == key;
    SnocPick(first, f, Key(index, 0));
    SnocPick(first, f, key);
    assert [] + [f] == [f];
  }

  lemma SecondCallGrows(index: int, fs: seq<Fragment>, first: seq<Fragment>, second: seq<Fragment>, f: Fragment,
                        id: string)
    requires AreTwoCalls(index, fs, first, second, id) && id != "" && f.index == index && (f.id == "" || f.id == id)
    ensures AreTwoCalls(index, fs + [f], first, second + [f], id)
  {
    SnocHistory(fs, f, index);
    SnocKeys(fs, f);
    SnocPick(fs, f, Key(index, 0));
    SnocPick(fs, f, Key(index, 1));
    assert KeyAfter(fs, f) == Key(index, 1);
  }

  lemma {:induction false} ReusedKeys(index: int, first: seq<Fragment>, second: seq<Fragment>)
    requires first != [] && second != [] && first[0].id != "" && second[0].id != "" && first[0].id != second[0].id
    requires forall i :: 0 <= i < |first| ==> first[i].index == index && first[i].id in {"", first[0].id}
    requires forall i :: 0 <= i < |second| ==> second[i].index == index && second[i].id in {"", second[0].id}
    ensures AreTwoCalls(index, first + second, first, second, second[0].id)
  {
    var front, f := second[..|second| - 1], second[|second| - 1];
    assert first + second == (first + front) + [f];
    if front == [] {
      OneGeneration(index, first);
      SecondCallOpens(index, first, f, first[0].id);
      assert first + front == first && second == [f];
    } else {
      ReusedKeys(index, first, front);
      SecondCallGrows(index, first + front, first, front, f, second[0].id);
      assert front + [f] == second;
    }
  }
}
