/** Which call a tool-call fragment belongs to, said by filtering: a reference that keeps no
    table. A call is the fragments of one index between two changes of upstream id. */
module ToolSegments {
  import opened Sequences

  /** A tool-call fragment whose index is known; "" is an absent field. */
  datatype Fragment = Fragment(index: int, id: string, name: string, args: string)

  /** The n-th call opened under an index. */
  datatype Key = Key(index: int, generation: nat)

  /** The last id the upstream gave at this index, "" when none yet. */
  function LatestId(fs: seq<Fragment>, index: int): string {
    if fs == [] then ""
    else
      var last := fs[|fs| - 1];
      if last.index == index && last.id != "" then last.id else LatestId(fs[..|fs| - 1], index)
  }

  predicate Occurs(fs: seq<Fragment>, index: int) {
    exists i :: 0 <= i < |fs| && fs[i].index == index
  }

  /** `f` carries an id that differs from the one its index last carried. */
  predicate ChangesId(fs: seq<Fragment>, f: Fragment) {
    f.id != "" && LatestId(fs, f.index) != "" && f.id != LatestId(fs, f.index)
  }

  function Generation(fs: seq<Fragment>, index: int): nat {
    if fs == [] then 0
    else
      var front, last := fs[..|fs| - 1], fs[|fs| - 1];
      Generation(front, index) + (if last.index == index && ChangesId(front, last) then 1 else 0)
  }

  /** The call that `f` belongs to when it arrives after `fs`. */
  function KeyAfter(fs: seq<Fragment>, f: Fragment): Key {
    Key(f.index, Generation(fs + [f], f.index))
  }

  function Keys(fs: seq<Fragment>): seq<Key> {
    if fs == [] then []
    else
      var front, last := fs[..|fs| - 1], fs[|fs| - 1];
      Keys(front) + [KeyAfter(front, last)]
  }

  /** The fragments of one call, in order. */
  function Pick(fs: seq<Fragment>, key: Key): seq<Fragment> {
    if fs == [] then []
    else
      var front, last := fs[..|fs| - 1], fs[|fs| - 1];
      Pick(front, key) + (if KeyAfter(front, last) == key then [last] else [])
  }

  /** The calls in the order in which they were opened. */
  function CallKeys(fs: seq<Fragment>): seq<Key> {
    FirstOccurrences(Keys(fs))
  }

  lemma Snoc(fs: seq<Fragment>, f: Fragment)
    ensures Keys(fs + [f]) == Keys(fs) + [KeyAfter(fs, f)]
    ensures forall key :: Pick(fs + [f], key) == if KeyAfter(fs, f) == key then Pick(fs, key) + [f] else Pick(fs, key)
    ensures forall index ::
              LatestId(fs + [f], index) == if f.index == index && f.id != "" then f.id else LatestId(fs, index)
    ensures forall index :: Generation(fs + [f], index)
                            == Generation(fs, index) + (if f.index == index && ChangesId(fs, f) then 1 else 0)
    ensures forall index :: Occurs(fs + [f], index) <==> Occurs(fs, index) || f.index == index
    ensures CallKeys(fs + [f]) == if KeyAfter(fs, f) in Keys(fs) then CallKeys(fs) else CallKeys(fs) + [KeyAfter(fs, f)]
  {
    var all := fs + [f];
    assert all[..|fs|] == fs;
    assert (Keys(fs) + [KeyAfter(fs, f)])[..|Keys(fs)|] == Keys(fs);
    forall index ensures Occurs(all, index) <==> Occurs(fs, index) || f.index == index {
      SnocOccurs(fs, f, index);
    }
  }

  // The same facts one at a time.

  lemma SnocHistory(fs: seq<Fragment>, f: Fragment, index: int)
    ensures LatestId(fs + [f], index) == if f.index == index && f.id != "" then f.id else LatestId(fs, index)
    ensures Generation(fs + [f], index)
            == Generation(fs, index) + (if f.index == index && ChangesId(fs, f) then 1 else 0)
  {
    assert (fs + [f])[..|fs|] == fs;
  }

  lemma SnocPick(fs: seq<Fragment>, f: Fragment, key: Key)
    ensures Pick(fs + [f], key) == if KeyAfter(fs, f) == key then Pick(fs, key) + [f] else Pick(fs, key)
  {
    assert (fs + [f])[..|fs|] == fs;
  }

  lemma SnocKeys(fs: seq<Fragment>, f: Fragment)
    ensures Keys(fs + [f]) == Keys(fs) + [KeyAfter(fs, f)]
    ensures CallKeys(fs + [f]) == if KeyAfter(fs, f) in Keys(fs) then CallKeys(fs) else CallKeys(fs) + [KeyAfter(fs, f)]
  {
    assert (fs + [f])[..|fs|] == fs;
    assert (Keys(fs) + [KeyAfter(fs, f)])[..|Keys(fs)|] == Keys(fs);
  }

  lemma SnocOccurs(fs: seq<Fragment>, f: Fragment, index: int)
    ensures Occurs(fs + [f], index) <==> Occurs(fs, index) || f.index == index
  {
    var all := fs + [f];
    if Occurs(fs, index) {
      var i :| 0 <= i < |fs| && fs[i].index == index;
      assert all[i].index == index;
    }
    if f.index == index { assert all[|fs|].index == index; }
  }

  /** The keys used so far at an index are the generations up to the current one. */
  lemma {:induction false} KeysSoFar(fs: seq<Fragment>, index: int, generation: nat)
    ensures Key(index, generation) in Keys(fs) <==> Occurs(fs, index) && generation <= Generation(fs, index)
  {
    if fs == [] {
    } else {
      var front, last := fs[..|fs| - 1], fs[|fs| - 1];
      assert fs == front + [last];
      SnocOccurs(front, last, index);
      SnocHistory(front, last, index);
      SnocKeys(front, last);
      KeysSoFar(front, index, generation);
      if last.index == index && !Occurs(front, index) { NoHistory(front, index); }
    }
  }

  lemma {:induction false} NoHistory(fs: seq<Fragment>, index: int)
    requires !Occurs(fs, index)
    ensures LatestId(fs, index) == "" && Generation(fs, index) == 0
  {
    if fs == [] {
    } else {
      var front, last := fs[..|fs| - 1], fs[|fs| - 1];
      assert fs == front + [last];
      Snoc(front, last);
      NoHistory(front, index);
    }
  }

  /** A fragment opens a call exactly when its index is new or its id changes. */
  lemma OpensCall(fs: seq<Fragment>, f: Fragment)
    ensures KeyAfter(fs, f) !in Keys(fs) <==> !Occurs(fs, f.index) || ChangesId(fs, f)
  {
    Snoc(fs, f);
    KeysSoFar(fs, f.index, KeyAfter(fs, f).generation);
  }

  // ---- One id per index: calls are indices -------------------------------------------------

  predicate OneIdPerIndex(fs: seq<Fragment>) {
    forall i, j :: 0 <= i < j < |fs| && fs[i].index == fs[j].index && fs[i].id != "" && fs[j].id != "" ==>
                     fs[i].id == fs[j].id
  }

  function Indices(fs: seq<Fragment>): seq<int> {
    seq(|fs|, i requires 0 <= i < |fs| => fs[i].index)
  }

  function OfIndex(fs: seq<Fragment>, index: int): seq<Fragment> {
    Filter(fs, (f: Fragment) => f.index == index)
  }

  function FirstGeneration(indices: seq<int>): seq<Key> {
    seq(|indices|, i requires 0 <= i < |indices| => Key(indices[i], 0))
  }

  lemma {:induction false} LatestIdOccurs(fs: seq<Fragment>, index: int)
    requires LatestId(fs, index) != ""
    ensures exists i :: 0 <= i < |fs| && fs[i].index == index && fs[i].id == LatestId(fs, index)
  {
    var front, last := fs[..|fs| - 1], fs[|fs| - 1];
    if last.index == index && last.id != "" {
    } else {
      LatestIdOccurs(front, index);
      var i :| 0 <= i < |front| && front[i].index == index && front[i].id == LatestId(front, index);
      assert fs[i] == front[i];
    }
  }

  lemma IdStays(fs: seq<Fragment>, f: Fragment)
    requires OneIdPerIndex(fs + [f])
    ensures !ChangesId(fs, f)
  {
    if LatestId(fs, f.index) != "" {
      LatestIdOccurs(fs, f.index);
      var i :| 0 <= i < |fs| && fs[i].index == f.index && fs[i].id == LatestId(fs, f.index);
      assert (fs + [f])[i] == fs[i] && (fs + [f])[|fs|] == f;
    }
  }

  lemma OneIdBefore(fs: seq<Fragment>)
    requires fs != [] && OneIdPerIndex(fs)
    ensures OneIdPerIndex(fs[..|fs| - 1]) && !ChangesId(fs[..|fs| - 1], fs[|fs| - 1])
  {
    assert fs == fs[..|fs| - 1] + [fs[|fs| - 1]];
    IdStays(fs[..|fs| - 1], fs[|fs| - 1]);
  }

  lemma {:induction false} GenerationStaysZero(fs: seq<Fragment>, index: int)
    requires OneIdPerIndex(fs)
    ensures Generation(fs, index) == 0
  {
    if fs == [] {
    } else {
      OneIdBefore(fs);
      GenerationStaysZero(fs[..|fs| - 1], index);
    }
  }

  lemma {:induction false} KeysAreFirstGeneration(fs: seq<Fragment>)
    requires OneIdPerIndex(fs)
    ensures Keys(fs) == FirstGeneration(Indices(fs))
  {
    if fs == [] {
    } else {
      var front, last := fs[..|fs| - 1], fs[|fs| - 1];
      OneIdBefore(fs);
      KeysAreFirstGeneration(front);
      assert front + [last] == fs;
      GenerationStaysZero(fs, last.index);
      assert FirstGeneration(Indices(fs)) == FirstGeneration(Indices(front)) + [Key(last.index, 0)];
    }
  }

  lemma {:induction false} FirstOccurrencesOfKeys(indices: seq<int>)
    ensures FirstOccurrences(FirstGeneration(indices)) == FirstGeneration(FirstOccurrences(indices))
  {
    if indices == [] {
    } else {
      var front, last := indices[..|indices| - 1], indices[|indices| - 1];
      FirstOccurrencesOfKeys(front);
      var keys := FirstGeneration(indices);
      assert keys[..|keys| - 1] == FirstGeneration(front);
      assert Key(last, 0) in FirstGeneration(front) <==> last in front by {
        if last in front {
          var i :| 0 <= i < |front| && front[i] == last;
          assert FirstGeneration(front)[i] == Key(last, 0);
        }
      }
    }
  }

  lemma {:induction false} PickIsFilter(fs: seq<Fragment>, index: int)
    requires OneIdPerIndex(fs)
    ensures Pick(fs, Key(index, 0)) == OfIndex(fs, index)
  {
    if fs == [] {
    } else {
      var front, last := fs[..|fs| - 1], fs[|fs| - 1];
      assert fs == front + [last];
      OneIdBefore(fs);
      PickIsFilter(front, index);
      GenerationStaysZero(fs, last.index);
    }
  }

  /** With at most one id per index the calls are the distinct indices in order of arrival, each
      with that index's fragments. */
  lemma OneIdCalls(fs: seq<Fragment>)
    requires OneIdPerIndex(fs)
    ensures CallKeys(fs) == FirstGeneration(FirstOccurrences(Indices(fs)))
    ensures forall index :: Pick(fs, Key(index, 0)) == OfIndex(fs, index)
  {
    KeysAreFirstGeneration(fs);
    FirstOccurrencesOfKeys(Indices(fs));
    forall index ensures Pick(fs, Key(index, 0)) == OfIndex(fs, index) {
      PickIsFilter(fs, index);
    }
  }
}
