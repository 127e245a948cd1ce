/** An index from a key to the positions of the matching records, as kept beside an
    append-only list of records. */
module RecordIndices {
  /** The positions of the records with key `k`, in ascending order. */
  function Positions<T, K(==)>(records: seq<T>, key: T -> K, k: K): seq<nat> {
    if records == [] then []
    else
      var n := |records| - 1;
      Positions(records[..n], key, k) + if key(records[n]) == k then [n] else []
  }

  lemma {:induction false} PositionsExact<T, K>(records: seq<T>, key: T -> K, k: K)
    ensures var ps := Positions(records, key, k);
            && (forall i :: i in ps <==> 0 <= i < |records| && key(records[i]) == k)
            && (forall i, j :: 0 <= i < j < |ps| ==> ps[i] < ps[j])
  {
    if records != [] {
      var n := |records| - 1;
      PositionsExact(records[..n], key, k);
      var before := Positions(records[..n], key, k);
      forall i | 0 <= i < |before|
        ensures before[i] < n
      {
        assert before[i] in before;
      }
    }
  }

  function Listed<K(==)>(index: map<K, seq<nat>>, k: K): seq<nat> {
    if k in index then index[k] else []
  }

  function Push<K(==)>(index: map<K, seq<nat>>, k: K, i: nat): map<K, seq<nat>> {
    index[k := Listed(index, k) + [i]]
  }

  /** Every key lists exactly its records. */
  ghost predicate IndexOk<T(!new), K(!new)>(index: map<K, seq<nat>>, records: seq<T>, key: T -> K) {
    && (forall k :: Listed(index, k) == Positions(records, key, k))
    && (forall k :: k in index ==> index[k] != [])
  }

  lemma PushKeepsIndex<T(!new), K(!new)>(index: map<K, seq<nat>>, records: seq<T>, key: T -> K, r: T)
    requires IndexOk(index, records, key)
    ensures IndexOk(Push(index, key(r), |records|), records + [r], key)
  {
    var records' := records + [r];
    assert records'[..|records|] == records;
    forall k
      ensures Listed(Push(index, key(r), |records|), k) == Positions(records', key, k)
    {
      assert Listed(index, k) == Positions(records, key, k);
    }
  }
}
