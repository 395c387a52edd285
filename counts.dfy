/**
 * A JavaScript record used as a counter, `t[k] = (t[k] || 0) + 1`: keys in
 * insertion order (`Object.entries`), each with its count.
 */
module Counts {
  type Table<K> = seq<(K, nat)>

  predicate HasKey<K(==)>(t: Table<K>, k: K) {
    exists i :: 0 <= i < |t| && t[i].0 == k
  }

  /** The count under `k`, 0 when absent. */
  function Get<K(==)>(t: Table<K>, k: K): nat {
    if |t| == 0 then 0 else if t[0].0 == k then t[0].1 else Get(t[1..], k)
  }

  /** `t[k] = (t[k] || 0) + 1`: an existing key keeps its place, a new one goes last. */
  function Bump<K(==)>(t: Table<K>, k: K): Table<K> {
    if |t| == 0 then [(k, 1)]
    else if t[0].0 == k then [(k, t[0].1 + 1)] + t[1..]
    else [t[0]] + Bump(t[1..], k)
  }

  function Total<K>(t: Table<K>): nat {
    if |t| == 0 then 0 else t[0].1 + Total(t[1..])
  }

  predicate Distinct<K(==)>(t: Table<K>) {
    forall i, j :: 0 <= i < j < |t| ==> t[i].0 != t[j].0
  }

  /** Every count in the table is at least one. */
  predicate Positive<K>(t: Table<K>) {
    forall i :: 0 <= i < |t| ==> t[i].1 >= 1
  }

  lemma {:induction false} BumpCounts<K>(t: Table<K>, k: K)
    ensures Total(Bump(t, k)) == Total(t) + 1
    ensures Get(Bump(t, k), k) == Get(t, k) + 1
    ensures forall k' :: k' != k ==> Get(Bump(t, k), k') == Get(t, k')
    ensures Positive(t) ==> Positive(Bump(t, k))
  {
    if |t| > 0 && t[0].0 != k {
      BumpCounts(t[1..], k);
      if Positive(t) {
        assert Positive(t[1..]);
      }
    }
  }

  lemma {:induction false} BumpShape<K>(t: Table<K>, k: K)
    ensures |Bump(t, k)| == |t| + (if HasKey(t, k) then 0 else 1)
    ensures forall i :: 0 <= i < |t| ==> Bump(t, k)[i].0 == t[i].0
    ensures !HasKey(t, k) ==> Bump(t, k)[|t|] == (k, 1)
  {
    if |t| > 0 && t[0].0 != k {
      BumpShape(t[1..], k);
      assert HasKey(t, k) <==> HasKey(t[1..], k) by {
        if HasKey(t, k) {
          var i :| 0 <= i < |t| && t[i].0 == k;
          assert t[1..][i - 1].0 == k;
        }
        if HasKey(t[1..], k) {
          var i :| 0 <= i < |t[1..]| && t[1..][i].0 == k;
          assert t[i + 1].0 == k;
        }
      }
    } else if |t| > 0 {
      assert t[0].0 == k;
    }
  }

  /** The keys after a bump are the old ones plus `k`, still without repetition. */
  lemma BumpKeys<K>(t: Table<K>, k: K)
    ensures forall k' :: HasKey(Bump(t, k), k') <==> HasKey(t, k') || k' == k
    ensures Distinct(t) ==> Distinct(Bump(t, k))
  {
    BumpShape(t, k);
    var b := Bump(t, k);
    forall k' ensures HasKey(b, k') <==> HasKey(t, k') || k' == k {
      if HasKey(t, k') {
        var i :| 0 <= i < |t| && t[i].0 == k';
        assert b[i].0 == k';
      }
      if k' == k && !HasKey(t, k) {
        assert b[|t|].0 == k;
      }
    }
  }

  /** The entry a stable sort by descending count puts first: the earliest with the largest count. */
  function FirstMax<K>(t: Table<K>): (i: nat)
    requires |t| > 0
    ensures i < |t|
    ensures forall j :: 0 <= j < |t| ==> t[j].1 <= t[i].1
    ensures forall j :: 0 <= j < i ==> t[j].1 < t[i].1
  {
    if |t| == 1 then 0
    else
      var m := FirstMax(t[1..]) + 1;
      assert forall j :: 1 <= j < |t| ==> t[j] == t[1..][j - 1];
      if t[0].1 >= t[m].1 then 0 else m
  }
}
