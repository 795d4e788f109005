/**
 * Per-key running sums in first-insertion order: the JavaScript `Map` (or
 * plain object) accumulators that the aggregation routes and the datastore
 * fill with `totals.set(k, (totals.get(k) || 0) + v)`.
 */
module Tally {
  import opened Sorting

  datatype Bucket<K> = Bucket(key: K, total: real)

  function Keys<K>(t: seq<Bucket<K>>): seq<K>
  {
    seq(|t|, i requires 0 <= i < |t| => t[i].key)
  }

  predicate Distinct<K(==)>(ks: seq<K>)
  {
    forall i, j :: 0 <= i < j < |ks| ==> ks[i] != ks[j]
  }

  /** Index of the first occurrence of `k` in `ks`, or `|ks|`. */
  function Position<K(==)>(ks: seq<K>, k: K): (p: nat)
    ensures p <= |ks|
    ensures p < |ks| <==> k in ks
    ensures p < |ks| ==> ks[p] == k
    ensures forall j :: 0 <= j < p ==> ks[j] != k
  {
    if ks == [] then 0 else if ks[0] == k then 0 else 1 + Position(ks[1..], k)
  }

  /** `totals.get(k) || 0`. */
  function TotalOf<K(==)>(t: seq<Bucket<K>>, k: K): real
  {
    var p := Position(Keys(t), k);
    if p < |t| then t[p].total else 0.0
  }

  lemma PositionAppend<K>(ks: seq<K>, k: K, x: K)
    requires x != k
    ensures Position(ks + [k], x) == Position(ks, x) || (x !in ks && Position(ks + [k], x) == |ks| + 1)
  {
    var p := Position(ks + [k], x);
    var q := Position(ks, x);
    if q < |ks| {
      assert (ks + [k])[q] == x;
    }
  }

  /** `totals.set(k, (totals.get(k) || 0) + v)`: updates in place or appends. */
  function Add<K(==)>(t: seq<Bucket<K>>, k: K, v: real): (r: seq<Bucket<K>>)
    ensures Keys(r) == if k in Keys(t) then Keys(t) else Keys(t) + [k]
    ensures Distinct(Keys(t)) ==> Distinct(Keys(r))
    ensures TotalOf(r, k) == TotalOf(t, k) + v
  {
    var p := Position(Keys(t), k);
    if p < |t| then
      var r := t[p := Bucket(k, t[p].total + v)];
      assert Keys(r) == Keys(t);
      r
    else
      var r := t + [Bucket(k, v)];
      assert Keys(r) == Keys(t) + [k];
      r
  }

  /** Adding to one key leaves every other key's total as it was. */
  lemma AddOthers<K>(t: seq<Bucket<K>>, k: K, v: real, x: K)
    requires x != k
    ensures TotalOf(Add(t, k, v), x) == TotalOf(t, x)
  {
    if k !in Keys(t) {
      assert Keys(Add(t, k, v)) == Keys(t) + [k];
      PositionAppend(Keys(t), k, x);
    }
  }

  /** Sum of the values paired with `k`. */
  function SumFor<K(==)>(pairs: seq<(K, real)>, k: K): real
  {
    if pairs == [] then 0.0
    else SumFor(pairs[..|pairs| - 1], k) + (if pairs[|pairs| - 1].0 == k then pairs[|pairs| - 1].1 else 0.0)
  }

  /** Feeds every pair to `Add`, left to right. */
  function Accumulate<K(==)>(pairs: seq<(K, real)>): (t: seq<Bucket<K>>)
    ensures Distinct(Keys(t))
  {
    if pairs == [] then []
    else
      var last := pairs[|pairs| - 1];
      Add(Accumulate(pairs[..|pairs| - 1]), last.0, last.1)
  }

  lemma TallyStep<K>(pairs: seq<(K, real)>, x: (K, real))
    ensures Accumulate(pairs + [x]) == Add(Accumulate(pairs), x.0, x.1)
    ensures SumFor(pairs + [x], x.0) == SumFor(pairs, x.0) + x.1
  {
    assert (pairs + [x])[..|pairs|] == pairs;
  }

  /** Each key's bucket holds the sum of all values given for that key. */
  lemma {:induction false} TallyTotals<K>(pairs: seq<(K, real)>, k: K)
    ensures TotalOf(Accumulate(pairs), k) == SumFor(pairs, k)
  {
    if pairs != [] {
      var last := pairs[|pairs| - 1];
      TallyTotals(pairs[..|pairs| - 1], k);
      if last.0 != k {
        AddOthers(Accumulate(pairs[..|pairs| - 1]), last.0, last.1, k);
      }
    }
  }

  /** The keys of the pairs, in order. */
  function PairKeys<K>(pairs: seq<(K, real)>): seq<K>
  {
    seq(|pairs|, i requires 0 <= i < |pairs| => pairs[i].0)
  }

  /** A key has a bucket exactly when some pair carries it. */
  lemma {:induction false} TallyKeys<K>(pairs: seq<(K, real)>, k: K)
    ensures k in Keys(Accumulate(pairs)) <==> k in PairKeys(pairs)
  {
    if pairs != [] {
      var init, last := pairs[..|pairs| - 1], pairs[|pairs| - 1];
      TallyKeys(init, k);
      assert Keys(Accumulate(pairs)) == Keys(Add(Accumulate(init), last.0, last.1));
      assert PairKeys(pairs) == PairKeys(init) + [last.0];
    }
  }

  function BucketTotal<K>(b: Bucket<K>): real
  {
    b.total
  }

  /** The buckets of the pairs sorted by `(a, b) => b.total - a.total`. */
  function Ranked<K(==)>(pairs: seq<(K, real)>): seq<Bucket<K>>
  {
    Sort(Accumulate(pairs), Descending(BucketTotal))
  }

  /** The ranking is a permutation of the per-key sums, largest first. */
  lemma RankedSorted<K(!new)>(pairs: seq<(K, real)>)
    ensures multiset(Ranked(pairs)) == multiset(Accumulate(pairs))
    ensures forall i, j :: 0 <= i < j < |Ranked(pairs)| ==> Ranked(pairs)[i].total >= Ranked(pairs)[j].total
  {
    SortDescending(Accumulate(pairs), BucketTotal);
  }

  /** Every entry carries the sum of all values given for its key. */
  lemma RankedTotals<K(!new)>(pairs: seq<(K, real)>, b: Bucket<K>)
    requires b in Ranked(pairs)
    ensures b.total == SumFor(pairs, b.key)
  {
    var t := Accumulate(pairs);
    RankedSorted(pairs);
    assert b in multiset(t);
    var i :| 0 <= i < |t| && t[i] == b;
    assert Keys(t)[i] == b.key;
    assert Position(Keys(t), b.key) == i;
    TallyTotals(pairs, b.key);
  }

  /** No key appears twice. */
  lemma RankedDistinct<K(!new)>(pairs: seq<(K, real)>, i: int, j: int)
    requires 0 <= i < j < |Ranked(pairs)|
    ensures Ranked(pairs)[i].key != Ranked(pairs)[j].key
  {
    var t := Accumulate(pairs);
    var r := Ranked(pairs);
    RankedSorted(pairs);
    if r[i].key == r[j].key {
      assert r[i] in multiset(t) && r[j] in multiset(t);
      var a :| 0 <= a < |t| && t[a] == r[i];
      var b :| 0 <= b < |t| && t[b] == r[j];
      assert Keys(t)[a] == Keys(t)[b];
      assert a == b;
      MultisetTwice(r, i, j);
      OnlyOnce(t, a);
      assert false;
    }
  }

  /** A key is listed exactly when some pair carries it. */
  lemma RankedKeys<K(!new)>(pairs: seq<(K, real)>, k: K)
    ensures (exists b :: b in Ranked(pairs) && b.key == k) <==> k in PairKeys(pairs)
  {
    var t := Accumulate(pairs);
    RankedSorted(pairs);
    TallyKeys(pairs, k);
    if k in PairKeys(pairs) {
      var p :| 0 <= p < |Keys(t)| && Keys(t)[p] == k;
      assert t[p] in multiset(Ranked(pairs));
    }
    if b :| b in Ranked(pairs) && b.key == k {
      assert b in multiset(t);
      var i :| 0 <= i < |t| && t[i] == b;
      assert Keys(t)[i] == k;
    }
  }

  lemma MultisetTwice<T>(s: seq<T>, i: int, j: int)
    requires 0 <= i < j < |s| && s[i] == s[j]
    ensures multiset(s)[s[i]] >= 2
  {
    assert s == s[..i] + [s[i]] + s[i + 1..j] + [s[j]] + s[j + 1..];
  }

  /** With distinct keys every bucket occurs once. */
  lemma {:induction false} OnlyOnce<K>(t: seq<Bucket<K>>, a: int)
    requires Distinct(Keys(t))
    requires 0 <= a < |t|
    ensures multiset(t)[t[a]] == 1
  {
    assert t == [t[0]] + t[1..];
    if a == 0 {
      forall k | 0 <= k < |t| - 1 ensures t[1..][k] != t[0] {
        assert Keys(t)[k + 1] != Keys(t)[0];
      }
      assert t[0] !in multiset(t[1..]);
    } else {
      assert Keys(t[1..]) == Keys(t)[1..];
      OnlyOnce(t[1..], a - 1);
      assert Keys(t)[0] != Keys(t)[a];
    }
  }
}
