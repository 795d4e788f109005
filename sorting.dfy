/**
 * `Array.prototype.sort` with a comparator, as the application uses it: a
 * stable sort. `le(a, b)` holds when the comparator does not put `b` strictly
 * before `a` (it returns a value <= 0 for `(a, b)`). The sort is an insertion
 * sort that keeps equal elements in their input order.
 */
module Sorting {

  ghost predicate TotalPreorder<T(!new)>(le: (T, T) -> bool)
  {
    && (forall a, b :: le(a, b) || le(b, a))
    && (forall a, b, c :: le(a, b) && le(b, c) ==> le(a, c))
  }

  predicate SortedBy<T>(xs: seq<T>, le: (T, T) -> bool)
  {
    forall i, j :: 0 <= i < j < |xs| ==> le(xs[i], xs[j])
  }

  /** Puts `x` in front of the first element it may precede. */
  function Insert<T>(x: T, s: seq<T>, le: (T, T) -> bool): (r: seq<T>)
    ensures |r| == |s| + 1
    ensures multiset(r) == multiset(s) + multiset{x}
  {
    if s == [] then [x]
    else if le(x, s[0]) then [x] + s
    else
      assert s == [s[0]] + s[1..];
      [s[0]] + Insert(x, s[1..], le)
  }

  /** The sorted copy (`list.slice().sort(cmp)`). */
  function Sort<T>(xs: seq<T>, le: (T, T) -> bool): (r: seq<T>)
    ensures |r| == |xs|
    ensures multiset(r) == multiset(xs)
  {
    if xs == [] then []
    else
      assert xs == [xs[0]] + xs[1..];
      Insert(xs[0], Sort(xs[1..], le), le)
  }

  lemma {:induction false} InsertSorted<T(!new)>(x: T, s: seq<T>, le: (T, T) -> bool)
    requires TotalPreorder(le)
    requires SortedBy(s, le)
    ensures SortedBy(Insert(x, s, le), le)
  {
    if s != [] && !le(x, s[0]) {
      InsertSorted(x, s[1..], le);
      var rest := Insert(x, s[1..], le);
      forall k | 0 <= k < |rest| ensures le(s[0], rest[k]) {
        assert rest[k] in multiset(rest);
        assert rest[k] == x || rest[k] in multiset(s[1..]);
        if rest[k] != x {
          var j :| 0 <= j < |s[1..]| && s[1..][j] == rest[k];
          assert s[j + 1] == rest[k];
        }
      }
    }
  }

  /** The result is ordered by `le` whenever `le` is a total preorder. */
  lemma {:induction false} SortSorted<T(!new)>(xs: seq<T>, le: (T, T) -> bool)
    requires TotalPreorder(le)
    ensures SortedBy(Sort(xs, le), le)
  {
    if xs != [] {
      SortSorted(xs[1..], le);
      InsertSorted(xs[0], Sort(xs[1..], le), le);
    }
  }

  /** The elements of `xs` that tie with `k` under `le`, in their order in `xs`. */
  function Tied<T>(xs: seq<T>, k: T, le: (T, T) -> bool): seq<T>
  {
    if xs == [] then []
    else (if le(xs[0], k) && le(k, xs[0]) then [xs[0]] else []) + Tied(xs[1..], k, le)
  }

  /**
   * Inserting adds `x` in front of the elements it ties with, given that `x`
   * may precede every element of `s` that ties with it (transitivity).
   */
  lemma {:induction false} InsertTied<T>(x: T, s: seq<T>, k: T, le: (T, T) -> bool)
    requires forall y :: y in s && le(x, k) && le(k, y) ==> le(x, y)
    ensures Tied(Insert(x, s, le), k, le) == (if le(x, k) && le(k, x) then [x] else []) + Tied(s, k, le)
  {
    if s != [] && !le(x, s[0]) {
      InsertTied(x, s[1..], k, le);
      var r := [s[0]] + Insert(x, s[1..], le);
      assert r[0] == s[0] && r[1..] == Insert(x, s[1..], le);
      assert s[0] in s;
    } else if s != [] {
      var r := [x] + s;
      assert r[0] == x && r[1..] == s;
    }
  }

  /**
   * The sort is stable: the elements that tie with any `k` come out in the
   * order they went in.
   */
  lemma {:induction false} SortStable<T(!new)>(xs: seq<T>, k: T, le: (T, T) -> bool)
    requires TotalPreorder(le)
    ensures Tied(Sort(xs, le), k, le) == Tied(xs, k, le)
  {
    if xs != [] {
      SortStable(xs[1..], k, le);
      forall y | y in Sort(xs[1..], le) && le(xs[0], k) && le(k, y) ensures le(xs[0], y) { }
      InsertTied(xs[0], Sort(xs[1..], le), k, le);
    }
  }

  /** Comparator `(a, b) => key(b) - key(a)`: descending by a numeric key. */
  function Descending<T>(key: T -> real): (T, T) -> bool
  {
    (a: T, b: T) => key(a) >= key(b)
  }

  lemma DescendingIsTotal<T(!new)>(key: T -> real)
    ensures TotalPreorder(Descending(key))
  {
  }

  /** Sorting descending by a key yields non-increasing keys and a permutation. */
  lemma SortDescending<T(!new)>(xs: seq<T>, key: T -> real)
    ensures multiset(Sort(xs, Descending(key))) == multiset(xs)
    ensures forall i, j :: 0 <= i < j < |xs| ==>
      key(Sort(xs, Descending(key))[i]) >= key(Sort(xs, Descending(key))[j])
  {
    DescendingIsTotal(key);
    SortSorted(xs, Descending(key));
  }
}
