/**
 * The source sorts with `Array.prototype.sort`/`toSorted` and a numeric
 * comparator (`(a, b) => key(b) - key(a)`), which ECMAScript 2019 requires to
 * be stable. The model uses one stable insertion sort, ordered by a real-valued
 * key from largest to smallest; an ascending sort uses the negated key.
 */
module Sorting {

  /** Keys never increase from left to right. */
  predicate SortedDesc<T>(s: seq<T>, key: T -> real) {
    forall i, j :: 0 <= i < j < |s| ==> key(s[i]) >= key(s[j])
  }

  /**
   * Inserts `x` in front of the first element whose key is not larger, so
   * that `x` stays ahead of the elements with an equal key (stability).
   */
  function Insert<T(==)>(x: T, s: seq<T>, key: T -> real): (r: seq<T>)
    ensures |r| == |s| + 1
    ensures multiset(r) == multiset(s) + multiset{x}
    ensures forall y :: y in r ==> y == x || y in s
  {
    if s == [] || key(s[0]) <= key(x) then [x] + s
    else
      assert s == [s[0]] + s[1..];
      [s[0]] + Insert(x, s[1..], key)
  }

  lemma {:induction false} InsertSorted<T>(x: T, s: seq<T>, key: T -> real)
    requires SortedDesc(s, key)
    ensures SortedDesc(Insert(x, s, key), key)
  {
    if s != [] && key(s[0]) > key(x) {
      var t := s[1..];
      InsertSorted(x, t, key);
      var r := Insert(x, t, key);
      forall y | y in r ensures key(y) <= key(s[0]) {
        if y != x {
          var k :| 0 <= k < |t| && t[k] == y;
          assert s[k + 1] == y;
        }
      }
      ConsSorted(s[0], r, key);
    }
  }

  /** A head no smaller than every element of a sorted tail keeps it sorted. */
  lemma ConsSorted<T>(a: T, r: seq<T>, key: T -> real)
    requires SortedDesc(r, key)
    requires forall y :: y in r ==> key(y) <= key(a)
    ensures SortedDesc([a] + r, key)
  {
    var full := [a] + r;
    forall i, j | 0 <= i < j < |full| ensures key(full[i]) >= key(full[j]) {
      assert full[j] == r[j - 1];
      if i > 0 {
        assert full[i] == r[i - 1];
      }
    }
  }

  /** Stable sort by `key`, largest key first. */
  function SortDesc<T(==)>(s: seq<T>, key: T -> real): (r: seq<T>)
    ensures |r| == |s|
    ensures multiset(r) == multiset(s)
    ensures SortedDesc(r, key)
  {
    if s == [] then []
    else
      assert s == [s[0]] + s[1..];
      var rest := SortDesc(s[1..], key);
      InsertSorted(s[0], rest, key);
      Insert(s[0], rest, key)
  }

  /** Every element left behind a sorted prefix has a key no larger than any kept one. */
  lemma PrefixDominates<T>(s: seq<T>, key: T -> real, n: nat)
    requires SortedDesc(s, key) && n <= |s|
    ensures forall m, k :: m in multiset(s[n..]) && k in s[..n] ==> key(k) >= key(m)
  {
    forall m, k | m in multiset(s[n..]) && k in s[..n] ensures key(k) >= key(m) {
      var j :| 0 <= j < |s[n..]| && s[n..][j] == m;
      var i :| 0 <= i < n && s[..n][i] == k;
      assert s[i] == k && s[n + j] == m;
    }
  }

  /**
   * The first `n` of a sorted permutation of `s`: sorted, drawn from `s`, and
   * no element left out has a larger key than an element kept.
   */
  lemma SortedPrefix<T>(s: seq<T>, sorted: seq<T>, key: T -> real, n: nat)
    requires SortedDesc(sorted, key) && multiset(sorted) == multiset(s) && n <= |sorted|
    ensures var kept := sorted[..n];
      && SortedDesc(kept, key)
      && multiset(kept) <= multiset(s)
      && forall m, k :: m in multiset(s) - multiset(kept) && k in kept ==> key(k) >= key(m)
  {
    var kept := sorted[..n];
    var rest := sorted[n..];
    assert sorted == kept + rest;
    assert multiset(s) - multiset(kept) == multiset(rest);
    PrefixDominates(sorted, key, n);
  }

  /** In a sorted sequence an element with a strictly larger key comes first. */
  lemma LargerKeyFirst<T>(s: seq<T>, key: T -> real, i: nat, j: nat)
    requires SortedDesc(s, key) && i < |s| && j < |s|
    requires key(s[i]) > key(s[j])
    ensures i < j
  {
  }
}
