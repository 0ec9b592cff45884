/**
  Ordering helpers shared by the rule ranking and the item counts:
  a descending sort by a real-valued key (pandas `sort_values(ascending=False)`),
  pandas `head(n)`, and their composition, the top-n selection.
*/
module Ranking {

  function Min(a: int, b: int): int { if a <= b then a else b }

  function Max(a: int, b: int): int { if a >= b then a else b }

  /** `s` is ordered by `key`, largest first; equal keys may come in any order. */
  predicate SortedDesc<T>(s: seq<T>, key: T -> real)
  {
    forall i, j | 0 <= i < j < |s| :: key(s[i]) >= key(s[j])
  }

  /** Insert `x` into a descending sequence, keeping it descending. */
  function Insert<T>(x: T, s: seq<T>, key: T -> real): (r: seq<T>)
    requires SortedDesc(s, key)
    ensures SortedDesc(r, key)
    ensures multiset(r) == multiset(s) + multiset{x}
    ensures forall y | y in r :: y == x || y in s
  {
    if s == [] then [x]
    else if key(x) >= key(s[0]) then [x] + s
    else
      var rest := Insert(x, s[1..], key);
      HeadBoundsRest(x, s, rest, key);
      assert s == [s[0]] + s[1..];
      [s[0]] + rest
  }

  /** Consing the head of a descending sequence onto a descending sequence it bounds. */
  lemma HeadBoundsRest<T>(x: T, s: seq<T>, rest: seq<T>, key: T -> real)
    requires s != [] && SortedDesc(s, key) && SortedDesc(rest, key)
    requires key(x) < key(s[0])
    requires forall y | y in rest :: y == x || y in s[1..]
    ensures SortedDesc([s[0]] + rest, key)
  {
    var t := [s[0]] + rest;
    forall i, j | 0 <= i < j < |t|
      ensures key(t[i]) >= key(t[j])
    {
      if i == 0 {
        assert t[j] == rest[j - 1] && t[j] in rest;
        if t[j] != x {
          var k :| 0 <= k < |s[1..]| && s[1..][k] == t[j];
          assert s[k + 1] == t[j];
        }
      } else {
        assert t[i] == rest[i - 1] && t[j] == rest[j - 1];
      }
    }
  }

  /**
    A descending sort by `key`. The contract fixes the multiset and the order
    of keys but not the relative order of elements with equal keys: pandas
    sorts with an unstable algorithm.
  */
  function SortDesc<T>(s: seq<T>, key: T -> real): (r: seq<T>)
    ensures SortedDesc(r, key)
    ensures multiset(r) == multiset(s)
  {
    if s == [] then []
    else
      assert s == [s[0]] + s[1..];
      Insert(s[0], SortDesc(s[1..], key), key)
  }

  /** pandas `head(n)`: the first n elements, or for negative n all but the last -n. */
  function Head<T>(s: seq<T>, n: int): (r: seq<T>)
    ensures |r| <= |s| && r == s[..|r|]
    ensures n >= 0 ==> |r| == Min(n, |s|)
    ensures n < 0 ==> |r| == Max(0, |s| + n)
  {
    if n >= 0 then s[..Min(n, |s|)] else s[..Max(0, |s| + n)]
  }

  /** A prefix of a descending sequence is descending. */
  lemma PrefixSorted<T>(s: seq<T>, k: nat, key: T -> real)
    requires SortedDesc(s, key)
    requires k <= |s|
    ensures SortedDesc(s[..k], key)
  {
  }

  /**
    Every element that a prefix of a descending sequence leaves out ranks no
    higher than any element it keeps.
  */
  lemma PrefixDominates<T>(s: seq<T>, k: nat, key: T -> real)
    requires SortedDesc(s, key)
    requires k <= |s|
    ensures forall x, y | x in multiset(s) - multiset(s[..k]) && y in s[..k] :: key(x) <= key(y)
  {
    assert s == s[..k] + s[k..];
    assert multiset(s) - multiset(s[..k]) == multiset(s[k..]);
    forall x, y | x in multiset(s[k..]) && y in s[..k]
      ensures key(x) <= key(y)
    {
      assert x in s[k..];
      var j :| 0 <= j < |s[k..]| && s[k..][j] == x;
      var i :| 0 <= i < k && s[..k][i] == y;
      assert s[i] == y && s[k + j] == x;
    }
  }

  /**
    The first n elements of `s` by `key`, largest first: the rows pandas
    returns for `sort_values(key, ascending=False).head(n)`.
  */
  function TopN<T>(s: seq<T>, n: int, key: T -> real): (r: seq<T>)
    ensures SortedDesc(r, key)
    ensures multiset(r) <= multiset(s)
    ensures n >= 0 ==> |r| == Min(n, |s|)
    ensures n < 0 ==> |r| == Max(0, |s| + n)
    ensures forall x, y | x in multiset(s) - multiset(r) && y in r :: key(x) <= key(y)
  {
    var sorted := SortDesc(s, key);
    var r := Head(sorted, n);
    PrefixSorted(sorted, |r|, key);
    PrefixDominates(sorted, |r|, key);
    assert sorted == r + sorted[|r|..];
    r
  }
}
