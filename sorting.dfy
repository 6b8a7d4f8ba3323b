/**
 * `Array.prototype.sort` with a comparator of the form
 * `(a, b) => key(b) - key(a)`: a stable sort into non-increasing key order.
 * ECMAScript 2019 and later require `sort` to be stable, so elements with
 * equal keys keep their input order. The inputs of the comparators in this
 * repository are integers here, so the subtraction never overflows or
 * yields NaN.
 */
module Sorting {

  /** Non-increasing by `key`, which is what a descending comparator yields. */
  ghost predicate SortedDesc<T>(s: seq<T>, key: T -> int) {
    forall i, j :: 0 <= i < j < |s| ==> key(s[i]) >= key(s[j])
  }

  /** Insert `x` before the first element whose key is not larger than its own. */
  function InsertDesc<T>(x: T, s: seq<T>, key: T -> int): (r: seq<T>)
    decreases |s|
  {
    if s == [] then [x]
    else if key(x) >= key(s[0]) then [x] + s
    else [s[0]] + InsertDesc(x, s[1..], key)
  }

  /** Insertion sort, descending by `key`; the head goes before the equal keys of the tail. */
  function SortDesc<T>(s: seq<T>, key: T -> int): (r: seq<T>)
    decreases |s|
  {
    if s == [] then [] else InsertDesc(s[0], SortDesc(s[1..], key), key)
  }

  lemma {:induction false} InsertDescPermutes<T>(x: T, s: seq<T>, key: T -> int)
    ensures multiset(InsertDesc(x, s, key)) == multiset(s) + multiset{x}
    ensures |InsertDesc(x, s, key)| == |s| + 1
    decreases |s|
  {
    if s != [] && key(x) < key(s[0]) {
      InsertDescPermutes(x, s[1..], key);
      assert s == [s[0]] + s[1..];
    }
  }

  /** Inserting an element no larger than a bound keeps every key within the bound. */
  lemma InsertDescBelow<T>(x: T, s: seq<T>, key: T -> int, b: int)
    requires key(x) <= b
    requires forall i :: 0 <= i < |s| ==> key(s[i]) <= b
    ensures forall j :: 0 <= j < |InsertDesc(x, s, key)| ==> key(InsertDesc(x, s, key)[j]) <= b
  {
    var t := InsertDesc(x, s, key);
    InsertDescPermutes(x, s, key);
    forall j | 0 <= j < |t|
      ensures key(t[j]) <= b
    {
      assert t[j] in multiset(t);
      if t[j] != x {
        assert t[j] in multiset(s);
        var k :| 0 <= k < |s| && s[k] == t[j];
      }
    }
  }

  lemma {:induction false} InsertDescSorted<T>(x: T, s: seq<T>, key: T -> int)
    requires SortedDesc(s, key)
    ensures SortedDesc(InsertDesc(x, s, key), key)
    ensures InsertDesc(x, s, key) != []
    ensures InsertDesc(x, s, key)[0] == x || (s != [] && InsertDesc(x, s, key)[0] == s[0])
    decreases |s|
  {
    if s != [] && key(x) < key(s[0]) {
      var rest := s[1..];
      assert SortedDesc(rest, key);
      InsertDescSorted(x, rest, key);
      InsertDescBelow(x, rest, key, key(s[0]));
      var t := InsertDesc(x, rest, key);
      assert InsertDesc(x, s, key) == [s[0]] + t;
    }
  }

  /** The sort returns a rearrangement of its input. */
  lemma {:induction false} SortDescPermutes<T>(s: seq<T>, key: T -> int)
    ensures multiset(SortDesc(s, key)) == multiset(s)
    ensures |SortDesc(s, key)| == |s|
    decreases |s|
  {
    if s != [] {
      SortDescPermutes(s[1..], key);
      InsertDescPermutes(s[0], SortDesc(s[1..], key), key);
      assert s == [s[0]] + s[1..];
    }
  }

  /** The sort returns its input in non-increasing key order. */
  lemma {:induction false} SortDescSorted<T>(s: seq<T>, key: T -> int)
    ensures SortedDesc(SortDesc(s, key), key)
    decreases |s|
  {
    if s != [] {
      SortDescSorted(s[1..], key);
      InsertDescSorted(s[0], SortDesc(s[1..], key), key);
    }
  }

  /** A list already in non-increasing order is left as it is (stability). */
  lemma {:induction false} SortDescOfSorted<T>(s: seq<T>, key: T -> int)
    requires SortedDesc(s, key)
    ensures SortDesc(s, key) == s
    decreases |s|
  {
    if s != [] {
      assert SortedDesc(s[1..], key);
      SortDescOfSorted(s[1..], key);
      assert s == [s[0]] + s[1..];
    }
  }

  /** `s.slice(0, n)`. */
  function Take<T>(s: seq<T>, n: nat): (r: seq<T>)
    ensures |r| <= n && |r| <= |s|
    ensures |r| == if |s| <= n then |s| else n
    ensures r == s[..|r|]
  {
    if |s| <= n then s else s[..n]
  }

  lemma TakeSorted<T>(s: seq<T>, n: nat, key: T -> int)
    requires SortedDesc(s, key)
    ensures SortedDesc(Take(s, n), key)
  {
  }

  /** The elements after position `m` of a non-increasing list rank no higher than those before it. */
  lemma RestRanksLower<T>(r: seq<T>, m: nat, key: T -> int)
    requires SortedDesc(r, key) && m <= |r|
    ensures forall x, i :: x in multiset(r[m..]) && 0 <= i < m ==> key(x) <= key(r[i])
  {
    forall x, i | x in multiset(r[m..]) && 0 <= i < m
      ensures key(x) <= key(r[i])
    {
      var k :| 0 <= k < |r[m..]| && r[m..][k] == x;
      assert r[m + k] == x;
    }
  }

  /** What a prefix leaves out of a list is the rest of the list. */
  lemma PrefixRest<T>(r: seq<T>, m: nat)
    requires m <= |r|
    ensures multiset(r) - multiset(r[..m]) == multiset(r[m..])
    ensures multiset(r[..m]) <= multiset(r)
  {
    assert r == r[..m] + r[m..];
  }

  /**
   * `sort(...).slice(0, n)` picks a top n: an ordered sub-multiset of the
   * input such that everything left out ranks no higher than anything kept.
   */
  lemma TopOfSortDesc<T>(s: seq<T>, n: nat, key: T -> int)
    ensures SortedDesc(Take(SortDesc(s, key), n), key)
    ensures multiset(Take(SortDesc(s, key), n)) <= multiset(s)
    ensures |Take(SortDesc(s, key), n)| == if |s| <= n then |s| else n
    ensures forall x, i :: x in multiset(s) - multiset(Take(SortDesc(s, key), n)) &&
                           0 <= i < |Take(SortDesc(s, key), n)| ==>
                           key(x) <= key(Take(SortDesc(s, key), n)[i])
  {
    var r := SortDesc(s, key);
    SortDescPermutes(s, key);
    SortDescSorted(s, key);
    var t := Take(r, n);
    PrefixRest(r, |t|);
    RestRanksLower(r, |t|, key);
  }
}
