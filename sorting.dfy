/** `Array.prototype.sort` with a comparator that orders by a key: a stable
    insertion sort, since ECMAScript requires `sort` to be stable (section
    23.1.3.30 of ECMA-262, 2019 edition onwards). Keys are pairs compared
    lexicographically, which covers every comparator the client uses
    (one numeric field, or a flag and then a number). */
module Sorting {

  datatype Rank = Rank(major: int, minor: int)

  predicate RankLe(a: Rank, b: Rank) {
    a.major < b.major || (a.major == b.major && a.minor <= b.minor)
  }

  predicate SortedBy<T>(s: seq<T>, key: T -> Rank) {
    forall i, j :: 0 <= i < j < |s| ==> RankLe(key(s[i]), key(s[j]))
  }

  /** Insert `x` before the first element it does not rank after. */
  function Insert<T>(x: T, s: seq<T>, key: T -> Rank): (r: seq<T>)
    requires SortedBy(s, key)
    ensures SortedBy(r, key)
    ensures multiset(r) == multiset(s) + multiset{x}
    ensures |r| == |s| + 1
    ensures forall i :: 0 <= i < |r| ==> r[i] == x || r[i] in s
  {
    if s == [] then [x]
    else if RankLe(key(x), key(s[0])) then [x] + s
    else
      var rest := Insert(x, s[1..], key);
      ConsBelowRest(x, s, rest, key);
      [s[0]] + rest
  }

  /** The step of `Insert` that keeps the head: the head ranks no later than
      anything inserted behind it. */
  lemma ConsBelowRest<T>(x: T, s: seq<T>, rest: seq<T>, key: T -> Rank)
    requires s != [] && SortedBy(s, key) && !RankLe(key(x), key(s[0]))
    requires SortedBy(rest, key) && multiset(rest) == multiset(s[1..]) + multiset{x}
    requires forall i :: 0 <= i < |rest| ==> rest[i] == x || rest[i] in s[1..]
    ensures SortedBy([s[0]] + rest, key)
    ensures multiset([s[0]] + rest) == multiset(s) + multiset{x}
    ensures forall i :: 0 <= i < |rest| + 1 ==> ([s[0]] + rest)[i] == x || ([s[0]] + rest)[i] in s
  {
    assert s == [s[0]] + s[1..];
    var r := [s[0]] + rest;
    forall i, j | 0 <= i < j < |r| ensures RankLe(key(r[i]), key(r[j])) {
      assert r[j] == rest[j - 1];
      if i == 0 {
        if rest[j - 1] != x {
          var k :| 0 <= k < |s[1..]| && s[1..][k] == rest[j - 1];
          assert s[k + 1] == rest[j - 1];
        }
      } else {
        assert r[i] == rest[i - 1];
      }
    }
    forall i | 0 <= i < |r| ensures r[i] == x || r[i] in s {
      if i > 0 {
        assert r[i] == rest[i - 1];
      }
    }
  }

  /** The sorted copy: ordered by key and a permutation of the input. */
  function SortBy<T>(s: seq<T>, key: T -> Rank): (r: seq<T>)
    ensures SortedBy(r, key)
    ensures multiset(r) == multiset(s)
    ensures |r| == |s|
  {
    if s == [] then []
    else
      assert s == [s[0]] + s[1..];
      Insert(s[0], SortBy(s[1..], key), key)
  }

  /** Sorting by equal keys keeps the input order (the comparator `() => 0`). */
  lemma {:induction false} SortByConstant<T>(s: seq<T>, key: T -> Rank)
    requires forall i, j :: 0 <= i < |s| && 0 <= j < |s| ==> key(s[i]) == key(s[j])
    ensures SortBy(s, key) == s
  {
    if s != [] {
      var tail := s[1..];
      assert forall i, j :: 0 <= i < |tail| && 0 <= j < |tail| ==> key(tail[i]) == key(tail[j]) by {
        forall i, j | 0 <= i < |tail| && 0 <= j < |tail| ensures key(tail[i]) == key(tail[j]) {
          assert tail[i] == s[i + 1] && tail[j] == s[j + 1];
        }
      }
      SortByConstant(tail, key);
      if tail != [] {
        assert key(s[0]) == key(s[1]);
      }
    }
  }
}
