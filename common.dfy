/** Value types and sequence/set helpers shared by the backend and the client model. */
module Common {

  datatype Option<+T> = None | Some(value: T)

  /** What a client sees of a remote call: a failure carrying the message it
      records, or success with the decoded reply. */
  datatype Remote<+T> = Failed(message: string) | Succeeded(data: T)

  /** The reply of a backend handler: an HTTP status with a JSON body or with an
      error message. */
  datatype Reply<+T> = Ok(status: int, body: T) | Err(status: int, message: string)

  /** JavaScript truthiness of an optional string: absent, null and "" are falsy. */
  predicate TruthyText(s: Option<string>) {
    s.Some? && s.value != ""
  }

  /** JavaScript truthiness of an optional number: absent, null and 0 are falsy. */
  predicate TruthyNumber(n: Option<int>) {
    n.Some? && n.value != 0
  }

  /** `s || fallback` on a string. */
  function TextOr(s: Option<string>, fallback: string): string {
    if TruthyText(s) then s.value else fallback
  }

  /** `n || fallback` on a number. */
  function NumberOr(n: Option<int>, fallback: int): int {
    if TruthyNumber(n) then n.value else fallback
  }

  /** `Array.prototype.filter`. */
  function Filter<T>(s: seq<T>, p: T -> bool): (r: seq<T>)
    ensures |r| <= |s|
    ensures forall i :: 0 <= i < |r| ==> r[i] in s && p(r[i])
    ensures forall i :: 0 <= i < |s| && p(s[i]) ==> s[i] in r
  {
    if s == [] then []
    else
      assert s == [s[0]] + s[1..];
      if p(s[0]) then [s[0]] + Filter(s[1..], p) else Filter(s[1..], p)
  }

  /** Filtering distributes over concatenation, so the kept elements stay in
      their original order. */
  lemma {:induction false} FilterConcat<T>(a: seq<T>, b: seq<T>, p: T -> bool)
    ensures Filter(a + b, p) == Filter(a, p) + Filter(b, p)
  {
    if a != [] {
      var t := a[1..];
      assert a + b == [a[0]] + (t + b);
      FilterConcat(t, b, p);
      if p(a[0]) {
        assert Filter(a + b, p) == [a[0]] + Filter(t + b, p);
        assert Filter(a, p) == [a[0]] + Filter(t, p);
      }
    } else {
      assert a + b == b;
    }
  }

  /** Filtering one element keeps it exactly when it passes. */
  lemma FilterOne<T>(x: T, p: T -> bool)
    ensures Filter([x], p) == if p(x) then [x] else []
  {
    assert [x][1..] == [];
  }

  /** A filter that every element passes changes nothing. */
  lemma {:induction false} FilterAllPass<T>(s: seq<T>, p: T -> bool)
    requires forall i :: 0 <= i < |s| ==> p(s[i])
    ensures Filter(s, p) == s
  {
    if s != [] {
      FilterAllPass(s[1..], p);
    }
  }

  /** A filter that no element passes leaves nothing. */
  lemma {:induction false} FilterNonePass<T>(s: seq<T>, p: T -> bool)
    requires forall i :: 0 <= i < |s| ==> !p(s[i])
    ensures Filter(s, p) == []
  {
    if s != [] {
      FilterNonePass(s[1..], p);
    }
  }

  /** When exactly the element at `i` fails the predicate, filtering deletes
      that one position. */
  lemma {:induction false} FilterDropsOne<T>(s: seq<T>, i: int, p: T -> bool)
    requires 0 <= i < |s| && !p(s[i])
    requires forall k :: 0 <= k < |s| && k != i ==> p(s[k])
    ensures Filter(s, p) == s[..i] + s[i + 1..]
  {
    var tail := s[1..];
    if i == 0 {
      forall k | 0 <= k < |tail| ensures p(tail[k]) {
        assert tail[k] == s[k + 1];
      }
      FilterAllPass(tail, p);
      assert Filter(s, p) == Filter(tail, p);
    } else {
      forall k | 0 <= k < |tail| && k != i - 1 ensures p(tail[k]) {
        assert tail[k] == s[k + 1];
      }
      FilterDropsOne(tail, i - 1, p);
      assert p(s[0]);
      assert Filter(s, p) == [s[0]] + Filter(tail, p);
      assert s[..i] == [s[0]] + tail[..i - 1];
      assert s[i + 1..] == tail[i..];
    }
  }

  /** Filtering twice with the same predicate is filtering once. */
  lemma {:induction false} FilterIdempotent<T>(s: seq<T>, p: T -> bool)
    ensures Filter(Filter(s, p), p) == Filter(s, p)
  {
    var r := Filter(s, p);
    assert forall i :: 0 <= i < |r| ==> p(r[i]) by {
      forall i | 0 <= i < |r| ensures p(r[i]) {
        assert r[i] in r;
      }
    }
    FilterAllPass(r, p);
  }

  predicate Pairwise<T>(s: seq<T>, rel: (T, T) -> bool) {
    forall i, j :: 0 <= i < j < |s| ==> rel(s[i], s[j])
  }

  /** A relation that holds between every earlier and later element still holds
      after filtering (filtering keeps relative order). */
  lemma {:induction false} FilterKeepsPairwise<T>(s: seq<T>, p: T -> bool, rel: (T, T) -> bool)
    requires Pairwise(s, rel)
    ensures Pairwise(Filter(s, p), rel)
  {
    if s != [] {
      var tail := s[1..];
      SplitPairwise(s, rel);
      FilterKeepsPairwise(tail, p, rel);
      if p(s[0]) {
        var rt := Filter(tail, p);
        assert forall y :: y in rt ==> rel(s[0], y) by {
          forall y | y in rt ensures rel(s[0], y) {
            var k :| 0 <= k < |rt| && rt[k] == y;
            assert rt[k] in tail;
          }
        }
        ConsPairwise(s[0], rt, rel);
      }
    }
  }

  /** The tail of a pairwise-related sequence is pairwise related, and its
      head is related to every later element. */
  lemma SplitPairwise<T>(s: seq<T>, rel: (T, T) -> bool)
    requires s != [] && Pairwise(s, rel)
    ensures Pairwise(s[1..], rel)
    ensures forall y :: y in s[1..] ==> rel(s[0], y)
  {
    var tail := s[1..];
    forall i, j | 0 <= i < j < |tail| ensures rel(tail[i], tail[j]) {
      assert tail[i] == s[i + 1] && tail[j] == s[j + 1];
    }
    forall y | y in tail ensures rel(s[0], y) {
      var k :| 0 <= k < |tail| && tail[k] == y;
      assert s[k + 1] == y;
    }
  }

  /** Putting in front an element related to every later one keeps a sequence
      pairwise related. */
  lemma ConsPairwise<T>(x: T, s: seq<T>, rel: (T, T) -> bool)
    requires Pairwise(s, rel) && forall y :: y in s ==> rel(x, y)
    ensures Pairwise([x] + s, rel)
  {
    var r := [x] + s;
    forall i, j | 0 <= i < j < |r| ensures rel(r[i], r[j]) {
      assert r[j] == s[j - 1];
      if i > 0 {
        assert r[i] == s[i - 1];
      }
    }
  }

  /** `Array.prototype.findIndex`: the first index whose element satisfies `p`,
      or -1 when there is none. */
  function FirstIndex<T>(s: seq<T>, p: T -> bool): (i: int)
    ensures -1 <= i < |s|
    ensures i == -1 <==> forall k :: 0 <= k < |s| ==> !p(s[k])
    ensures 0 <= i ==> p(s[i]) && forall k :: 0 <= k < i ==> !p(s[k])
  {
    if s == [] then -1
    else if p(s[0]) then 0
    else
      var j := FirstIndex(s[1..], p);
      if j == -1 then -1 else j + 1
  }

  /** `Array.prototype.slice(0, n)` for n >= 0. */
  function Take<T>(s: seq<T>, n: nat): (r: seq<T>)
    ensures |r| == if n <= |s| then n else |s|
    ensures r == s[..|r|]
  {
    if n <= |s| then s[..n] else s
  }

  /** A toggle on a `Set`: delete the element when present, add it otherwise. */
  function Flip<T>(s: set<T>, x: T): (r: set<T>)
    ensures x in r <==> x !in s
    ensures forall y :: y in s && y != x ==> y in r
    ensures forall y :: y in r && y != x ==> y in s
  {
    if x in s then s - {x} else s + {x}
  }

  /** Toggling twice restores the set. */
  lemma FlipTwice<T>(s: set<T>, x: T)
    ensures Flip(Flip(s, x), x) == s
  {
  }

  /** `Array.prototype.splice(index, 1)` on a copy: JavaScript counts a negative
      index from the end and removes nothing at an index past the end. */
  function SpliceOne<T>(s: seq<T>, index: int): (r: seq<T>)
    ensures 0 <= index < |s| ==> |r| == |s| - 1
    ensures 0 <= index < |s| ==> forall k :: 0 <= k < |r| ==> r[k] == if k < index then s[k] else s[k + 1]
    ensures index >= |s| ==> r == s
    ensures index < 0 && s != [] ==> |r| == |s| - 1
  {
    var start := if index < 0 then (if |s| + index < 0 then 0 else |s| + index) else index;
    if start < |s| then s[..start] + s[start + 1..] else s
  }
}
