/** The art details page: the image carousel's index arithmetic and the two
    related-art strips. */
module ArtDetails {
  import opened Common
  import opened Models

  /** JavaScript's `%` for a positive divisor: the remainder takes the sign of
      the dividend. */
  function JsRem(a: int, b: int): (r: int)
    requires b > 0
    ensures a >= 0 ==> 0 <= r < b
    ensures a < 0 ==> -b < r <= 0
    ensures (a - r) % b == 0
  {
    var n := if a >= 0 then a else -a;
    var q := n / b;
    assert n == q * b + n % b;
    if a >= 0 then
      MultipleMod(q, b);
      a % b
    else
      MultipleMod(-q, b);
      assert a - -(n % b) == (-q) * b;
      -(n % b)
  }

  /** A multiple of the divisor leaves no remainder. */
  lemma MultipleMod(q: int, b: int)
    requires b > 0
    ensures (q * b) % b == 0
  {
    var d, m := (q * b) / b, (q * b) % b;
    assert q * b == d * b + m && 0 <= m < b;
    var e := q - d;
    assert e * b == m by {
      assert e * b == q * b - d * b;
    }
  }

  /** The remainder of a number below twice the divisor. */
  lemma RemOnce(a: int, b: int)
    requires 0 <= a < 2 * b
    ensures a % b == if a < b then a else a - b
  {
    if a >= b {
      assert a == 1 * b + (a - b);
    }
  }

  /** `nextImage`: `(i + 1) % n`; with no images the result is `NaN`. */
  function NextImage(i: int, n: int): (r: Option<int>)
    ensures r.None? <==> n <= 0
    ensures n > 0 && 0 <= i < n ==> r.value == (if i == n - 1 then 0 else i + 1)
  {
    if n <= 0 then None
    else
      if 0 <= i < n then RemOnce(i + 1, n); Some(JsRem(i + 1, n))
      else Some(JsRem(i + 1, n))
  }

  /** `prevImage`: `(i - 1 + n) % n`. */
  function PrevImage(i: int, n: int): (r: Option<int>)
    ensures r.None? <==> n <= 0
    ensures n > 0 && 0 <= i < n ==> r.value == (if i == 0 then n - 1 else i - 1)
  {
    if n <= 0 then None
    else
      if 0 <= i < n then RemOnce(i - 1 + n, n); Some(JsRem(i - 1 + n, n))
      else Some(JsRem(i - 1 + n, n))
  }

  /** On a valid index the two buttons stay in range and undo each other. */
  lemma CarouselInverse(i: int, n: int)
    requires 0 <= i < n
    ensures 0 <= NextImage(i, n).value < n && 0 <= PrevImage(i, n).value < n
    ensures PrevImage(NextImage(i, n).value, n) == Some(i)
    ensures NextImage(PrevImage(i, n).value, n) == Some(i)
  {
  }

  /** The fields a listed art exposes here; `creator` is the populated
      `createdBy._id`, absent when the creator is missing. */
  datatype Listed = Listed(id: ArtId, creator: Option<UserId>)

  /** Lines 47-53: the first four other arts by the same creator, in list
      order; `None` when the art has no creator, in which case the strip is
      left as it was. */
  function SameArtist(arts: seq<Listed>, art: Listed): (r: Option<seq<Listed>>)
    ensures r.None? <==> art.creator.None?
    ensures r.Some? ==> |r.value| <= 4
    ensures r.Some? ==> forall i :: 0 <= i < |r.value| ==>
      r.value[i] in arts && r.value[i].creator == art.creator && r.value[i].id != art.id
    ensures r.Some? && |r.value| < 4 ==> forall i :: 0 <= i < |arts| && arts[i].creator == art.creator && arts[i].id != art.id ==>
      arts[i] in r.value
    ensures r.Some? ==> var all := Filter(arts, (a: Listed) => a.creator == art.creator && a.id != art.id);
      |r.value| == (if |all| < 4 then |all| else 4) && r.value == all[..|r.value|]
  {
    if art.creator.None? then None
    else
      var all := Filter(arts, (a: Listed) => a.creator == art.creator && a.id != art.id);
      var strip := Take(all, 4);
      assert |strip| < 4 ==> strip == all;
      Some(strip)
  }

  /** Lines 55-59: the first four arts, in list order, that are neither this
      art nor by its creator; two arts without a creator count as by the same
      creator. */
  function OtherArts(arts: seq<Listed>, art: Listed): (r: seq<Listed>)
    ensures |r| <= 4
    ensures forall i :: 0 <= i < |r| ==> r[i] in arts && r[i].id != art.id && r[i].creator != art.creator
    ensures |r| < 4 ==> forall i :: 0 <= i < |arts| && arts[i].id != art.id && arts[i].creator != art.creator ==> arts[i] in r
    ensures var all := Filter(arts, (a: Listed) => a.id != art.id && a.creator != art.creator);
      |r| == (if |all| < 4 then |all| else 4) && r == all[..|r|]
  {
    var all := Filter(arts, (a: Listed) => a.id != art.id && a.creator != art.creator);
    var strip := Take(all, 4);
    assert |strip| < 4 ==> strip == all;
    strip
  }

  /** The strips never show the same art twice, and neither shows the art
      itself: each is the first four, in list order, of one of two lists that
      share no art. */
  lemma StripsDisjoint(arts: seq<Listed>, art: Listed)
    requires art.creator.Some?
    ensures var sameAll := Filter(arts, (a: Listed) => a.creator == art.creator && a.id != art.id);
      var otherAll := Filter(arts, (a: Listed) => a.id != art.id && a.creator != art.creator);
      var same, other := SameArtist(arts, art).value, OtherArts(arts, art);
      same == sameAll[..|same|] && other == otherAll[..|other|] &&
      forall x :: x in sameAll ==> x !in otherAll
    ensures forall x :: x in SameArtist(arts, art).value ==> x !in OtherArts(arts, art)
    ensures |OtherArts(arts, art)| < 4 ==>
      forall i :: 0 <= i < |arts| && arts[i].id != art.id && arts[i].creator != art.creator ==> arts[i] in OtherArts(arts, art)
  {
    var same := SameArtist(arts, art).value;
    var other := OtherArts(arts, art);
    forall x | x in same ensures x !in other {
      var k :| 0 <= k < |same| && same[k] == x;
    }
    var sameAll := Filter(arts, (a: Listed) => a.creator == art.creator && a.id != art.id);
    var all := Filter(arts, (a: Listed) => a.id != art.id && a.creator != art.creator);
    forall x | x in sameAll ensures x !in all {
      var k :| 0 <= k < |sameAll| && sameAll[k] == x;
    }
    assert |other| < 4 ==> other == all;
  }
}
