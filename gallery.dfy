/** The gallery: its filter and sort pipeline over the loaded arts, the set of
    wishlisted ids it keeps locally, and its optimistic wishlist toggle. */
module Gallery {
  import opened Common
  import opened Models
  import opened Sorting
  import opened WishlistContext

  /** The fields of an art the gallery reads. It reads a single `category`,
      which stored arts do not have (they have `categories`). */
  datatype GalleryArt = GalleryArt(id: ArtId, category: Option<string>, price: Option<int>, createdAt: Option<int>)

  /** An art as the backend sends it. */
  function FromStored(a: Art): GalleryArt {
    GalleryArt(a.id, None, Some(a.price), Some(a.createdAt))
  }

  /** The filter and sort controls. */
  datatype Controls = Controls(category: string, low: int, high: int, sortBy: string)

  /** Lines 41-44: newest first, every category, prices 0 to 5000. */
  const InitialControls := Controls("all", 0, 5000, "newest")

  /** Lines 275-278: "Reset Filters" restores the category and the price range
      and keeps the sort order. */
  function Reset(c: Controls): (r: Controls)
    ensures r.category == "all" && r.low == 0 && r.high == 5000 && r.sortBy == c.sortBy
  {
    c.(category := "all", low := 0, high := 5000)
  }

  function PriceOrZero(a: GalleryArt): int {
    NumberOr(a.price, 0)
  }

  function CreatedOrZero(a: GalleryArt): int {
    NumberOr(a.createdAt, 0)
  }

  predicate InCategory(a: GalleryArt, category: string) {
    category == "all" || (a.category.Some? && a.category.value == category)
  }

  predicate InRange(a: GalleryArt, low: int, high: int) {
    low <= PriceOrZero(a) <= high
  }

  predicate KnownOrder(sortBy: string) {
    sortBy == "price-low" || sortBy == "price-high" || sortBy == "newest" || sortBy == "oldest"
  }

  /** The comparator of lines 145-158 as a key; an unknown order compares
      everything as equal. */
  function SortKey(sortBy: string, a: GalleryArt): Rank {
    if sortBy == "price-low" then Rank(PriceOrZero(a), 0)
    else if sortBy == "price-high" then Rank(-PriceOrZero(a), 0)
    else if sortBy == "newest" then Rank(-CreatedOrZero(a), 0)
    else if sortBy == "oldest" then Rank(CreatedOrZero(a), 0)
    else Rank(0, 0)
  }

  /** The arts both filters keep, in loaded order. */
  function Kept(arts: seq<GalleryArt>, c: Controls): (r: seq<GalleryArt>)
    ensures forall x :: x in r <==> x in arts && InCategory(x, c.category) && InRange(x, c.low, c.high)
  {
    var byCategory := Filter(arts, (a: GalleryArt) => InCategory(a, c.category));
    var r := Filter(byCategory, (a: GalleryArt) => InRange(a, c.low, c.high));
    assert forall x :: x in byCategory <==> x in arts && InCategory(x, c.category) by {
      forall x | x in arts && InCategory(x, c.category) ensures x in byCategory {
        var k :| 0 <= k < |arts| && arts[k] == x;
      }
    }
    assert forall x :: x in r <==> x in byCategory && InRange(x, c.low, c.high) by {
      forall x | x in byCategory && InRange(x, c.low, c.high) ensures x in r {
        var k :| 0 <= k < |byCategory| && byCategory[k] == x;
      }
    }
    r
  }

  /** `filteredAndSortedArts`: exactly the kept arts, each as often as it was
      kept, ordered by the chosen key, ties (and an unknown order) keeping the
      loaded order. */
  function Visible(arts: seq<GalleryArt>, c: Controls): (r: seq<GalleryArt>)
    ensures multiset(r) == multiset(Kept(arts, c))
    ensures forall x :: x in r <==> x in arts && InCategory(x, c.category) && InRange(x, c.low, c.high)
    ensures c.sortBy == "price-low" ==> forall i, j :: 0 <= i < j < |r| ==> PriceOrZero(r[i]) <= PriceOrZero(r[j])
    ensures c.sortBy == "price-high" ==> forall i, j :: 0 <= i < j < |r| ==> PriceOrZero(r[i]) >= PriceOrZero(r[j])
    ensures c.sortBy == "newest" ==> forall i, j :: 0 <= i < j < |r| ==> CreatedOrZero(r[i]) >= CreatedOrZero(r[j])
    ensures c.sortBy == "oldest" ==> forall i, j :: 0 <= i < j < |r| ==> CreatedOrZero(r[i]) <= CreatedOrZero(r[j])
    ensures !KnownOrder(c.sortBy) ==> r == Kept(arts, c)
  {
    var kept := Kept(arts, c);
    var r := SortBy(kept, Key(c.sortBy));
    SameMembers(r, kept);
    KeyOrder(r, c.sortBy);
    if KnownOrder(c.sortBy) then r
    else
      SortByConstant(kept, Key(c.sortBy));
      r
  }

  function Key(sortBy: string): GalleryArt -> Rank {
    (a: GalleryArt) => SortKey(sortBy, a)
  }

  lemma SameMembers(r: seq<GalleryArt>, s: seq<GalleryArt>)
    requires multiset(r) == multiset(s)
    ensures forall x :: x in r <==> x in s
  {
    forall x ensures x in r <==> x in s {
      assert x in r <==> x in multiset(r);
      assert x in s <==> x in multiset(s);
    }
  }

  /** What ordering by each key means for the fields it reads. */
  lemma KeyOrder(r: seq<GalleryArt>, sortBy: string)
    requires SortedBy(r, Key(sortBy))
    ensures sortBy == "price-low" ==> forall i, j :: 0 <= i < j < |r| ==> PriceOrZero(r[i]) <= PriceOrZero(r[j])
    ensures sortBy == "price-high" ==> forall i, j :: 0 <= i < j < |r| ==> PriceOrZero(r[i]) >= PriceOrZero(r[j])
    ensures sortBy == "newest" ==> forall i, j :: 0 <= i < j < |r| ==> CreatedOrZero(r[i]) >= CreatedOrZero(r[j])
    ensures sortBy == "oldest" ==> forall i, j :: 0 <= i < j < |r| ==> CreatedOrZero(r[i]) <= CreatedOrZero(r[j])
  {
    forall i, j | 0 <= i < j < |r| ensures RankLe(SortKey(sortBy, r[i]), SortKey(sortBy, r[j])) {
      assert RankLe(Key(sortBy)(r[i]), Key(sortBy)(r[j]));
    }
  }

  /** Because stored arts have no `category`, choosing any category other
      than 'all' empties the gallery of arts loaded from the backend. */
  lemma StoredArtsMatchNoCategory(arts: seq<Art>, c: Controls)
    requires c.category != "all"
    ensures Visible(seq(|arts|, i requires 0 <= i < |arts| => FromStored(arts[i])), c) == []
  {
    var loaded := seq(|arts|, i requires 0 <= i < |arts| => FromStored(arts[i]));
    forall x | x in loaded ensures !InCategory(x, c.category) {
      var k :| 0 <= k < |loaded| && loaded[k] == x;
      assert x == FromStored(arts[k]);
    }
    var r := Visible(loaded, c);
    assert forall x :: x !in r;
  }

  /** Lines 53-57: `new Set(wishlist.map(item => item._id || item))` — the ids
      of populated entries and the bare ids alike. */
  function LocalWishlist(list: seq<WishEntry>): (r: set<ArtId>)
    ensures forall a :: a in r <==> exists k :: 0 <= k < |list| && list[k].id == a
  {
    set k | 0 <= k < |list| :: list[k].id
  }

  /** The gallery recognises every art the context recognises, and also the
      bare ids of an add or remove reply, which the context does not. */
  lemma LocalWishlistRecognisesMore(list: seq<WishEntry>, ids: seq<ArtId>, art: ArtId)
    ensures IsInWishlist(list, art) ==> art in LocalWishlist(list)
    ensures art in LocalWishlist(BareIds(ids)) <==> art in ids
  {
    var bare := BareIds(ids);
    if art in ids {
      var k :| 0 <= k < |ids| && ids[k] == art;
      assert bare[k].id == art;
    }
  }

  class GalleryState {
    var controls: Controls
    var localWishlist: set<ArtId>
    var processing: map<ArtId, bool>

    constructor ()
      ensures controls == InitialControls && localWishlist == {} && processing == map[]
    {
      controls, localWishlist, processing := InitialControls, {}, map[];
    }

    /** The effect that runs when the context's wishlist changes. */
    method Sync(list: seq<WishEntry>)
      modifies this
      ensures localWishlist == LocalWishlist(list)
      ensures controls == old(controls) && processing == old(processing)
    {
      localWishlist := LocalWishlist(list);
    }

    /** `handleWishlistToggle` up to the request: ignored while the art is
        processing; otherwise the art is marked and its membership flipped.
        `removing` tells which context call follows. */
    method BeginToggle(art: ArtId) returns (started: bool, removing: bool)
      modifies this
      ensures started <==> !(art in old(processing) && old(processing)[art])
      ensures !started ==> unchanged(this)
      ensures started ==> && removing == (art in old(localWishlist))
                          && localWishlist == Flip(old(localWishlist), art)
                          && processing == old(processing)[art := true]
                          && controls == old(controls)
    {
      if art in processing && processing[art] {
        return false, false;
      }
      processing := processing[art := true];
      removing := art in localWishlist;
      localWishlist := Flip(localWishlist, art);
      started := true;
    }

    /** The catch and `finally`: a call that threw flips the art back; the
        processing mark is cleared either way. */
    method FinishToggle(art: ArtId, threw: bool)
      modifies this
      ensures localWishlist == if threw then Flip(old(localWishlist), art) else old(localWishlist)
      ensures processing == old(processing)[art := false] && controls == old(controls)
    {
      if threw {
        localWishlist := Flip(localWishlist, art);
      }
      processing := processing[art := false];
    }
  }
}
