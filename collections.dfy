/** The collections page: the category-and-search filter, the sorted copy, the
    featured strip and the liked set, over a fixed list of collections. */
module Collections {
  import opened Common
  import opened Strings
  import opened Sorting

  datatype Collection = Collection(id: int, title: string, description: string, category: string,
                                   featured: bool, artist: string, likes: int)

  predicate MatchesCategory(c: Collection, selected: string) {
    selected == "All" || c.category == selected
  }

  /** The search of lines 144-146, the query lower-cased like the fields. */
  predicate MatchesSearch(c: Collection, query: string) {
    var q := ToLower(query);
    Includes(ToLower(c.title), q) || Includes(ToLower(c.description), q) || Includes(ToLower(c.artist), q)
  }

  /** `filteredCollections`, in data order. */
  function Filtered(data: seq<Collection>, selected: string, query: string): (r: seq<Collection>)
    ensures forall i :: 0 <= i < |r| ==> r[i] in data && MatchesCategory(r[i], selected) && MatchesSearch(r[i], query)
    ensures forall i :: 0 <= i < |data| && MatchesCategory(data[i], selected) && MatchesSearch(data[i], query) ==> data[i] in r
  {
    Filter(data, (c: Collection) => MatchesCategory(c, selected) && MatchesSearch(c, query))
  }

  /** An empty query hides nothing, and the search ignores the case of the
      query and of the fields. */
  lemma SearchIgnoresCase(c: Collection, query: string)
    ensures MatchesSearch(c, "")
    ensures MatchesSearch(c, query) <==> MatchesSearch(c, ToLower(query))
    ensures MatchesSearch(c, query) <==> MatchesSearch(c.(title := ToLower(c.title), description := ToLower(c.description),
                                                         artist := ToLower(c.artist)), query)
  {
    IncludesEmpty(ToLower(c.title));
    ToLowerIsLower(query);
    ToLowerIsLower(ToLower(query));
    ToLowerIsLower(ToLower(c.title));
    ToLowerIsLower(ToLower(c.description));
    ToLowerIsLower(ToLower(c.artist));
  }

  /** With no category chosen and no query, every collection is listed, in
      data order. */
  lemma NothingFilteredByDefault(data: seq<Collection>)
    ensures Filtered(data, "All", "") == data
  {
    forall c ensures MatchesCategory(c, "All") && MatchesSearch(c, "") {
      SearchIgnoresCase(c, "");
    }
    FilterAllPass(data, (c: Collection) => MatchesCategory(c, "All") && MatchesSearch(c, ""));
  }

  /** The comparator of lines 150-163 as a key. 'a-z' compares titles with
      the locale's collation, given here as a rank on titles. */
  function SortKey(sortBy: string, collate: string -> int, c: Collection): Rank {
    if sortBy == "featured" then Rank(if c.featured then -1 else 0, -c.likes)
    else if sortBy == "popular" then Rank(-c.likes, 0)
    else if sortBy == "newest" then Rank(-c.id, 0)
    else if sortBy == "a-z" then Rank(collate(c.title), 0)
    else Rank(0, 0)
  }

  function Key(sortBy: string, collate: string -> int): Collection -> Rank {
    (c: Collection) => SortKey(sortBy, collate, c)
  }

  /** `sortedCollections`: a reordered copy of the filtered list. */
  function Sorted(filtered: seq<Collection>, sortBy: string, collate: string -> int): (r: seq<Collection>)
    ensures multiset(r) == multiset(filtered)
    ensures sortBy == "popular" ==> forall i, j :: 0 <= i < j < |r| ==> r[i].likes >= r[j].likes
    ensures sortBy == "newest" ==> forall i, j :: 0 <= i < j < |r| ==> r[i].id >= r[j].id
    ensures sortBy == "featured" ==> forall i, j :: 0 <= i < j < |r| ==>
      (r[j].featured ==> r[i].featured) && (r[i].featured == r[j].featured ==> r[i].likes >= r[j].likes)
    ensures sortBy == "a-z" ==> forall i, j :: 0 <= i < j < |r| ==> collate(r[i].title) <= collate(r[j].title)
  {
    var r := SortBy(filtered, Key(sortBy, collate));
    forall i, j | 0 <= i < j < |r| ensures RankLe(SortKey(sortBy, collate, r[i]), SortKey(sortBy, collate, r[j])) {
      assert RankLe(Key(sortBy, collate)(r[i]), Key(sortBy, collate)(r[j]));
    }
    r
  }

  /** The featured strip: the first three featured collections in data order. */
  function FeaturedStrip(data: seq<Collection>): (r: seq<Collection>)
    ensures |r| <= 3
    ensures forall i :: 0 <= i < |r| ==> r[i].featured && r[i] in data
    ensures var all := Filter(data, (c: Collection) => c.featured);
      |r| == (if |all| < 3 then |all| else 3) && r == all[..|r|]
  {
    Take(Filter(data, (c: Collection) => c.featured), 3)
  }

  /** Line 403: the likes shown, one more while the visitor likes it. */
  function ShownLikes(c: Collection, liked: set<int>): (r: int)
    ensures c.id in liked ==> r == c.likes + 1
    ensures c.id !in liked ==> r == c.likes
  {
    c.likes + (if c.id in liked then 1 else 0)
  }

  /** A like moves the shown count of that collection by exactly one, up or
      down, and of no other; a second like undoes the first. */
  lemma LikeMovesOneCount(c: Collection, d: Collection, liked: set<int>)
    ensures ShownLikes(c, Flip(liked, c.id)) == ShownLikes(c, liked) + (if c.id in liked then -1 else 1)
    ensures d.id != c.id ==> ShownLikes(d, Flip(liked, c.id)) == ShownLikes(d, liked)
    ensures Flip(Flip(liked, c.id), c.id) == liked
  {
    FlipTwice(liked, c.id);
  }

  class CollectionsState {
    var liked: set<int>

    constructor ()
      ensures liked == {}
    {
      liked := {};
    }

    /** `handleLike`. */
    method Like(id: int)
      modifies this
      ensures liked == Flip(old(liked), id)
      ensures id in liked <==> id !in old(liked)
    {
      liked := Flip(liked, id);
    }
  }
}
