/** The art controller: category normalisation on add and update, the filter
    and pagination of the public listing, the requester's own listings, and
    the owner-only update and delete. */
module ArtController {
  import opened Common
  import opened Strings
  import opened Sorting
  import opened Models
  import opened Store

  // ---------------------------------------------------------------------------
  // Category normalisation

  /** The `categories` field of a request body: absent, one comma-separated
      text (what a multipart form sends), or an array of texts. */
  datatype CategoryInput = NoCategories | CategoryText(text: string) | CategoryList(list: seq<string>)

  /** JavaScript truthiness of the field: an array is always truthy, a text
      unless it is empty. */
  predicate CategoriesGiven(c: CategoryInput) {
    match c
    case NoCategories => false
    case CategoryText(t) => t != ""
    case CategoryList(_) => true
  }

  /** Trimmed, lower case: what normalisation produces. */
  predicate IsClean(s: string) {
    IsTrimmed(s) && IsLower(s)
  }

  lemma AllClean(list: seq<string>)
    ensures forall i :: 0 <= i < |list| ==> IsClean(Clean(list[i]))
  {
    forall i | 0 <= i < |list| ensures IsClean(Clean(list[i])) {
      CleanIdempotent(list[i]);
    }
  }

  /** `list.map(cat => cat.trim().toLowerCase())`: same length and order, each
      entry cleaned. */
  function CleanAll(list: seq<string>): (r: seq<string>)
    ensures |r| == |list|
    ensures forall i :: 0 <= i < |r| ==> r[i] == Clean(list[i]) && IsClean(r[i])
  {
    AllClean(list);
    seq(|list|, i requires 0 <= i < |list| => Clean(list[i]))
  }

  /** Lines 12-16 (and 126-130): an array is cleaned entry by entry, a text is
      split on ',' first; a falsy value gives no categories. */
  function NormaliseCategories(c: CategoryInput): (r: seq<string>)
    ensures forall i :: 0 <= i < |r| ==> IsClean(r[i])
    ensures !CategoriesGiven(c) ==> r == []
    ensures c.CategoryList? ==> |r| == |c.list| && forall i :: 0 <= i < |r| ==> r[i] == Clean(c.list[i])
    ensures c.CategoryText? && c.text != "" ==>
      |r| == |Split(c.text, ',')| && forall i :: 0 <= i < |r| ==> r[i] == Clean(Split(c.text, ',')[i])
  {
    if !CategoriesGiven(c) then []
    else match c
      case CategoryList(list) => CleanAll(list)
      case CategoryText(text) => CleanAll(Split(text, ','))
  }

  /** Normalising an already normalised list returns it unchanged. */
  lemma NormaliseIdempotent(c: CategoryInput)
    ensures NormaliseCategories(CategoryList(NormaliseCategories(c))) == NormaliseCategories(c)
  {
    var r := NormaliseCategories(c);
    CleanAllOfClean(r);
    assert NormaliseCategories(CategoryList(r)) == CleanAll(r);
  }

  /** Cleaning a list of clean entries changes nothing. */
  lemma CleanAllOfClean(list: seq<string>)
    requires forall i :: 0 <= i < |list| ==> IsClean(list[i])
    ensures CleanAll(list) == list
  {
    forall i | 0 <= i < |list| ensures Clean(list[i]) == list[i] {
      CleanOfClean(list[i]);
    }
  }

  /** A list of clean, comma-free categories sent joined with ',' (as the manage
      page does) comes back unchanged, except for the list holding one empty
      category, which joins to the falsy "" and comes back empty. */
  lemma JoinedCategoriesRoundTrip(cats: seq<string>)
    requires forall i :: 0 <= i < |cats| ==> IsClean(cats[i]) && ',' !in cats[i]
    ensures NormaliseCategories(CategoryText(Join(cats, ','))) == if cats == [""] then [] else cats
  {
    var text := Join(cats, ',');
    JoinEmpty(cats, ',');
    if cats != [] && cats != [""] {
      assert text != "";
      SplitJoin(cats, ',');
      assert Split(text, ',') == cats;
      CleanAllOfClean(cats);
      assert NormaliseCategories(CategoryText(text)) == CleanAll(Split(text, ','));
    }
  }

  // ---------------------------------------------------------------------------
  // The listing: filter, sort, pagination

  /** Lines 42-44: a category other than a falsy one or 'all' restricts the
      listing to arts holding its lower-case form. */
  predicate MatchesCategory(a: Art, category: Option<string>) {
    TruthyText(category) && category.value != "all" ==> ToLower(category.value) in a.categories
  }

  function Matching(arts: seq<Art>, category: Option<string>): (r: seq<Art>)
    ensures forall i :: 0 <= i < |r| ==> r[i] in arts && MatchesCategory(r[i], category)
    ensures forall i :: 0 <= i < |arts| && MatchesCategory(arts[i], category) ==> arts[i] in r
    ensures !TruthyText(category) || category.value == "all" ==> r == arts
  {
    var r := Filter(arts, (a: Art) => MatchesCategory(a, category));
    if !TruthyText(category) || category.value == "all" then
      FilterAllPass(arts, (a: Art) => MatchesCategory(a, category));
      r
    else r
  }

  function NewestKey(a: Art): Rank {
    Rank(-a.createdAt, 0)
  }

  /** `.sort({ createdAt: -1 })`. */
  function Newest(arts: seq<Art>): (r: seq<Art>)
    ensures multiset(r) == multiset(arts)
    ensures forall i, j :: 0 <= i < j < |r| ==> r[i].createdAt >= r[j].createdAt
  {
    var r := SortBy(arts, NewestKey);
    assert forall i, j :: 0 <= i < j < |r| ==> RankLe(NewestKey(r[i]), NewestKey(r[j]));
    r
  }

  /** `.skip(skip).limit(limit)` for a skip that is not negative: a limit of 0
      means none, and a negative limit takes as many as its absolute value. */
  function Window(s: seq<Art>, skip: nat, limit: int): (r: seq<Art>)
    ensures |r| == if skip >= |s| then 0
                   else if limit == 0 || |s| - skip <= Abs(limit) then |s| - skip
                   else Abs(limit)
    ensures forall i :: 0 <= i < |r| ==> skip + i < |s| && r[i] == s[skip + i]
  {
    var rest := if skip >= |s| then [] else s[skip..];
    if limit == 0 then rest else Take(rest, Abs(limit))
  }

  function Abs(n: int): nat {
    if n < 0 then -n else n
  }

  /** `Math.ceil(total / limit)` as it reaches the JSON reply: a limit of 0 gives
      Infinity or NaN, both of which serialise as `null`. */
  function TotalPages(total: nat, limit: int): (r: Option<int>)
    ensures r.None? <==> limit == 0
    ensures limit > 0 ==> r.value >= 0 && r.value * limit >= total && (r.value - 1) * limit < total
    ensures limit < 0 ==> r.value <= 0
  {
    if limit > 0 then
      DivideUp(total, limit);
      Some((total + limit - 1) / limit)
    else if limit == 0 then None
    else
      DivideDown(total, -limit);
      Some(-(total / -limit))
  }

  /** A count divided by a positive number is not negative. */
  lemma DivideDown(total: nat, d: int)
    requires d > 0
    ensures total / d >= 0
  {
  }

  lemma DivideUp(total: nat, limit: int)
    requires limit > 0
    ensures (total + limit - 1) / limit >= 0
    ensures ((total + limit - 1) / limit) * limit >= total
    ensures ((total + limit - 1) / limit - 1) * limit < total
  {
    var n := total + limit - 1;
    var q, m := n / limit, n % limit;
    assert n == q * limit + m && 0 <= m < limit;
    assert q * limit == n - m;
    assert (q - 1) * limit == n - m - limit;
  }

  lemma MulMonotone(a: int, b: int, c: int)
    requires a <= b && c > 0
    ensures a * c <= b * c
  {
  }

  /** The reply of `getArts`. */
  datatype ArtsPage = ArtsPage(arts: seq<Art>, totalPages: Option<int>, currentPage: int, total: int,
                               allCategories: set<string>)

  /** `Art.distinct("categories")`. */
  function AllCategories(arts: seq<Art>): (r: set<string>)
    ensures forall a :: a in arts ==> forall c :: c in a.categories ==> c in r
    ensures forall c :: c in r ==> exists a :: a in arts && c in a.categories
  {
    set a, c | a in arts && c in a.categories :: c
  }

  /** Every art of a page of the newest-first listing matches the category,
      and the page is itself newest first. */
  lemma NewestWindow(arts: seq<Art>, category: Option<string>, skip: nat, limit: int)
    ensures var w := Window(Newest(Matching(arts, category)), skip, limit);
      && (forall i :: 0 <= i < |w| ==> w[i] in arts && MatchesCategory(w[i], category))
      && (forall i, j :: 0 <= i < j < |w| ==> w[i].createdAt >= w[j].createdAt)
  {
    var matching := Matching(arts, category);
    var sorted := Newest(matching);
    var w := Window(sorted, skip, limit);
    forall i | 0 <= i < |w| ensures w[i] in arts && MatchesCategory(w[i], category) {
      assert w[i] == sorted[skip + i];
      assert w[i] in multiset(matching);
      var k :| 0 <= k < |matching| && matching[k] == w[i];
    }
    forall i, j | 0 <= i < j < |w| ensures w[i].createdAt >= w[j].createdAt {
      assert w[i] == sorted[skip + i] && w[j] == sorted[skip + j];
    }
  }

  const NegativeSkipMessage := "skip must not be negative"

  /** `getArts`: the matching arts, newest first, from position (page-1)*limit;
      a negative skip is refused by the store and ends in a 500. */
  function GetArts(arts: seq<Art>, category: Option<string>, page: int, limit: int): (r: Reply<ArtsPage>)
    ensures (page - 1) * limit < 0 <==> r.Err?
    ensures r.Err? ==> r == Err(500, NegativeSkipMessage)
    ensures r.Ok? ==> r.body.total == |Matching(arts, category)| && r.body.currentPage == page
    ensures r.Ok? ==> r.body.arts == Window(Newest(Matching(arts, category)), (page - 1) * limit, limit)
    ensures r.Ok? ==> forall i :: 0 <= i < |r.body.arts| ==> r.body.arts[i] in arts && MatchesCategory(r.body.arts[i], category)
    ensures r.Ok? ==> forall i, j :: 0 <= i < j < |r.body.arts| ==> r.body.arts[i].createdAt >= r.body.arts[j].createdAt
    ensures r.Ok? && limit != 0 ==> |r.body.arts| <= Abs(limit)
  {
    var skip := (page - 1) * limit;
    if skip < 0 then Err(500, NegativeSkipMessage)
    else
      var matching := Matching(arts, category);
      var sorted := Newest(matching);
      var window := Window(sorted, skip, limit);
      NewestWindow(arts, category, skip, limit);
      Ok(200, ArtsPage(window, TotalPages(|matching|, limit), page, |matching|, AllCategories(arts)))
  }

  /** The defaults of the `page` and `limit` query fields. */
  const DefaultPage := 1
  const DefaultLimit := 12

  /** `getArts` on the query as received: an absent `page` is 1 and an absent
      `limit` is 12, and present ones are used as they are. */
  function GetArtsRequest(arts: seq<Art>, category: Option<string>, page: Option<int>, limit: Option<int>): (r: Reply<ArtsPage>)
    ensures page.Some? && limit.Some? ==> r == GetArts(arts, category, page.value, limit.value)
    ensures page.None? ==> r.Ok? && r.body.currentPage == DefaultPage
    ensures limit.None? ==> (r.Ok? <==> page.None? || page.value >= 1)
    ensures limit.None? && r.Ok? ==> |r.body.arts| <= DefaultLimit && r.body.totalPages == TotalPages(|Matching(arts, category)|, DefaultLimit)
    ensures page.None? && limit.None? ==> r.body.arts == Take(Newest(Matching(arts, category)), DefaultLimit)
  {
    var p := if page.Some? then page.value else DefaultPage;
    var l := if limit.Some? then limit.value else DefaultLimit;
    var r := GetArts(arts, category, p, l);
    assert page.None? && limit.None? ==> r.body.arts == Take(Newest(Matching(arts, category)), DefaultLimit) by {
      if page.None? && limit.None? {
        var sorted := Newest(Matching(arts, category));
        assert r.body.arts == Window(sorted, 0, DefaultLimit);
        assert sorted[0..] == sorted;
      }
    }
    r
  }

  /** With a positive limit and pages counted from 1, a page has arts exactly
      when its number is at most `totalPages`. */
  lemma PageNonEmptyIffInRange(arts: seq<Art>, category: Option<string>, page: int, limit: int)
    requires limit > 0 && page >= 1
    ensures GetArts(arts, category, page, limit).Ok?
    ensures |GetArts(arts, category, page, limit).body.arts| > 0
        <==> page <= GetArts(arts, category, page, limit).body.totalPages.value
  {
    var matching := Matching(arts, category);
    var sorted := Newest(matching);
    SortedLength(matching);
    MulMonotone(0, page - 1, limit);
    WindowNonEmptyIff(sorted, page, limit);
  }

  lemma SortedLength(arts: seq<Art>)
    ensures |Newest(arts)| == |arts|
  {
    assert |multiset(Newest(arts))| == |multiset(arts)|;
  }

  /** Page `page` of a list is non-empty exactly when `page` is at most the
      page count. */
  lemma WindowNonEmptyIff(s: seq<Art>, page: int, limit: int)
    requires limit > 0 && page >= 1
    ensures (page - 1) * limit >= 0
    ensures |Window(s, (page - 1) * limit, limit)| > 0 <==> page <= TotalPages(|s|, limit).value
  {
    MulMonotone(0, page - 1, limit);
    var tp := TotalPages(|s|, limit).value;
    if page <= tp {
      MulMonotone(page - 1, tp - 1, limit);
    } else {
      MulMonotone(tp, page - 1, limit);
    }
  }

  /** With a positive limit every matching art is listed on exactly the page
      its rank in the newest-first order falls on. */
  lemma EveryArtOnItsPage(arts: seq<Art>, category: Option<string>, limit: int, j: int)
    requires limit > 0 && 0 <= j < |Matching(arts, category)|
    ensures GetArts(arts, category, j / limit + 1, limit).Ok?
    ensures var page := GetArts(arts, category, j / limit + 1, limit).body.arts;
            j % limit < |page| && page[j % limit] == Newest(Matching(arts, category))[j]
  {
    var matching := Matching(arts, category);
    SortedLength(matching);
    var q := j / limit;
    assert (q + 1 - 1) * limit == q * limit;
    WindowHasRank(Newest(matching), limit, j);
  }

  /** Position `j` of a list is entry `j % limit` of page `j / limit + 1`. */
  lemma WindowHasRank(s: seq<Art>, limit: int, j: int)
    requires limit > 0 && 0 <= j < |s|
    ensures (j / limit) * limit >= 0
    ensures var w := Window(s, (j / limit) * limit, limit); j % limit < |w| && w[j % limit] == s[j]
  {
    var q, m := j / limit, j % limit;
    assert j == q * limit + m;
    MulMonotone(0, q, limit);
  }

  /** `getMyArts`: exactly the arts the requester created, in store order. */
  function GetMyArts(arts: seq<Art>, user: UserId): (r: seq<Art>)
    ensures forall i :: 0 <= i < |r| ==> r[i] in arts && r[i].createdBy == user
    ensures forall i :: 0 <= i < |arts| && arts[i].createdBy == user ==> arts[i] in r
  {
    Filter(arts, (a: Art) => a.createdBy == user)
  }

  // ---------------------------------------------------------------------------
  // Adding, updating and deleting

  /** The price field of a multipart body: the text the form sent and the
      number the schema casts it to. Every multipart field is text, so "0" is
      truthy although the number it stands for is not. */
  datatype PriceField = PriceField(text: string, cast: int)

  /** The price is sent and truthy: a non-empty text. */
  predicate PriceGiven(p: Option<PriceField>) {
    p.Some? && p.value.text != ""
  }

  /** The text fields of a request body. */
  datatype ArtInput = ArtInput(title: Option<string>, description: Option<string>, price: Option<PriceField>,
                               categories: CategoryInput)

  /** Ids are unique in the store. */
  predicate UniqueIds(arts: seq<Art>) {
    forall i, j :: 0 <= i < j < |arts| ==> arts[i].id != arts[j].id
  }

  const ValidationMessage := "Art validation failed"

  /** The schema's `required` validators: a title that is absent or empty, or
      a price that is absent or empty (which the schema casts to null), fails
      validation. */
  predicate ValidNewArt(input: ArtInput) {
    TruthyText(input.title) && PriceGiven(input.price)
  }

  /** The body of a successful add or update: a message and the art. */
  datatype ArtMessage = ArtMessage(message: string, art: Art)

  const AddedMessage := "Art added successfully"
  const UpdatedMessage := "Art updated"

  /** `addArt`: a new listing with normalised categories and the uploaded images
      stored and returned with the message; a failed validation replies 500 and stores nothing. `id` and
      `now` are the fresh ObjectId and the timestamp the store assigns. */
  method AddArt(db: Database, user: UserId, input: ArtInput, images: seq<string>, id: ArtId, now: int)
    returns (r: Reply<ArtMessage>)
    requires ArtIndex(db.arts, id) < 0
    modifies db
    ensures db.users == old(db.users) && db.carts == old(db.carts)
    ensures !ValidNewArt(input) ==> r == Err(500, ValidationMessage) && db.arts == old(db.arts)
    ensures ValidNewArt(input) ==>
      && r.Ok? && r.status == 201 && r.body.message == AddedMessage
      && r.body.art == Art(id, input.title.value, TextOr(input.description, ""), input.price.value.cast,
                           images, NormaliseCategories(input.categories), user, now)
      && db.arts == old(db.arts) + [r.body.art]
  {
    if !ValidNewArt(input) {
      return Err(500, ValidationMessage);
    }
    var categories := NormaliseCategories(input.categories);
    var art := Art(id, input.title.value, TextOr(input.description, ""), input.price.value.cast,
                   images, categories, user, now);
    db.arts := db.arts + [art];
    r := Ok(201, ArtMessage(AddedMessage, art));
  }

  /** Adding a fresh id keeps ids unique. */
  lemma AddKeepsIdsUnique(arts: seq<Art>, a: Art)
    requires UniqueIds(arts) && ArtIndex(arts, a.id) < 0
    ensures UniqueIds(arts + [a])
  {
    var r := arts + [a];
    forall i, j | 0 <= i < j < |r| ensures r[i].id != r[j].id {
      if j == |arts| {
        assert r[i] == arts[i];
      } else {
        assert r[i] == arts[i] && r[j] == arts[j];
      }
    }
  }

  /** Lines 114-130: the updated listing. Images are replaced only when files
      were uploaded, title, description and price fall back to the old value
      when the new one is falsy, and categories are replaced only by a truthy
      value. */
  function Patch(a: Art, input: ArtInput, images: seq<string>): (r: Art)
    ensures r.id == a.id && r.createdBy == a.createdBy && r.createdAt == a.createdAt
    ensures r.images == if images == [] then a.images else images
    ensures r.title == if TruthyText(input.title) then input.title.value else a.title
    ensures r.description == if TruthyText(input.description) then input.description.value else a.description
    ensures r.price == if PriceGiven(input.price) then input.price.value.cast else a.price
    ensures r.categories == if CategoriesGiven(input.categories) then NormaliseCategories(input.categories) else a.categories
  {
    a.(images := if |images| > 0 then images else a.images,
       title := TextOr(input.title, a.title),
       description := TextOr(input.description, a.description),
       price := if PriceGiven(input.price) then input.price.value.cast else a.price,
       categories := if CategoriesGiven(input.categories) then NormaliseCategories(input.categories) else a.categories)
  }

  /** The fallbacks make some values impossible to set: an empty price text
      keeps the old price, a non-empty title or description cannot become
      empty, and an empty category text keeps the old categories. */
  lemma PatchCannotClear(a: Art, input: ArtInput, images: seq<string>)
    ensures !PriceGiven(input.price) ==> Patch(a, input, images).price == a.price
    ensures a.title != "" ==> Patch(a, input, images).title != ""
    ensures a.description != "" ==> Patch(a, input, images).description != ""
    ensures input.categories == CategoryText("") ==> Patch(a, input, images).categories == a.categories
    ensures images == [] ==> Patch(a, input, images).images == a.images
  {
  }

  /** The price, unlike the title, can be set to 0: the form sends the text
      "0", which is truthy, and the schema stores the number it casts to. */
  lemma PatchSetsZeroPrice(a: Art, input: ArtInput, images: seq<string>)
    requires input.price == Some(PriceField("0", 0))
    ensures Patch(a, input, images).price == 0
    ensures a.price != 0 ==> Patch(a, input, images).price != a.price
  {
  }

  /** What update and delete check, in order: the art must exist (404), and the
      requester must have created it (403). */
  function OwnerCheck(arts: seq<Art>, id: ArtId, user: UserId): (r: Option<Reply<Art>>)
    ensures r == Some(Err(404, "Art not found")) <==> ArtIndex(arts, id) < 0
    ensures r == Some(Err(403, "Not authorized")) <==> ArtIndex(arts, id) >= 0 && arts[ArtIndex(arts, id)].createdBy != user
    ensures r.None? <==> ArtIndex(arts, id) >= 0 && arts[ArtIndex(arts, id)].createdBy == user
  {
    var k := ArtIndex(arts, id);
    if k < 0 then Some(Err(404, "Art not found"))
    else if arts[k].createdBy != user then Some(Err(403, "Not authorized"))
    else None
  }

  /** `updateArt`: 404 or 403 changes nothing; otherwise the listing is patched
      in place and returned with the message. */
  method UpdateArt(db: Database, user: UserId, id: ArtId, input: ArtInput, images: seq<string>)
    returns (r: Reply<ArtMessage>)
    modifies db
    ensures db.users == old(db.users) && db.carts == old(db.carts)
    ensures OwnerCheck(old(db.arts), id, user).Some? ==>
      && r == Err(OwnerCheck(old(db.arts), id, user).value.status, OwnerCheck(old(db.arts), id, user).value.message)
      && db.arts == old(db.arts)
    ensures OwnerCheck(old(db.arts), id, user).None? ==>
      && db.arts == old(db.arts)[ArtIndex(old(db.arts), id) := Patch(old(db.arts)[ArtIndex(old(db.arts), id)], input, images)]
      && r == Ok(200, ArtMessage(UpdatedMessage, db.arts[ArtIndex(old(db.arts), id)]))
  {
    var check := OwnerCheck(db.arts, id, user);
    if check.Some? {
      return Err(check.value.status, check.value.message);
    }
    var k := ArtIndex(db.arts, id);
    var art := db.arts[k];
    if |images| > 0 {
      art := art.(images := images);
    }
    art := art.(title := TextOr(input.title, art.title));
    art := art.(description := TextOr(input.description, art.description));
    art := art.(price := if PriceGiven(input.price) then input.price.value.cast else art.price);
    if CategoriesGiven(input.categories) {
      art := art.(categories := NormaliseCategories(input.categories));
    }
    db.arts := db.arts[k := art];
    r := Ok(200, ArtMessage(UpdatedMessage, art));
  }

  const DeletedMessage := "Art deleted"

  /** `deleteArt`: 404 or 403 changes nothing; otherwise the listing leaves the
      store and the reply carries the confirmation message. */
  method DeleteArt(db: Database, user: UserId, id: ArtId) returns (r: Reply<string>)
    modifies db
    ensures db.users == old(db.users) && db.carts == old(db.carts)
    ensures OwnerCheck(old(db.arts), id, user).Some? ==>
      && r == Err(OwnerCheck(old(db.arts), id, user).value.status, OwnerCheck(old(db.arts), id, user).value.message)
      && db.arts == old(db.arts)
    ensures OwnerCheck(old(db.arts), id, user).None? ==>
      && r == Ok(200, DeletedMessage)
      && db.arts == old(db.arts)[..ArtIndex(old(db.arts), id)] + old(db.arts)[ArtIndex(old(db.arts), id) + 1..]
  {
    var check := OwnerCheck(db.arts, id, user);
    if check.Some? {
      return Err(check.value.status, check.value.message);
    }
    var k := ArtIndex(db.arts, id);
    r := Ok(200, DeletedMessage);
    db.arts := db.arts[..k] + db.arts[k + 1..];
  }

  /** Once a listing is deleted, its id no longer resolves, so carts and
      wishlists still holding it price it at nothing and populate without it. */
  lemma DeletedArtIsGone(arts: seq<Art>, id: ArtId)
    requires UniqueIds(arts) && ArtIndex(arts, id) >= 0
    ensures FindArt(arts[..ArtIndex(arts, id)] + arts[ArtIndex(arts, id) + 1..], id).None?
  {
    var k := ArtIndex(arts, id);
    var rest := arts[..k] + arts[k + 1..];
    forall i | 0 <= i < |rest| ensures rest[i].id != id {
      if i < k {
        assert rest[i] == arts[i];
      } else {
        assert rest[i] == arts[i + 1];
      }
    }
  }
}
