/** The client's catalogue state: the current filters, the arts loaded so far
    and the pagination the backend reported. The reply to each fetch is an
    input; a fetch that throws is `Failed`. */
module ArtContext {
  import opened Common
  import opened Models
  import ArtController

  /** A filter value as `URLSearchParams` receives it. */
  datatype Value = Text(text: string) | Num(n: int)

  datatype Param = Param(key: string, value: Value)

  datatype Filters = Filters(category: string, page: int, limit: int)

  datatype Pagination = Pagination(totalPages: int, currentPage: int, total: int)

  /** The fields of an `/arts` reply the context reads; a missing or `null`
      field is `None`. */
  datatype ArtsReply = ArtsReply(arts: Option<seq<Art>>, allCategories: Option<seq<string>>,
                                 totalPages: Option<int>, currentPage: Option<int>, total: Option<int>)

  /** `Object.entries(filters)`, in declaration order. */
  function Entries(f: Filters): seq<Param> {
    [Param("category", Text(f.category)), Param("page", Num(f.page)), Param("limit", Num(f.limit))]
  }

  /** Line 34: a value is sent when it is truthy and is not the string 'all'. */
  predicate Included(p: Param) {
    match p.value
    case Text(s) => s != "" && s != "all"
    case Num(n) => n != 0
  }

  /** The query `getArts` builds: the included entries, in order. */
  function Query(entries: seq<Param>): (r: seq<Param>)
    ensures forall i :: 0 <= i < |r| ==> Included(r[i]) && r[i] in entries
    ensures forall i :: 0 <= i < |entries| && Included(entries[i]) ==> entries[i] in r
  {
    Filter(entries, Included)
  }

  /** Lines 33-35: the `forEach` that appends the included entries. */
  method BuildQuery(entries: seq<Param>) returns (params: seq<Param>)
    ensures params == Query(entries)
  {
    params := [];
    for i := 0 to |entries|
      invariant params == Query(entries[..i])
    {
      QueryStep(entries, i);
      if Included(entries[i]) {
        params := params + [entries[i]];
      }
    }
    assert entries[..|entries|] == entries;
  }

  /** One more entry extends the query by that entry exactly when it is
      included. */
  lemma QueryStep(entries: seq<Param>, i: nat)
    requires i < |entries|
    ensures Query(entries[..i + 1]) == Query(entries[..i]) + (if Included(entries[i]) then [entries[i]] else [])
  {
    assert entries[..i + 1] == entries[..i] + [entries[i]];
    FilterConcat(entries[..i], [entries[i]], Included);
    FilterOne(entries[i], Included);
  }

  /** The query of a filter record: the category is left out when it is empty
      or 'all', and a page or limit of 0 is left out. */
  lemma QueryOfFilters(f: Filters)
    ensures Query(Entries(f)) ==
      (if f.category != "" && f.category != "all" then [Param("category", Text(f.category))] else [])
      + (if f.page != 0 then [Param("page", Num(f.page))] else [])
      + (if f.limit != 0 then [Param("limit", Num(f.limit))] else [])
  {
    var e := Entries(f);
    assert e == ([e[0]] + [e[1]]) + [e[2]];
    FilterConcat([e[0]] + [e[1]], [e[2]], Included);
    FilterConcat([e[0]], [e[1]], Included);
    FilterOne(e[0], Included);
    FilterOne(e[1], Included);
    FilterOne(e[2], Included);
  }

  /** Line 59: the new filters of `updateCategoryFilter`. */
  function WithCategory(f: Filters, category: string): (r: Filters)
    ensures r.category == category && r.page == 1 && r.limit == f.limit
  {
    f.(category := category, page := 1)
  }

  /** Lines 42-46 and 81-85: the pagination a reply sets, with `fallbackPage`
      the current page to assume when the reply has none. */
  function PaginationOf(data: ArtsReply, fallbackPage: int): (r: Pagination)
    ensures r.totalPages == (if TruthyNumber(data.totalPages) then data.totalPages.value else 1)
    ensures r.currentPage == (if TruthyNumber(data.currentPage) then data.currentPage.value else fallbackPage)
    ensures r.total == (if TruthyNumber(data.total) then data.total.value else 0)
  {
    Pagination(NumberOr(data.totalPages, 1), NumberOr(data.currentPage, fallbackPage), NumberOr(data.total, 0))
  }

  function ArtsOf(data: ArtsReply): seq<Art> {
    if data.arts.Some? then data.arts.value else []
  }

  /** What the catch of `getArts` returns. */
  const EmptyReply := ArtsReply(Some([]), Some([]), Some(1), Some(1), Some(0))

  /** The arts of pages 1 to `k` of a listing `s`, as consecutive
      `loadMoreArts` calls accumulate them. */
  function LoadedPages(s: seq<Art>, k: nat, limit: int): seq<Art> {
    if k == 0 then [] else LoadedPages(s, k - 1, limit) + ArtController.Window(s, (k - 1) * ArtController.Abs(limit), limit)
  }

  /** The first `skip` arts followed by the window after them are the first
      `skip + limit` arts. */
  lemma TakeThenWindow(s: seq<Art>, skip: nat, limit: int)
    requires limit > 0
    ensures Take(s, skip) + ArtController.Window(s, skip, limit) == Take(s, skip + limit)
  {
    var w := ArtController.Window(s, skip, limit);
    var pre := Take(s, skip);
    var t := Take(s, skip + limit);
    assert |pre + w| == |t|;
    forall i | 0 <= i < |t| ensures (pre + w)[i] == t[i] {
      if i >= |pre| {
        assert w[i - |pre|] == s[skip + (i - |pre|)];
      }
    }
  }

  /** Loading pages 1 to `k` of a positive page size yields exactly the first
      `k * limit` arts of the listing, in listing order, without gaps or
      repeats. */
  lemma {:induction false} LoadedPagesArePrefix(s: seq<Art>, k: nat, limit: int)
    requires limit > 0
    ensures LoadedPages(s, k, limit) == Take(s, k * limit)
  {
    if k > 0 {
      PageStart(k, limit);
      var skip: nat := (k - 1) * limit;
      var before := LoadedPages(s, k - 1, limit);
      var page := ArtController.Window(s, skip, limit);
      assert LoadedPages(s, k, limit) == before + page;
      LoadedPagesArePrefix(s, k - 1, limit);
      assert before == Take(s, skip);
      TakeThenWindow(s, skip, limit);
      assert Take(s, skip) + page == Take(s, k * limit);
    }
  }

  /** Page `k` starts `limit` arts before page `k + 1`. */
  lemma PageStart(k: nat, limit: int)
    requires k > 0 && limit > 0
    ensures (k - 1) * limit >= 0 && k * limit == (k - 1) * limit + limit
    ensures ArtController.Abs(limit) == limit
  {
  }

  class ArtState {
    var arts: seq<Art>
    var categories: seq<string>
    var loading: bool
    var filters: Filters
    var pagination: Pagination

    /** Lines 9-22. */
    constructor ()
      ensures arts == [] && categories == [] && !loading
      ensures filters == Filters("all", 1, 12)
      ensures pagination == Pagination(1, 1, 0)
    {
      arts, categories, loading := [], [], false;
      filters := Filters("all", 1, 12);
      pagination := Pagination(1, 1, 0);
    }

    /** `getArts(newFilters)`: the query is built from `newFilters` or, when
        none is given, from the current filters (which it does not change); a
        parsed reply replaces the arts, categories and pagination, a thrown
        fetch changes nothing and yields the empty reply. */
    method GetArts(newFilters: Option<Filters>, reply: Remote<ArtsReply>) returns (query: seq<Param>, data: ArtsReply)
      modifies this
      ensures query == Query(Entries(if newFilters.Some? then newFilters.value else old(filters)))
      ensures filters == old(filters) && !loading
      ensures reply.Succeeded? ==> data == reply.data && arts == ArtsOf(reply.data)
                                   && categories == (if reply.data.allCategories.Some? then reply.data.allCategories.value else [])
                                   && pagination == PaginationOf(reply.data, 1)
      ensures reply.Failed? ==> data == EmptyReply && arts == old(arts) && categories == old(categories)
                                && pagination == old(pagination)
    {
      loading := true;
      var current := if newFilters.Some? then newFilters.value else filters;
      query := BuildQuery(Entries(current));
      match reply {
        case Succeeded(d) =>
          arts := ArtsOf(d);
          categories := if d.allCategories.Some? then d.allCategories.value else [];
          pagination := PaginationOf(d, 1);
          data := d;
        case Failed(_) =>
          data := EmptyReply;
      }
      loading := false;
    }

    /** `updateCategoryFilter`: sets the category, returns to page 1 and keeps
        the page size, then fetches with those filters. */
    method UpdateCategoryFilter(category: string, reply: Remote<ArtsReply>) returns (query: seq<Param>, data: ArtsReply)
      modifies this
      ensures filters == WithCategory(old(filters), category)
      ensures query == Query(Entries(WithCategory(old(filters), category)))
      ensures reply.Succeeded? ==> data == reply.data && arts == ArtsOf(reply.data) && pagination == PaginationOf(reply.data, 1)
      ensures reply.Failed? ==> data == EmptyReply && arts == old(arts) && pagination == old(pagination)
    {
      var updated := WithCategory(filters, category);
      filters := updated;
      query, data := GetArts(Some(updated), reply);
    }

    /** `loadMoreArts`: nothing happens on the last page; otherwise the next
        page is requested with every filter entry (unlike `getArts`, none is
        left out), and a parsed reply appends its arts and advances the page by
        one. */
    method LoadMore(reply: Remote<ArtsReply>) returns (query: Option<seq<Param>>)
      modifies this
      ensures old(pagination.currentPage) >= old(pagination.totalPages) ==> query.None? && unchanged(this)
      ensures old(pagination.currentPage) < old(pagination.totalPages) ==>
        && query == Some(Entries(old(filters).(page := old(filters.page) + 1)))
        && !loading && categories == old(categories)
      ensures old(pagination.currentPage) < old(pagination.totalPages) && reply.Succeeded? ==>
        && arts == old(arts) + ArtsOf(reply.data)
        && filters == old(filters).(page := old(filters.page) + 1)
        && pagination == PaginationOf(reply.data, old(filters.page) + 1)
      ensures old(pagination.currentPage) < old(pagination.totalPages) && reply.Failed? ==>
        arts == old(arts) && filters == old(filters) && pagination == old(pagination)
    {
      if pagination.currentPage >= pagination.totalPages {
        return None;
      }
      loading := true;
      var nextPage := filters.page + 1;
      query := Some(Entries(filters.(page := nextPage)));
      match reply {
        case Succeeded(d) =>
          arts := arts + ArtsOf(d);
          filters := filters.(page := nextPage);
          pagination := PaginationOf(d, nextPage);
        case Failed(_) =>
      }
      loading := false;
    }
  }
}
