/** The navigation bar: which item is highlighted for a path, where a search
    goes, and the cart and wishlist badges. */
module Navbar {
  import opened Common
  import opened Strings
  import opened Models
  import opened CartContext

  datatype NavItem = NavItem(name: string, href: string)

  /** Lines 26-32, in order. */
  const NavItems: seq<NavItem> := [NavItem("Home", "/"), NavItem("Gallery", "/gallery"),
    NavItem("Collections", "/collections"), NavItem("Contact", "/contact-us"), NavItem("About", "/about")]

  /** Lines 21-24: the categories a search can jump to. */
  const SearchCategories: seq<string> :=
    ["painting", "digital", "sculpture", "photography", "drawing", "mixed media", "print", "textile"]

  /** Lines 37-40: pages that highlight no item. */
  predicate Excluded(path: string) {
    StartsWith(path, "/login") || StartsWith(path, "/register") || StartsWith(path, "/dashboard")
    || StartsWith(path, "/cart") || StartsWith(path, "/wishlist")
  }

  /** `getActiveItem` over a list of items: nothing on an excluded page, else
      the first item whose link is the path, else the first whose link
      starts the path, else nothing. */
  function ActiveItemIn(items: seq<NavItem>, path: string): (r: string)
    ensures Excluded(path) ==> r == ""
    ensures !Excluded(path) && (exists k :: 0 <= k < |items| && items[k].href == path) ==>
      exists k :: 0 <= k < |items| && items[k].href == path && r == items[k].name
                  && forall j :: 0 <= j < k ==> items[j].href != path
    ensures !Excluded(path) && (forall k :: 0 <= k < |items| ==> items[k].href != path)
            && (exists k :: 0 <= k < |items| && StartsWith(path, items[k].href)) ==>
      exists k :: 0 <= k < |items| && StartsWith(path, items[k].href) && r == items[k].name
                  && forall j :: 0 <= j < k ==> !StartsWith(path, items[j].href)
    ensures !Excluded(path) && (forall k :: 0 <= k < |items| ==> !StartsWith(path, items[k].href)) ==> r == ""
  {
    if Excluded(path) then ""
    else
      var exact := FirstIndex(items, (it: NavItem) => it.href == path);
      if exact >= 0 then items[exact].name
      else
        var partial := FirstIndex(items, (it: NavItem) => StartsWith(path, it.href));
        if partial >= 0 then items[partial].name
        else
          assert forall k :: 0 <= k < |items| ==> items[k].href != path by {
            forall k | 0 <= k < |items| ensures items[k].href != path {
              assert StartsWith(path, path);
            }
          }
          ""
  }

  function ActiveItem(path: string): string {
    ActiveItemIn(NavItems, path)
  }

  /** Since 'Home' links to '/', it comes first among the prefixes: every
      other path that starts with '/' and is not excluded highlights 'Home'. */
  lemma HomeCatchesTheRest(path: string)
    requires StartsWith(path, "/") && !Excluded(path)
    requires forall k :: 0 <= k < |NavItems| ==> NavItems[k].href != path
    ensures ActiveItem(path) == "Home"
  {
    assert StartsWith(path, NavItems[0].href);
  }

  /** What a submitted search does: where it navigates, and the query and
      open state it leaves. */
  datatype SearchOutcome = SearchOutcome(route: Option<string>, query: string, open: bool)

  /** `handleSearch`: a blank query does nothing; otherwise a known category
      goes to its listing and anything else to all arts, and the search box
      is cleared and closed. */
  function Search(query: string, open: bool): (r: SearchOutcome)
    ensures Trim(query) == "" ==> r == SearchOutcome(None, query, open)
    ensures Trim(query) != "" ==> r.query == "" && !r.open && r.route.Some?
    ensures Trim(query) != "" && Clean(query) in SearchCategories ==> r.route == Some("/arts?category=" + Clean(query))
    ensures Trim(query) != "" && Clean(query) !in SearchCategories ==> r.route == Some("/arts")
  {
    if Trim(query) == "" then SearchOutcome(None, query, open)
    else
      var category := Clean(query);
      SearchOutcome(Some(if category in SearchCategories then "/arts?category=" + category else "/arts"), "", false)
  }

  /** A search ignores surrounding blanks and case: it goes where its clean
      form goes. */
  lemma SearchIgnoresCase(query: string, open: bool)
    requires Trim(query) != ""
    ensures Search(Clean(query), open).route == Search(query, open).route
  {
    CleanIdempotent(query);
    assert Trim(Clean(query)) != "" by {
      TrimToLowerCommute(Trim(query));
      TrimIdempotent(query);
      assert |ToLower(Trim(query))| == |Trim(query)|;
    }
  }

  /** A badge: hidden at 0, the count up to 9, "9+" beyond. */
  datatype Badge = Hidden | Count(n: int) | NinePlus

  function BadgeFor(count: int): (b: Badge)
    ensures b == Hidden <==> count <= 0
    ensures b == NinePlus <==> count > 9
    ensures b.Count? ==> 1 <= b.n <= 9 && b.n == count
  {
    if count <= 0 then Hidden else if count > 9 then NinePlus else Count(count)
  }

  /** `getCartItemCount`: the number of lines, not of pieces; a cart whose
      items are not an array shows no count. */
  function CartCount(cart: ItemsValue): (r: nat)
    ensures !cart.ItemList? ==> r == 0
    ensures cart.ItemList? && (forall i :: 0 <= i < |cart.list| ==> cart.list[i].quantity >= 1) ==> r <= TotalItems(cart)
  {
    if cart.ItemList? then |cart.list| else 0
  }

  /** Adding more of an art already in the cart leaves the cart badge as it
      is; adding a new art moves it by one. */
  lemma CartBadgeCountsLines(items: seq<ClientItem>, art: ArtId, quantity: int)
    ensures InItems(items, art) ==> CartCount(ItemList(OptimisticAdd(items, art, quantity))) == CartCount(ItemList(items))
    ensures !InItems(items, art) ==> CartCount(ItemList(OptimisticAdd(items, art, quantity))) == CartCount(ItemList(items)) + 1
  {
  }
}
