/** The cart controller: each user has one cart, a sequence of (art, quantity)
    lines. Add merges into an existing line and otherwise appends one, update
    sets, deletes or appends a line, remove drops every line of an art, and clear
    empties the cart. After every change the total is recomputed as the sum of
    price times quantity over the lines whose art still exists. */
module CartController {
  import opened Common
  import opened Models
  import opened Store

  /** What a cart handler replies with: the cart's lines and, when the reply
      carries one, a `totalPrice`. Carts read back from the store carry none,
      because the Cart schema declares no such field. */
  datatype CartBody = CartBody(items: seq<CartItem>, totalPrice: Option<int>)

  // ---------------------------------------------------------------------------
  // Views of a cart

  /** Some line of the cart refers to `art`. */
  predicate Contains(items: seq<CartItem>, art: ArtId) {
    exists k :: 0 <= k < |items| && items[k].art == art
  }

  /** No two lines refer to the same art. */
  predicate UniqueArts(items: seq<CartItem>) {
    forall i, j :: 0 <= i < j < |items| ==> items[i].art != items[j].art
  }

  /** `items.findIndex(item => item.art.toString() === artId)`. */
  function IndexOfArt(items: seq<CartItem>, art: ArtId): (i: int)
    ensures -1 <= i < |items|
    ensures i == -1 <==> !Contains(items, art)
    ensures 0 <= i ==> items[i].art == art && forall k :: 0 <= k < i ==> items[k].art != art
  {
    FirstIndex(items, (it: CartItem) => it.art == art)
  }

  /** The sum of `f` over the lines. */
  function SumOf(items: seq<CartItem>, f: CartItem -> int): int {
    if items == [] then 0 else f(items[0]) + SumOf(items[1..], f)
  }

  /** How many of `art` the cart holds, over all its lines. */
  function QuantityOf(items: seq<CartItem>, art: ArtId): int {
    SumOf(items, (it: CartItem) => if it.art == art then it.quantity else 0)
  }

  /** The price of an art, 0 when the art no longer exists. */
  function PriceOf(arts: seq<Art>, art: ArtId): int {
    var k := ArtIndex(arts, art);
    if k < 0 then 0 else arts[k].price
  }

  function LineTotal(item: CartItem, arts: seq<Art>): int {
    PriceOf(arts, item.art) * item.quantity
  }

  /** The value `calculateTotal` computes: price times quantity summed over the
      lines, a line whose art is gone adding nothing. */
  function TotalOf(items: seq<CartItem>, arts: seq<Art>): int {
    SumOf(items, (it: CartItem) => LineTotal(it, arts))
  }

  // ---------------------------------------------------------------------------
  // The cart transitions

  /** `quantity || 1`: an absent or zero quantity adds one. */
  function AddAmount(quantity: Option<int>): int {
    NumberOr(quantity, 1)
  }

  /** `quantity > 0` on a possibly absent quantity. */
  predicate Positive(quantity: Option<int>) {
    quantity.Some? && quantity.value > 0
  }

  /** addToCart on the lines: merge into the first line of the art, or append a
      line. Only an art not yet in the cart makes the cart longer. */
  function AddItem(items: seq<CartItem>, art: ArtId, quantity: Option<int>): (r: seq<CartItem>)
    ensures |r| == if Contains(items, art) then |items| else |items| + 1
    ensures Contains(r, art)
    ensures forall k :: 0 <= k < |items| && items[k].art != art ==> r[k] == items[k]
  {
    var i := IndexOfArt(items, art);
    if i > -1 then
      var r := items[i := CartItem(items[i].art, items[i].quantity + AddAmount(quantity))];
      assert r[i].art == art;
      r
    else
      var r := items + [CartItem(art, AddAmount(quantity))];
      assert r[|items|].art == art;
      r
  }

  /** removeFromCart on the lines: keep the lines of every other art. */
  function RemoveItems(items: seq<CartItem>, art: ArtId): (r: seq<CartItem>)
    ensures !Contains(r, art)
    ensures forall k :: 0 <= k < |items| && items[k].art != art ==> items[k] in r
    ensures forall k :: 0 <= k < |r| ==> r[k] in items
  {
    Filter(items, (it: CartItem) => it.art != art)
  }

  /** updateCartItem on the lines: a positive quantity is set on the first line
      of the art or appended as a line, anything else deletes that line. */
  function UpdateItem(items: seq<CartItem>, art: ArtId, quantity: Option<int>): (r: seq<CartItem>)
    ensures Positive(quantity) ==> Contains(r, art)
    ensures |r| == if Contains(items, art) then (if Positive(quantity) then |items| else |items| - 1)
                   else (if Positive(quantity) then |items| + 1 else |items|)
  {
    var i := IndexOfArt(items, art);
    if i > -1 then
      if Positive(quantity) then
        var r := items[i := CartItem(items[i].art, quantity.value)];
        assert r[i].art == art;
        r
      else items[..i] + items[i + 1..]
    else if Positive(quantity) then
      var r := items + [CartItem(art, quantity.value)];
      assert r[|items|].art == art;
      r
    else items
  }

  // ---------------------------------------------------------------------------
  // Sums

  lemma {:induction false} SumOfConcat(a: seq<CartItem>, b: seq<CartItem>, f: CartItem -> int)
    ensures SumOf(a + b, f) == SumOf(a, f) + SumOf(b, f)
  {
    if a == [] {
      assert a + b == b;
    } else {
      assert (a + b)[1..] == a[1..] + b;
      SumOfConcat(a[1..], b, f);
    }
  }

  lemma SumOfSingle(x: CartItem, f: CartItem -> int)
    ensures SumOf([x], f) == f(x)
  {
    assert [x][1..] == [];
  }

  lemma SumOfUpdate(s: seq<CartItem>, i: int, x: CartItem, f: CartItem -> int)
    requires 0 <= i < |s|
    ensures SumOf(s[i := x], f) == SumOf(s, f) - f(s[i]) + f(x)
  {
    var a, b := s[..i], s[i + 1..];
    assert s == (a + [s[i]]) + b;
    assert s[i := x] == (a + [x]) + b;
    SumOfConcat(a + [s[i]], b, f);
    SumOfConcat(a, [s[i]], f);
    SumOfConcat(a + [x], b, f);
    SumOfConcat(a, [x], f);
    SumOfSingle(s[i], f);
    SumOfSingle(x, f);
  }

  lemma SumOfSplice(s: seq<CartItem>, i: int, f: CartItem -> int)
    requires 0 <= i < |s|
    ensures SumOf(s[..i] + s[i + 1..], f) == SumOf(s, f) - f(s[i])
  {
    var a, b := s[..i], s[i + 1..];
    assert s == a + s[i..];
    assert s[i..][1..] == b;
    SumOfConcat(a, s[i..], f);
    SumOfConcat(a, b, f);
  }

  lemma SumOfAppend(s: seq<CartItem>, x: CartItem, f: CartItem -> int)
    ensures SumOf(s + [x], f) == SumOf(s, f) + f(x)
  {
    SumOfConcat(s, [x], f);
    SumOfSingle(x, f);
  }

  /** Lines of other arts add nothing to the quantity of `art`. */
  lemma {:induction false} QuantityOfAbsent(items: seq<CartItem>, art: ArtId)
    requires !Contains(items, art)
    ensures QuantityOf(items, art) == 0
  {
    if items != [] {
      assert !Contains(items[1..], art) by {
        forall k | 0 <= k < |items[1..]| ensures items[1..][k].art != art {
          assert items[1..][k] == items[k + 1];
        }
      }
      QuantityOfAbsent(items[1..], art);
    }
  }

  /** In a cart without duplicate lines the quantity of an art is that of its line. */
  lemma QuantityOfUnique(items: seq<CartItem>, i: int)
    requires UniqueArts(items) && 0 <= i < |items|
    ensures QuantityOf(items, items[i].art) == items[i].quantity
  {
    var art := items[i].art;
    var f := (it: CartItem) => if it.art == art then it.quantity else 0;
    var pre, post := items[..i], items[i + 1..];
    assert !Contains(pre, art) by {
      forall k | 0 <= k < |pre| ensures pre[k].art != art {
        assert pre[k] == items[k];
      }
    }
    assert !Contains(post, art) by {
      forall k | 0 <= k < |post| ensures post[k].art != art {
        assert post[k] == items[i + 1 + k];
      }
    }
    QuantityOfAbsent(pre, art);
    QuantityOfAbsent(post, art);
    assert items == pre + [items[i]] + post;
    SumOfConcat(pre + [items[i]], post, f);
    SumOfConcat(pre, [items[i]], f);
  }

  // ---------------------------------------------------------------------------
  // calculateTotal

  /** The loop of `calculateTotal`: look each line's art up and, when it exists,
      add its price times the line's quantity. */
  method CalculateTotal(items: seq<CartItem>, arts: seq<Art>) returns (total: int)
    ensures total == TotalOf(items, arts)
  {
    total := 0;
    for i := 0 to |items|
      invariant total == TotalOf(items[..i], arts)
    {
      var k := ArtIndex(arts, items[i].art);
      if k >= 0 {
        total := total + arts[k].price * items[i].quantity;
      }
      assert items[..i + 1] == items[..i] + [items[i]];
      SumOfAppend(items[..i], items[i], (it: CartItem) => LineTotal(it, arts));
    }
    assert items[..|items|] == items;
  }

  // ---------------------------------------------------------------------------
  // What each transition does to quantities and totals

  /** Adding raises the quantity of the added art by `quantity || 1` and leaves
      every other art as it was; the art is in the cart afterwards. */
  lemma AddItemQuantity(items: seq<CartItem>, art: ArtId, quantity: Option<int>, other: ArtId)
    ensures QuantityOf(AddItem(items, art, quantity), other)
         == QuantityOf(items, other) + (if other == art then AddAmount(quantity) else 0)
  {
    var f := (it: CartItem) => if it.art == other then it.quantity else 0;
    var i := IndexOfArt(items, art);
    var amount := AddAmount(quantity);
    if i > -1 {
      var x := CartItem(items[i].art, items[i].quantity + amount);
      SumOfUpdate(items, i, x, f);
      assert f(x) - f(items[i]) == if other == art then amount else 0;
    } else {
      var x := CartItem(art, amount);
      SumOfAppend(items, x, f);
      assert f(x) == if other == art then amount else 0;
    }
  }

  /** Adding raises the total by the art's price times the amount added. */
  lemma AddItemTotal(items: seq<CartItem>, art: ArtId, quantity: Option<int>, arts: seq<Art>)
    ensures TotalOf(AddItem(items, art, quantity), arts)
         == TotalOf(items, arts) + PriceOf(arts, art) * AddAmount(quantity)
  {
    var f := (it: CartItem) => LineTotal(it, arts);
    var i := IndexOfArt(items, art);
    var p := PriceOf(arts, art);
    if i > -1 {
      var x := CartItem(items[i].art, items[i].quantity + AddAmount(quantity));
      SumOfUpdate(items, i, x, f);
      assert f(items[i]) == p * items[i].quantity;
      assert f(x) == p * (items[i].quantity + AddAmount(quantity));
      Distribute(p, items[i].quantity, AddAmount(quantity));
    } else {
      var x := CartItem(art, AddAmount(quantity));
      SumOfAppend(items, x, f);
      assert f(x) == p * AddAmount(quantity);
    }
  }

  /** Removing sets the quantity of the art to zero and keeps every other art's. */
  lemma {:induction false} RemoveItemsQuantity(items: seq<CartItem>, art: ArtId, other: ArtId)
    ensures QuantityOf(RemoveItems(items, art), other) == if other == art then 0 else QuantityOf(items, other)
  {
    if items != [] {
      RemoveItemsQuantity(items[1..], art, other);
      assert items == [items[0]] + items[1..];
      if items[0].art != art {
        assert RemoveItems(items, art) == [items[0]] + RemoveItems(items[1..], art);
      } else {
        assert RemoveItems(items, art) == RemoveItems(items[1..], art);
      }
    }
  }

  lemma Distribute(p: int, a: int, b: int)
    ensures p * (a + b) == p * a + p * b
  {
  }

  /** Removing lowers the total by the art's price times its quantity. */
  lemma {:induction false} RemoveItemsTotal(items: seq<CartItem>, art: ArtId, arts: seq<Art>)
    ensures TotalOf(RemoveItems(items, art), arts) == TotalOf(items, arts) - PriceOf(arts, art) * QuantityOf(items, art)
  {
    if items != [] {
      var rest := items[1..];
      var p := PriceOf(arts, art);
      RemoveItemsTotal(rest, art, arts);
      assert TotalOf(items, arts) == LineTotal(items[0], arts) + TotalOf(rest, arts);
      if items[0].art != art {
        assert QuantityOf(items, art) == QuantityOf(rest, art);
        assert RemoveItems(items, art) == [items[0]] + RemoveItems(rest, art);
      } else {
        assert QuantityOf(items, art) == items[0].quantity + QuantityOf(rest, art);
        assert RemoveItems(items, art) == RemoveItems(rest, art);
        assert LineTotal(items[0], arts) == p * items[0].quantity;
        Distribute(p, items[0].quantity, QuantityOf(rest, art));
      }
    }
  }

  /** In a cart without duplicate lines, updating leaves the art with exactly
      the new quantity when it is positive and with none otherwise. */
  lemma UpdateItemQuantity(items: seq<CartItem>, art: ArtId, quantity: Option<int>, other: ArtId)
    requires UniqueArts(items)
    ensures QuantityOf(UpdateItem(items, art, quantity), other)
         == if other != art then QuantityOf(items, other)
            else if Positive(quantity) then quantity.value else 0
  {
    var f := (it: CartItem) => if it.art == other then it.quantity else 0;
    var i := IndexOfArt(items, art);
    if i > -1 {
      QuantityOfUnique(items, i);
      assert f(items[i]) == if other == art then items[i].quantity else 0;
      if Positive(quantity) {
        var x := CartItem(items[i].art, quantity.value);
        SumOfUpdate(items, i, x, f);
        assert f(x) == if other == art then quantity.value else 0;
      } else {
        SumOfSplice(items, i, f);
      }
    } else {
      QuantityOfAbsent(items, art);
      if Positive(quantity) {
        var x := CartItem(art, quantity.value);
        SumOfAppend(items, x, f);
        assert f(x) == if other == art then quantity.value else 0;
      }
    }
  }

  /** In a cart without duplicate lines, updating replaces the art's share of
      the total by its price times the new quantity (none when not positive). */
  lemma UpdateItemTotal(items: seq<CartItem>, art: ArtId, quantity: Option<int>, arts: seq<Art>)
    requires UniqueArts(items)
    ensures TotalOf(UpdateItem(items, art, quantity), arts)
         == TotalOf(items, arts) - PriceOf(arts, art) * QuantityOf(items, art)
            + PriceOf(arts, art) * (if Positive(quantity) then quantity.value else 0)
  {
    var f := (it: CartItem) => LineTotal(it, arts);
    var i := IndexOfArt(items, art);
    var p := PriceOf(arts, art);
    if i > -1 {
      QuantityOfUnique(items, i);
      assert f(items[i]) == p * QuantityOf(items, art);
      if Positive(quantity) {
        var x := CartItem(items[i].art, quantity.value);
        SumOfUpdate(items, i, x, f);
        assert f(x) == p * quantity.value;
      } else {
        SumOfSplice(items, i, f);
      }
    } else {
      QuantityOfAbsent(items, art);
      if Positive(quantity) {
        var x := CartItem(art, quantity.value);
        SumOfAppend(items, x, f);
        assert f(x) == p * quantity.value;
      }
    }
  }

  // ---------------------------------------------------------------------------
  // At most one line per art

  lemma AddItemUnique(items: seq<CartItem>, art: ArtId, quantity: Option<int>)
    requires UniqueArts(items)
    ensures UniqueArts(AddItem(items, art, quantity))
  {
    var r := AddItem(items, art, quantity);
    var i := IndexOfArt(items, art);
    if i > -1 {
      assert forall k :: 0 <= k < |r| ==> r[k].art == items[k].art;
    } else {
      forall a, b | 0 <= a < b < |r| ensures r[a].art != r[b].art {
        if b == |items| {
          assert r[a] == items[a];
        } else {
          assert r[a] == items[a] && r[b] == items[b];
        }
      }
    }
  }

  lemma RemoveItemsUnique(items: seq<CartItem>, art: ArtId)
    requires UniqueArts(items)
    ensures UniqueArts(RemoveItems(items, art))
  {
    FilterKeepsPairwise(items, (it: CartItem) => it.art != art, (x: CartItem, y: CartItem) => x.art != y.art);
  }

  lemma UpdateItemUnique(items: seq<CartItem>, art: ArtId, quantity: Option<int>)
    requires UniqueArts(items)
    ensures UniqueArts(UpdateItem(items, art, quantity))
  {
    var r := UpdateItem(items, art, quantity);
    var i := IndexOfArt(items, art);
    if i > -1 {
      if Positive(quantity) {
        assert forall k :: 0 <= k < |r| ==> r[k].art == items[k].art;
      } else {
        forall a, b | 0 <= a < b < |r| ensures r[a].art != r[b].art {
          var a' := if a < i then a else a + 1;
          var b' := if b < i then b else b + 1;
          assert r[a] == items[a'] && r[b] == items[b'];
        }
      }
    } else if Positive(quantity) {
      forall a, b | 0 <= a < b < |r| ensures r[a].art != r[b].art {
        if b == |items| {
          assert r[a] == items[a];
        } else {
          assert r[a] == items[a] && r[b] == items[b];
        }
      }
    }
  }

  /** In a cart without duplicate lines, deleting the first line of an art is
      the same as dropping every line of it. */
  lemma RemoveUniqueIsSplice(items: seq<CartItem>, i: int)
    requires UniqueArts(items) && 0 <= i < |items|
    ensures RemoveItems(items, items[i].art) == items[..i] + items[i + 1..]
  {
    var art := items[i].art;
    FilterDropsOne(items, i, (it: CartItem) => it.art != art);
  }

  /** With no duplicate lines, updating to a quantity that is not positive is
      removing. */
  lemma UpdateNonPositiveIsRemove(items: seq<CartItem>, art: ArtId, quantity: Option<int>)
    requires UniqueArts(items) && !Positive(quantity)
    ensures UpdateItem(items, art, quantity) == RemoveItems(items, art)
  {
    var i := IndexOfArt(items, art);
    if i > -1 {
      RemoveUniqueIsSplice(items, i);
    } else {
      FilterAllPass(items, (it: CartItem) => it.art != art);
    }
  }

  /** Removing twice is removing once; removing an art the cart lacks changes nothing. */
  lemma RemoveItemsIdempotent(items: seq<CartItem>, art: ArtId)
    ensures RemoveItems(RemoveItems(items, art), art) == RemoveItems(items, art)
    ensures !Contains(items, art) ==> RemoveItems(items, art) == items
  {
    FilterIdempotent(items, (it: CartItem) => it.art != art);
    if !Contains(items, art) {
      FilterAllPass(items, (it: CartItem) => it.art != art);
    }
  }

  // ---------------------------------------------------------------------------
  // The handlers, on the store

  /** `addToCart`: 404 for an unknown art, which changes nothing; otherwise the
      user's cart, created empty when missing, gets the art added, and the total
      is recomputed. */
  method AddToCart(db: Database, user: UserId, art: ArtId, quantity: Option<int>)
    returns (r: Reply<CartBody>, total: int)
    modifies db
    ensures db.arts == old(db.arts) && db.users == old(db.users)
    ensures FindArt(old(db.arts), art).None? ==> r == Err(404, "Art not found") && db.carts == old(db.carts)
    ensures FindArt(old(db.arts), art).Some? ==>
      && db.carts == old(db.carts)[user := AddItem(CartOf(old(db.carts), user), art, quantity)]
      && r == Ok(200, CartBody(db.carts[user], None))
      && total == TotalOf(db.carts[user], db.arts)
  {
    if FindArt(db.arts, art).None? {
      return Err(404, "Art not found"), 0;
    }
    var items := AddItem(CartOf(db.carts, user), art, quantity);
    total := CalculateTotal(items, db.arts);
    db.carts := db.carts[user := items];
    assert db.carts[user] == items;
    r := Ok(200, CartBody(items, None));
  }

  /** `getCart`: the stored cart, or an empty one with total 0 that is not stored. */
  method GetCart(db: Database, user: UserId) returns (r: Reply<CartBody>)
    ensures user in db.carts ==> r == Ok(200, CartBody(db.carts[user], None))
    ensures user !in db.carts ==> r == Ok(200, CartBody([], Some(0)))
  {
    if user !in db.carts {
      return Ok(200, CartBody([], Some(0)));
    }
    r := Ok(200, CartBody(db.carts[user], None));
  }

  /** `removeFromCart`: 404 without a cart; otherwise every line of the art is
      dropped and the total recomputed. */
  method RemoveFromCart(db: Database, user: UserId, art: ArtId) returns (r: Reply<CartBody>, total: int)
    modifies db
    ensures db.arts == old(db.arts) && db.users == old(db.users)
    ensures user !in old(db.carts) ==> r == Err(404, "Cart not found") && db.carts == old(db.carts)
    ensures user in old(db.carts) ==>
      && db.carts == old(db.carts)[user := RemoveItems(old(db.carts)[user], art)]
      && r == Ok(200, CartBody(db.carts[user], None))
      && total == TotalOf(db.carts[user], db.arts)
  {
    if user !in db.carts {
      return Err(404, "Cart not found"), 0;
    }
    var items := RemoveItems(db.carts[user], art);
    total := CalculateTotal(items, db.arts);
    db.carts := db.carts[user := items];
    r := Ok(200, CartBody(items, None));
  }

  /** `updateCartItem`: 404 for an unknown art (checked first) or a missing cart,
      neither changing anything; otherwise the line is set, deleted or appended
      and the total recomputed. */
  method UpdateCartItem(db: Database, user: UserId, art: ArtId, quantity: Option<int>)
    returns (r: Reply<CartBody>, total: int)
    modifies db
    ensures db.arts == old(db.arts) && db.users == old(db.users)
    ensures FindArt(old(db.arts), art).None? ==> r == Err(404, "Art not found") && db.carts == old(db.carts)
    ensures FindArt(old(db.arts), art).Some? && user !in old(db.carts) ==>
      r == Err(404, "Cart not found") && db.carts == old(db.carts)
    ensures FindArt(old(db.arts), art).Some? && user in old(db.carts) ==>
      && db.carts == old(db.carts)[user := UpdateItem(old(db.carts)[user], art, quantity)]
      && r == Ok(200, CartBody(db.carts[user], None))
      && total == TotalOf(db.carts[user], db.arts)
  {
    if FindArt(db.arts, art).None? {
      return Err(404, "Art not found"), 0;
    }
    if user !in db.carts {
      return Err(404, "Cart not found"), 0;
    }
    var items := UpdateItem(db.carts[user], art, quantity);
    total := CalculateTotal(items, db.arts);
    db.carts := db.carts[user := items];
    r := Ok(200, CartBody(items, None));
  }

  /** `clearCart`: 404 without a cart; otherwise the cart keeps no lines and the
      reply carries total 0. */
  method ClearCart(db: Database, user: UserId) returns (r: Reply<CartBody>)
    modifies db
    ensures db.arts == old(db.arts) && db.users == old(db.users)
    ensures user !in old(db.carts) ==> r == Err(404, "Cart not found") && db.carts == old(db.carts)
    ensures user in old(db.carts) ==> db.carts == old(db.carts)[user := []] && r == Ok(200, CartBody([], Some(0)))
  {
    if user !in db.carts {
      return Err(404, "Cart not found");
    }
    db.carts := db.carts[user := []];
    r := Ok(200, CartBody([], Some(0)));
  }

  /** Every handler keeps the store's carts free of duplicate lines: a cart
      that had none before any sequence of add, update, remove and clear still
      has none. */
  predicate CartsUnique(carts: map<UserId, seq<CartItem>>) {
    forall u :: u in carts ==> UniqueArts(carts[u])
  }

  lemma HandlersKeepCartsUnique(carts: map<UserId, seq<CartItem>>, user: UserId, art: ArtId, quantity: Option<int>)
    requires CartsUnique(carts)
    ensures CartsUnique(carts[user := AddItem(CartOf(carts, user), art, quantity)])
    ensures user in carts ==> CartsUnique(carts[user := UpdateItem(carts[user], art, quantity)])
    ensures user in carts ==> CartsUnique(carts[user := RemoveItems(carts[user], art)])
    ensures CartsUnique(carts[user := []])
  {
    AddItemUnique(CartOf(carts, user), art, quantity);
    if user in carts {
      UpdateItemUnique(carts[user], art, quantity);
      RemoveItemsUnique(carts[user], art);
    }
  }
}
