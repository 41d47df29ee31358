/** The cart page: the price summary it derives from the client cart, and the
    per-item flags its handlers raise while a cart operation runs. */
module CartPage {
  import opened Common
  import opened Models
  import opened Store
  import opened CartContext
  import CartController

  /** `item.art?.price || 0`: a line without an art or without a price is
      priced 0. */
  function LinePrice(item: ClientItem): int {
    if item.art.Some? then NumberOr(item.art.value.price, 0) else 0
  }

  /** `getSubtotal` on an items array (an empty one gives 0). */
  function Subtotal(items: seq<ClientItem>): (r: int)
    ensures items == [] ==> r == 0
    ensures Priced(items) ==> r >= 0
  {
    if items == [] then 0 else LinePrice(items[0]) * items[0].quantity + Subtotal(items[1..])
  }

  /** `getShipping`: a flat 50 on a positive subtotal. */
  function Shipping(subtotal: int): int {
    if subtotal > 0 then 50 else 0
  }

  /** `getTotal`. */
  function Total(items: seq<ClientItem>): (r: int)
    ensures Subtotal(items) > 0 ==> r == Subtotal(items) + 50
    ensures Subtotal(items) <= 0 ==> r == Subtotal(items)
  {
    Subtotal(items) + Shipping(Subtotal(items))
  }

  /** The client view of a stored cart after `populate`: each line carries its
      art with the stored price, or `null` when the art is gone. */
  function View(items: seq<CartItem>, arts: seq<Art>): (r: seq<ClientItem>)
    ensures |r| == |items|
    ensures forall i :: 0 <= i < |r| ==> r[i].quantity == items[i].quantity
  {
    seq(|items|, i requires 0 <= i < |items| =>
      var k := ArtIndex(arts, items[i].art);
      ClientItem(if k < 0 then None else Some(ClientArt(arts[k].id, Some(arts[k].price))), items[i].quantity))
  }

  /** The page's subtotal of a populated cart is the backend's
      `calculateTotal` of the same items. */
  lemma {:induction false} SubtotalOfView(items: seq<CartItem>, arts: seq<Art>)
    ensures Subtotal(View(items, arts)) == CartController.TotalOf(items, arts)
  {
    if items != [] {
      var v := View(items, arts);
      assert v[1..] == View(items[1..], arts);
      SubtotalOfView(items[1..], arts);
      assert LinePrice(v[0]) * v[0].quantity == CartController.LineTotal(items[0], arts);
    }
  }

  predicate Priced(items: seq<ClientItem>) {
    forall i :: 0 <= i < |items| ==> LinePrice(items[i]) >= 0 && items[i].quantity >= 0
  }

  /** With no negative price or quantity the subtotal is not negative, and the
      total is 0 exactly when the subtotal is, and the subtotal plus 50
      otherwise. */
  lemma {:induction false} TotalCharges(items: seq<ClientItem>)
    requires Priced(items)
    ensures Subtotal(items) >= 0
    ensures Total(items) == 0 <==> Subtotal(items) == 0
    ensures Subtotal(items) != 0 ==> Total(items) == Subtotal(items) + 50
  {
    if items != [] {
      assert Priced(items[1..]) by {
        forall i | 0 <= i < |items[1..]| ensures LinePrice(items[1..][i]) >= 0 && items[1..][i].quantity >= 0 {
          assert items[1..][i] == items[i + 1];
        }
      }
      TotalCharges(items[1..]);
      assert LinePrice(items[0]) >= 0 && items[0].quantity >= 0;
      assert LinePrice(items[0]) * items[0].quantity >= 0;
    }
  }

  /** `updatingItems[artId]`, where a missing key reads as `undefined`. */
  predicate IsUpdating(updating: map<ArtId, bool>, art: ArtId) {
    art in updating && updating[art]
  }

  /** Line 253: the decrement button of a line. */
  predicate DecrementDisabled(updating: map<ArtId, bool>, art: ArtId, quantity: int) {
    IsUpdating(updating, art) || quantity <= 1
  }

  class CartPageState {
    var updating: map<ArtId, bool>
    var clearing: bool

    constructor ()
      ensures updating == map[] && !clearing
    {
      updating, clearing := map[], false;
    }

    /** `handleRemoveItem` up to the request: the line is marked as updating. */
    method BeginRemoveItem(art: ArtId)
      modifies this
      ensures updating == old(updating)[art := true] && clearing == old(clearing)
    {
      updating := updating[art := true];
    }

    /** `handleUpdateQuantity` up to the request: a quantity below 1 is ignored
        and nothing is sent; otherwise the line is marked as updating and the
        quantity is sent. */
    method BeginUpdateQuantity(art: ArtId, quantity: int) returns (sent: bool)
      modifies this
      ensures sent <==> quantity >= 1
      ensures !sent ==> unchanged(this)
      ensures sent ==> updating == old(updating)[art := true] && clearing == old(clearing)
    {
      if quantity < 1 {
        return false;
      }
      updating := updating[art := true];
      sent := true;
    }

    /** The `finally` of both item handlers: the line is no longer updating,
        whatever the outcome. */
    method FinishItem(art: ArtId)
      modifies this
      ensures updating == old(updating)[art := false] && clearing == old(clearing)
      ensures !IsUpdating(updating, art)
    {
      updating := updating[art := false];
    }

    /** A click on an enabled decrement button always reaches the request. */
    method Decrement(art: ArtId, quantity: int) returns (sent: bool)
      requires !DecrementDisabled(updating, art, quantity)
      modifies this
      ensures sent && IsUpdating(updating, art)
      ensures updating == old(updating)[art := true]
    {
      sent := BeginUpdateQuantity(art, quantity - 1);
    }

    /** `handleClearCart`: `clearing` is set while the request runs. */
    method BeginClear()
      modifies this
      ensures clearing && updating == old(updating)
    {
      clearing := true;
    }

    method FinishClear()
      modifies this
      ensures !clearing && updating == old(updating)
    {
      clearing := false;
    }
  }
}
