/** The client's cart state: the cart shown to the user, the last error, and
    which operations are in flight. Every operation runs in two steps, as the
    asynchronous source does: `Begin…` checks the guards, snapshots the cart and
    applies the optimistic change before the request is sent; `Finish`
    receives the remote reply (an input to the model) and either applies the
    server's cart or rolls back to the snapshot. Other operations may run
    between the two steps. */
module CartContext {
  import opened Common
  import opened Models

  /** An art as the client holds it inside a cart line: populated from the
      server (with a price) or built optimistically from an id alone. */
  datatype ClientArt = ClientArt(id: ArtId, price: Option<int>)

  /** A cart line; `art` is `null` when the server could not populate it. */
  datatype ClientItem = ClientItem(art: Option<ClientArt>, quantity: int)

  /** The `items` value of a cart: an array, or some other JSON value. */
  datatype ItemsValue = ItemList(list: seq<ClientItem>) | NotAList

  /** The keys of `operationLoading`: `add_<id>`, `remove_<id>`, `update_<id>`
      and `clear`. The prefixes keep distinct operations on distinct keys. */
  datatype OpKey = AddKey(art: ArtId) | RemoveKey(art: ArtId) | UpdateKey(art: ArtId) | ClearKey

  /** What an operation returns: `null`, the normalised server cart, or the
      clear confirmation. */
  datatype OpResult = NullResult | CartResult(items: ItemsValue) | ClearedResult

  /** `item.art?._id === artId`. */
  predicate IsLineOf(item: ClientItem, art: ArtId) {
    item.art.Some? && item.art.value.id == art
  }

  /** `Array.isArray(cart?.items) ? [...cart.items] : []`. */
  function Snapshot(cart: ItemsValue): seq<ClientItem> {
    if cart.ItemList? then cart.list else []
  }

  /** Restoring a snapshot gives the cart back exactly when it held an array. */
  lemma SnapshotRestores(cart: ItemsValue)
    ensures ItemList(Snapshot(cart)) == cart <==> cart.ItemList?
  {
  }

  /** `{ items: Array.isArray(data?.items) ? data.items : [], ...data }`: the
      spread puts back whatever `items` the reply has, so only a reply without
      that key ends up with []. `data` is the reply's `items` key, if any. */
  function Normalise(data: Option<ItemsValue>): (r: ItemsValue)
    ensures data.None? ==> r == ItemList([])
    ensures data.Some? ==> r == data.value
  {
    if data.None? then ItemList([]) else data.value
  }

  // ---------------------------------------------------------------------------
  // The optimistic changes

  /** How many lines belong to `art`. */
  function CountLines(items: seq<ClientItem>, art: ArtId): nat {
    if items == [] then 0 else (if IsLineOf(items[0], art) then 1 else 0) + CountLines(items[1..], art)
  }

  predicate InItems(items: seq<ClientItem>, art: ArtId) {
    exists k :: 0 <= k < |items| && IsLineOf(items[k], art)
  }

  /** Lines 155-167: every line of the art gains `quantity`; without one, a line
      holding only the art's id is appended. */
  function OptimisticAdd(items: seq<ClientItem>, art: ArtId, quantity: int): (r: seq<ClientItem>)
    ensures InItems(items, art) ==> |r| == |items| && forall k :: 0 <= k < |r| ==>
      r[k] == if IsLineOf(items[k], art) then items[k].(quantity := items[k].quantity + quantity) else items[k]
    ensures !InItems(items, art) ==> r == items + [ClientItem(Some(ClientArt(art, None)), quantity)]
  {
    if InItems(items, art) then
      seq(|items|, k requires 0 <= k < |items| =>
        if IsLineOf(items[k], art) then items[k].(quantity := items[k].quantity + quantity) else items[k])
    else items + [ClientItem(Some(ClientArt(art, None)), quantity)]
  }

  /** Lines 72-75: drop every line of the art. */
  function OptimisticRemove(items: seq<ClientItem>, art: ArtId): (r: seq<ClientItem>)
    ensures !InItems(r, art)
    ensures forall k :: 0 <= k < |items| && !IsLineOf(items[k], art) ==> items[k] in r
    ensures forall k :: 0 <= k < |r| ==> r[k] in items
    ensures |r| <= |items|
  {
    Filter(items, (it: ClientItem) => !IsLineOf(it, art))
  }

  /** Lines 216-221: every line of the art gets the new quantity; nothing else
      changes, and an art not in the cart changes nothing. */
  function OptimisticUpdate(items: seq<ClientItem>, art: ArtId, quantity: int): (r: seq<ClientItem>)
    ensures |r| == |items|
    ensures forall k :: 0 <= k < |r| ==> r[k] == if IsLineOf(items[k], art) then items[k].(quantity := quantity) else items[k]
  {
    seq(|items|, k requires 0 <= k < |items| =>
      if IsLineOf(items[k], art) then items[k].(quantity := quantity) else items[k])
  }

  lemma OptimisticUpdateAbsent(items: seq<ClientItem>, art: ArtId, quantity: int)
    requires !InItems(items, art)
    ensures OptimisticUpdate(items, art, quantity) == items
  {
  }

  // ---------------------------------------------------------------------------
  // The helper queries

  function SumQuantities(items: seq<ClientItem>): int {
    if items == [] then 0 else items[0].quantity + SumQuantities(items[1..])
  }

  /** `getTotalItems`: the quantities summed, 0 for a cart without an array.
      When every line holds at least one piece the count of pieces is at least
      the count of lines. */
  function TotalItems(cart: ItemsValue): (r: int)
    ensures !cart.ItemList? ==> r == 0
    ensures cart.ItemList? ==> r == SumQuantities(cart.list)
    ensures cart.ItemList? && (forall i :: 0 <= i < |cart.list| ==> cart.list[i].quantity >= 1) ==> r >= |cart.list|
  {
    if cart.ItemList? then
      SumQuantitiesAtLeastLines(cart.list);
      SumQuantities(cart.list)
    else 0
  }

  lemma {:induction false} SumQuantitiesAtLeastLines(items: seq<ClientItem>)
    ensures (forall i :: 0 <= i < |items| ==> items[i].quantity >= 1) ==> SumQuantities(items) >= |items|
  {
    if items != [] && forall i :: 0 <= i < |items| ==> items[i].quantity >= 1 {
      assert forall i :: 0 <= i < |items[1..]| ==> items[1..][i].quantity >= 1 by {
        forall i | 0 <= i < |items[1..]| ensures items[1..][i].quantity >= 1 {
          assert items[1..][i] == items[i + 1];
        }
      }
      SumQuantitiesAtLeastLines(items[1..]);
    }
  }

  /** `isInCart`: `some` finds a line of the art exactly when `find` does. */
  predicate IsInCart(cart: ItemsValue, art: ArtId)
    ensures IsInCart(cart, art) <==> cart.ItemList? && FirstIndex(cart.list, (it: ClientItem) => IsLineOf(it, art)) >= 0
  {
    cart.ItemList? && InItems(cart.list, art)
  }

  /** `getItemQuantity`: the quantity of the first line of the art, 0 without one. */
  function ItemQuantity(cart: ItemsValue, art: ArtId): (r: int)
    ensures !IsInCart(cart, art) ==> r == 0
    ensures IsInCart(cart, art) ==> exists k :: 0 <= k < |cart.list| && IsLineOf(cart.list[k], art) && r == cart.list[k].quantity
                                                && forall j :: 0 <= j < k ==> !IsLineOf(cart.list[j], art)
  {
    if !cart.ItemList? then 0
    else
      var k := FirstIndex(cart.list, (it: ClientItem) => IsLineOf(it, art));
      if k < 0 then 0 else cart.list[k].quantity
  }

  lemma {:induction false} SumQuantitiesConcat(a: seq<ClientItem>, b: seq<ClientItem>)
    ensures SumQuantities(a + b) == SumQuantities(a) + SumQuantities(b)
  {
    if a == [] {
      assert a + b == b;
    } else {
      assert (a + b)[1..] == a[1..] + b;
      SumQuantitiesConcat(a[1..], b);
    }
  }

  /** The optimistic add raises the item count by `quantity` for each line of
      the art, or once when it appends a line. */
  lemma {:induction false} OptimisticAddTotal(items: seq<ClientItem>, art: ArtId, quantity: int)
    ensures SumQuantities(OptimisticAdd(items, art, quantity))
         == SumQuantities(items) + quantity * (if InItems(items, art) then CountLines(items, art) else 1)
  {
    if InItems(items, art) {
      MapAddTotal(items, art, quantity);
    } else {
      SumQuantitiesConcat(items, [ClientItem(Some(ClientArt(art, None)), quantity)]);
    }
  }

  lemma {:induction false} MapAddTotal(items: seq<ClientItem>, art: ArtId, quantity: int)
    ensures SumQuantities(seq(|items|, k requires 0 <= k < |items| =>
              if IsLineOf(items[k], art) then items[k].(quantity := items[k].quantity + quantity) else items[k]))
         == SumQuantities(items) + quantity * CountLines(items, art)
  {
    var r := seq(|items|, k requires 0 <= k < |items| =>
              if IsLineOf(items[k], art) then items[k].(quantity := items[k].quantity + quantity) else items[k]);
    if items != [] {
      var tail := items[1..];
      var rt := seq(|tail|, k requires 0 <= k < |tail| =>
              if IsLineOf(tail[k], art) then tail[k].(quantity := tail[k].quantity + quantity) else tail[k]);
      assert r[1..] == rt;
      MapAddTotal(tail, art, quantity);
      var c := if IsLineOf(items[0], art) then 1 else 0;
      assert quantity * (c + CountLines(tail, art)) == quantity * c + quantity * CountLines(tail, art);
    }
  }

  /** After an optimistic add the art is in the cart; after an optimistic
      remove it is not; an optimistic update keeps membership and, when the
      art is there, shows the new quantity. */
  lemma OptimisticQueries(items: seq<ClientItem>, art: ArtId, quantity: int)
    ensures IsInCart(ItemList(OptimisticAdd(items, art, quantity)), art)
    ensures !IsInCart(ItemList(OptimisticRemove(items, art)), art)
    ensures IsInCart(ItemList(OptimisticUpdate(items, art, quantity)), art) <==> IsInCart(ItemList(items), art)
    ensures IsInCart(ItemList(items), art) ==> ItemQuantity(ItemList(OptimisticUpdate(items, art, quantity)), art) == quantity
  {
    AddedIsInCart(items, art, quantity);
    UpdatedMembership(items, art, quantity);
  }

  lemma AddedIsInCart(items: seq<ClientItem>, art: ArtId, quantity: int)
    ensures InItems(OptimisticAdd(items, art, quantity), art)
  {
    var added := OptimisticAdd(items, art, quantity);
    if InItems(items, art) {
      var k :| 0 <= k < |items| && IsLineOf(items[k], art);
      assert IsLineOf(added[k], art);
    } else {
      assert IsLineOf(added[|items|], art);
    }
  }

  lemma UpdatedMembership(items: seq<ClientItem>, art: ArtId, quantity: int)
    ensures InItems(OptimisticUpdate(items, art, quantity), art) <==> InItems(items, art)
  {
    var updated := OptimisticUpdate(items, art, quantity);
    if InItems(items, art) {
      var k :| 0 <= k < |items| && IsLineOf(items[k], art);
      assert IsLineOf(updated[k], art);
    }
    if InItems(updated, art) {
      var k :| 0 <= k < |updated| && IsLineOf(updated[k], art);
      assert IsLineOf(items[k], art);
    }
  }

  // ---------------------------------------------------------------------------
  // The state

  class CartState {
    var cart: ItemsValue
    var error: Option<string>
    /** The keys whose `operationLoading` flag is true. */
    var inFlight: set<OpKey>
    /** The `previousCart` each in-flight operation took. */
    var snapshots: map<OpKey, seq<ClientItem>>

    predicate Valid()
      reads this
    {
      snapshots.Keys == inFlight
    }

    constructor ()
      ensures Valid() && cart == ItemList([]) && error == None && inFlight == {}
    {
      cart := ItemList([]);
      error := None;
      inFlight := {};
      snapshots := map[];
    }

    /** `getCart`: without a token nothing happens; otherwise the error is
        cleared and the normalised server cart shown, or, on a failure, its
        message recorded and the cart emptied. */
    method Fetch(loggedIn: bool, reply: Remote<Option<ItemsValue>>)
      modifies this
      ensures inFlight == old(inFlight) && snapshots == old(snapshots)
      ensures !loggedIn ==> cart == old(cart) && error == old(error)
      ensures loggedIn && reply.Succeeded? ==> cart == Normalise(reply.data) && error == None
      ensures loggedIn && reply.Failed? ==> cart == ItemList([]) && error == Some(reply.message)
    {
      if !loggedIn {
        return;
      }
      error := None;
      match reply {
        case Succeeded(data) => cart := Normalise(data);
        case Failed(message) =>
          error := Some(message);
          cart := ItemList([]);
      }
    }

    /** The effect on a change of user: a signed-in user's cart is fetched, a
        signed-out visitor sees an empty cart. */
    method UserChanged(loggedIn: bool, reply: Remote<Option<ItemsValue>>)
      modifies this
      ensures inFlight == old(inFlight) && snapshots == old(snapshots)
      ensures !loggedIn ==> cart == ItemList([]) && error == old(error)
      ensures loggedIn && reply.Succeeded? ==> cart == Normalise(reply.data) && error == None
      ensures loggedIn && reply.Failed? ==> cart == ItemList([]) && error == Some(reply.message)
    {
      if loggedIn {
        Fetch(loggedIn, reply);
      } else {
        cart := ItemList([]);
      }
    }

    /** `isOperationLoading`: an operation in flight always holds the
        snapshot it would roll back to. */
    predicate IsOperationLoading(key: OpKey)
      requires Valid()
      reads this
      ensures IsOperationLoading(key) ==> key in snapshots
    {
      key in inFlight
    }

    /** The common start: mark the key, snapshot the cart, apply the change. */
    method Start(key: OpKey, optimistic: ItemsValue)
      requires Valid() && key !in inFlight
      modifies this
      ensures Valid() && error == old(error)
      ensures inFlight == old(inFlight) + {key}
      ensures snapshots == old(snapshots)[key := Snapshot(old(cart))]
      ensures cart == optimistic
    {
      inFlight := inFlight + {key};
      snapshots := snapshots[key := Snapshot(cart)];
      cart := optimistic;
    }

    /** `addToCart(artId, quantity = 1)` up to the request. */
    method BeginAdd(loggedIn: bool, art: ArtId, quantity: Option<int>) returns (started: bool)
      requires Valid()
      modifies this
      ensures Valid()
      ensures !loggedIn ==> !started && error == Some("Please login to add items to cart")
                            && cart == old(cart) && inFlight == old(inFlight) && snapshots == old(snapshots)
      ensures loggedIn && AddKey(art) in old(inFlight) ==> !started && unchanged(this)
      ensures loggedIn && AddKey(art) !in old(inFlight) ==>
        && started && error == None
        && inFlight == old(inFlight) + {AddKey(art)}
        && snapshots == old(snapshots)[AddKey(art) := Snapshot(old(cart))]
        && cart == ItemList(OptimisticAdd(Snapshot(old(cart)), art, if quantity.Some? then quantity.value else 1))
    {
      if !loggedIn {
        error := Some("Please login to add items to cart");
        return false;
      }
      if AddKey(art) in inFlight {
        return false;
      }
      error := None;
      var amount := if quantity.Some? then quantity.value else 1;
      Start(AddKey(art), ItemList(OptimisticAdd(Snapshot(cart), art, amount)));
      started := true;
    }

    /** `removeFromCart(artId)` up to the request. */
    method BeginRemove(loggedIn: bool, art: ArtId) returns (started: bool)
      requires Valid()
      modifies this
      ensures Valid()
      ensures !loggedIn ==> !started && error == Some("Please login to modify cart")
                            && cart == old(cart) && inFlight == old(inFlight) && snapshots == old(snapshots)
      ensures loggedIn && RemoveKey(art) in old(inFlight) ==> !started && unchanged(this)
      ensures loggedIn && RemoveKey(art) !in old(inFlight) ==>
        && started && error == None
        && inFlight == old(inFlight) + {RemoveKey(art)}
        && snapshots == old(snapshots)[RemoveKey(art) := Snapshot(old(cart))]
        && cart == ItemList(OptimisticRemove(Snapshot(old(cart)), art))
    {
      if !loggedIn {
        error := Some("Please login to modify cart");
        return false;
      }
      if RemoveKey(art) in inFlight {
        return false;
      }
      error := None;
      Start(RemoveKey(art), ItemList(OptimisticRemove(Snapshot(cart), art)));
      started := true;
    }

    /** `updateQuantity(artId, quantity)` up to the request. A quantity below 1
        is a removal; unlike the others this operation keeps the last error. */
    method BeginUpdate(loggedIn: bool, art: ArtId, quantity: int) returns (started: Option<OpKey>)
      requires Valid()
      modifies this
      ensures Valid()
      ensures !loggedIn ==> started.None? && error == Some("Please login to modify cart")
                            && cart == old(cart) && inFlight == old(inFlight) && snapshots == old(snapshots)
      ensures loggedIn && quantity < 1 && RemoveKey(art) in old(inFlight) ==> started.None? && unchanged(this)
      ensures loggedIn && quantity < 1 && RemoveKey(art) !in old(inFlight) ==>
        && started == Some(RemoveKey(art)) && error == None
        && inFlight == old(inFlight) + {RemoveKey(art)}
        && snapshots == old(snapshots)[RemoveKey(art) := Snapshot(old(cart))]
        && cart == ItemList(OptimisticRemove(Snapshot(old(cart)), art))
      ensures loggedIn && quantity >= 1 && UpdateKey(art) in old(inFlight) ==> started.None? && unchanged(this)
      ensures loggedIn && quantity >= 1 && UpdateKey(art) !in old(inFlight) ==>
        && started == Some(UpdateKey(art)) && error == old(error)
        && inFlight == old(inFlight) + {UpdateKey(art)}
        && snapshots == old(snapshots)[UpdateKey(art) := Snapshot(old(cart))]
        && cart == ItemList(OptimisticUpdate(Snapshot(old(cart)), art, quantity))
    {
      if !loggedIn {
        error := Some("Please login to modify cart");
        return None;
      }
      if quantity < 1 {
        var removing := BeginRemove(loggedIn, art);
        return if removing then Some(RemoveKey(art)) else None;
      }
      if UpdateKey(art) in inFlight {
        return None;
      }
      Start(UpdateKey(art), ItemList(OptimisticUpdate(Snapshot(cart), art, quantity)));
      started := Some(UpdateKey(art));
    }

    /** `clearCart()` up to the request; it keeps the last error too. */
    method BeginClear(loggedIn: bool) returns (started: bool)
      requires Valid()
      modifies this
      ensures Valid()
      ensures !loggedIn ==> !started && error == Some("Please login to modify cart")
                            && cart == old(cart) && inFlight == old(inFlight) && snapshots == old(snapshots)
      ensures loggedIn && ClearKey in old(inFlight) ==> !started && unchanged(this)
      ensures loggedIn && ClearKey !in old(inFlight) ==>
        && started && error == old(error)
        && inFlight == old(inFlight) + {ClearKey}
        && snapshots == old(snapshots)[ClearKey := Snapshot(old(cart))]
        && cart == ItemList([])
    {
      if !loggedIn {
        error := Some("Please login to modify cart");
        return false;
      }
      if ClearKey in inFlight {
        return false;
      }
      Start(ClearKey, ItemList([]));
      started := true;
    }

    /** The reply arrives. A failure records its message and restores the
        snapshot; a success applies the normalised server cart, except for
        clear, which leaves the cart as it is. Either way the key is released. */
    method Finish(key: OpKey, reply: Remote<Option<ItemsValue>>) returns (result: OpResult)
      requires Valid() && key in inFlight
      modifies this
      ensures Valid()
      ensures inFlight == old(inFlight) - {key} && snapshots == old(snapshots) - {key}
      ensures reply.Failed? ==> result == NullResult && error == Some(reply.message)
                                && cart == ItemList(old(snapshots)[key])
      ensures reply.Succeeded? && key != ClearKey ==>
        result == CartResult(Normalise(reply.data)) && cart == Normalise(reply.data) && error == old(error)
      ensures reply.Succeeded? && key == ClearKey ==> result == ClearedResult && cart == old(cart) && error == old(error)
    {
      match reply {
        case Failed(message) =>
          error := Some(message);
          cart := ItemList(snapshots[key]);
          result := NullResult;
        case Succeeded(data) =>
          if key != ClearKey {
            cart := Normalise(data);
            result := CartResult(cart);
          } else {
            result := ClearedResult;
          }
      }
      inFlight := inFlight - {key};
      snapshots := snapshots - {key};
    }
  }
}
