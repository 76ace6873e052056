/**
 * The cart handlers of the storefront page (src/pages/Index.tsx). The cart is
 * a list of cart lines whose setter replaces it: each handler takes the
 * current list and returns the one it stores. `findIndex` locates the first
 * line holding the item's id; the add handler then edits a copy of the list
 * in place, deleting that line or rewriting its quantity.
 */
module IndexPage {
  import opened Wrappers
  import opened KeyedLists
  import opened Catalog

  /** The cart line holding `id`, if any (`findIndex` result as a line). */
  function QuantityOf(cart: seq<CartItem>, id: string): (q: Option<int>)
    ensures q.None? <==> !HasId(cart, CartId, id)
    ensures q.Some? ==> exists i :: 0 <= i < |cart| && CartId(cart[i]) == id && cart[i].quantity == q.value
  {
    var k := FindIndex(cart, CartId, id);
    if k < 0 then None else Some(cart[k].quantity)
  }

  /** `handleAddToCart(item, quantity)`. Returns the new cart and the line
      stored as `lastAddedToCart` (which opens the cart popup), `None` when
      that slot is left as it was.
      - the id is in the cart and the quantity is 0: the first line holding it
        is deleted;
      - the id is in the cart and the quantity is not 0: that line's quantity
        becomes the quantity as given, even a negative one;
      - the id is absent and the quantity is positive: a new line is appended;
      - the id is absent and the quantity is 0 or negative: nothing happens. */
  method AddToCart(cart: seq<CartItem>, item: FoodItem, quantity: int)
    returns (updated: seq<CartItem>, lastAdded: Option<CartItem>)
    ensures var k := FindIndex(cart, CartId, item.id);
      k >= 0 && quantity == 0 ==> updated == cart[..k] + cart[k + 1..] && lastAdded == None
    ensures var k := FindIndex(cart, CartId, item.id);
      k >= 0 && quantity != 0 ==>
        |updated| == |cart| && updated[k] == cart[k].(quantity := quantity) &&
        (forall j :: 0 <= j < |cart| && j != k ==> updated[j] == cart[j]) &&
        lastAdded == Some(updated[k])
    ensures !HasId(cart, CartId, item.id) && quantity > 0 ==>
      updated == cart + [CartItem(item, quantity)] && lastAdded == Some(CartItem(item, quantity))
    ensures !HasId(cart, CartId, item.id) && quantity <= 0 ==> updated == cart && lastAdded == None
    ensures UniqueIds(cart, CartId) ==> UniqueIds(updated, CartId)
    ensures UniqueIds(cart, CartId) ==>
      QuantityOf(updated, item.id) == (if quantity == 0 || (quantity < 0 && !HasId(cart, CartId, item.id)) then None else Some(quantity))
  {
    var k := FindIndex(cart, CartId, item.id);
    lastAdded := None;
    if k >= 0 {
      updated := cart;
      if quantity == 0 {
        updated := updated[..k] + updated[k + 1..];
        if UniqueIds(cart, CartId) {
          DeleteAtKeepsUnique(cart, CartId, k);
        }
      } else {
        updated := updated[k := updated[k].(quantity := quantity)];
        lastAdded := Some(updated[k]);
        assert forall j :: 0 <= j < |cart| ==> CartId(updated[j]) == CartId(cart[j]);
        assert FindIndex(updated, CartId, item.id) == k by {
          assert HasId(updated, CartId, item.id) by { assert CartId(updated[k]) == item.id; }
        }
      }
    } else if quantity > 0 {
      var line := CartItem(item, quantity);
      updated := cart + [line];
      lastAdded := Some(line);
      if UniqueIds(cart, CartId) {
        AppendKeepsUnique(cart, CartId, line);
      }
      assert updated[|cart|] == line && CartId(line) == item.id;
      assert FindIndex(updated, CartId, item.id) == |cart| by {
        assert forall j :: 0 <= j < |cart| ==> updated[j] == cart[j];
      }
    } else {
      updated := cart;
    }
  }

  /** `handleRemoveFromCart(itemId)`: every line holding the id is dropped and
      the others keep their order. */
  function RemoveFromCart(cart: seq<CartItem>, id: string): (r: seq<CartItem>)
    ensures !HasId(r, CartId, id)
    ensures |r| <= |cart| && (HasId(cart, CartId, id) ==> |r| < |cart|)
    ensures IsSublist(r, cart)
    ensures forall i :: 0 <= i < |cart| && CartId(cart[i]) != id ==> cart[i] in r
    ensures forall i :: 0 <= i < |r| ==> r[i] in cart
    ensures UniqueIds(cart, CartId) ==> UniqueIds(r, CartId)
  {
    RemoveIdIsSublist(cart, CartId, id);
    if UniqueIds(cart, CartId) then
      RemoveIdKeepsUnique(cart, CartId, id);
      RemoveId(cart, CartId, id)
    else
      RemoveId(cart, CartId, id)
  }

  /** `handleUpdateQuantity(item, newQuantity)` forwards to the add handler
      with the line's own record. */
  method UpdateQuantity(cart: seq<CartItem>, line: CartItem, quantity: int)
    returns (updated: seq<CartItem>, lastAdded: Option<CartItem>)
    ensures UniqueIds(cart, CartId) ==> UniqueIds(updated, CartId)
    ensures var k := FindIndex(cart, CartId, CartId(line));
      k >= 0 && quantity == 0 ==> updated == cart[..k] + cart[k + 1..]
    ensures var k := FindIndex(cart, CartId, CartId(line));
      k >= 0 && quantity != 0 ==>
        |updated| == |cart| && updated[k] == cart[k].(quantity := quantity) &&
        forall j :: 0 <= j < |cart| && j != k ==> updated[j] == cart[j]
    ensures !HasId(cart, CartId, CartId(line)) ==>
      updated == (if quantity > 0 then cart + [line.(quantity := quantity)] else cart)
  {
    updated, lastAdded := AddToCart(cart, line.food, quantity);
  }
}
