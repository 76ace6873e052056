/**
 * The cart route (src/pages/CartPage.tsx). Its remove handler is the same
 * filter as the storefront page's (`IndexPage.RemoveFromCart`, which never
 * lengthens the cart); its quantity handler only edits lines already in the
 * cart and never appends one.
 */
module CartPage {
  import opened KeyedLists
  import opened Catalog

  /** `handleUpdateQuantity(item, newQuantity)` of the cart route: for an id
      not in the cart nothing changes; otherwise quantity 0 deletes the first
      line holding the id and any other quantity rewrites that line. */
  method UpdateQuantity(cart: seq<CartItem>, line: CartItem, quantity: int) returns (updated: seq<CartItem>)
    ensures !HasId(cart, CartId, CartId(line)) ==> updated == cart
    ensures var k := FindIndex(cart, CartId, CartId(line));
      k >= 0 && quantity == 0 ==> updated == cart[..k] + cart[k + 1..]
    ensures var k := FindIndex(cart, CartId, CartId(line));
      k >= 0 && quantity != 0 ==>
        |updated| == |cart| && updated[k] == cart[k].(quantity := quantity) &&
        forall j :: 0 <= j < |cart| && j != k ==> updated[j] == cart[j]
    ensures |updated| <= |cart|
    ensures UniqueIds(cart, CartId) ==> UniqueIds(updated, CartId)
  {
    var k := FindIndex(cart, CartId, CartId(line));
    updated := cart;
    if k >= 0 {
      if quantity == 0 {
        updated := updated[..k] + updated[k + 1..];
        if UniqueIds(cart, CartId) {
          DeleteAtKeepsUnique(cart, CartId, k);
        }
      } else {
        updated := updated[k := updated[k].(quantity := quantity)];
        assert forall j :: 0 <= j < |cart| ==> CartId(updated[j]) == CartId(cart[j]);
      }
    }
  }
}
