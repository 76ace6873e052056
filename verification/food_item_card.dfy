/**
 * The per-card quantity counter of a catalogue card
 * (src/components/FoodItemCard.tsx). Each press updates the counter and
 * reports the new quantity to the page's add-to-cart handler, whose call is
 * returned here.
 */
module FoodItemCard {
  import opened Wrappers
  import opened Catalog

  class Card {
    const item: FoodItem
    /** The counter shown between the - and + buttons; never negative. */
    var quantity: nat

    /** A freshly drawn card shows 0. */
    constructor (item: FoodItem)
      ensures this.item == item && quantity == 0
    {
      this.item := item;
      quantity := 0;
    }

    /** `increaseQuantity`: the counter goes up by one and the parent is
        called with the new value. */
    method Increase() returns (reported: nat)
      modifies this
      ensures quantity == old(quantity) + 1
      ensures reported == quantity
    {
      quantity := quantity + 1;
      reported := quantity;
    }

    /** `decreaseQuantity`: at 0 nothing happens and the parent is not
        called; otherwise the counter goes down by one and the parent is
        called with the new value. */
    method Decrease() returns (reported: Option<nat>)
      modifies this
      ensures old(quantity) == 0 ==> quantity == 0 && reported == None
      ensures old(quantity) > 0 ==> quantity == old(quantity) - 1 && reported == Some(quantity)
    {
      if quantity > 0 {
        quantity := quantity - 1;
        reported := Some(quantity);
      } else {
        reported := None;
      }
    }
  }

  /** A press on + followed by a press on - leaves the counter where it was,
      and the two reports are the raised and then the restored value. */
  method IncreaseThenDecrease(card: Card) returns (first: nat, second: Option<nat>)
    modifies card
    ensures card.quantity == old(card.quantity)
    ensures first == old(card.quantity) + 1 && second == Some(old(card.quantity))
  {
    first := card.Increase();
    second := card.Decrease();
  }
}
