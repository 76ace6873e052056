/**
 * The specialties route (src/pages/SpecialWrapper.tsx). Its favourites
 * toggle is `Favorites.ToggleFavorite`; its add-to-cart handler stores
 * nothing and only raises a notice.
 */
module SpecialWrapper {
  import opened Text
  import opened Catalog
  import Prices

  /** A transient notice: a title and a line of text. */
  datatype Toast = Toast(title: string, description: string)

  /** `handleAddToCart(item, quantity)` on this route: the favourites come
      back as they were, and the notice reads "{quantity}x {name} ajouté au
      panier", from which the quantity can be read back. */
  function HandleAddToCart(favorites: seq<FoodItem>, item: FoodItem, quantity: int): (r: (seq<FoodItem>, Toast))
    ensures r.0 == favorites
    ensures r.1.title == "Article ajouté"
    ensures var tail := "x " + item.name + " ajouté au panier";
      |tail| <= |r.1.description| && r.1.description[|r.1.description| - |tail|..] == tail
    ensures quantity >= 0 ==> Prices.LeadingValue(r.1.description, 0, 0) == quantity
  {
    var text := IntToString(quantity) + "x " + item.name + " ajouté au panier";
    var tail := "x " + item.name + " ajouté au panier";
    assert text == IntToString(quantity) + tail;
    assert text[|text| - |tail|..] == tail;
    if quantity >= 0 then
      QuantityReadsBack(quantity, tail);
      (favorites, Toast("Article ajouté", text))
    else
      (favorites, Toast("Article ajouté", text))
  }

  /** The digits of a printed quantity followed by 'x' read back as it. */
  lemma QuantityReadsBack(quantity: nat, tail: string)
    requires tail != [] && tail[0] == 'x'
    ensures Prices.LeadingValue(NatToString(quantity) + tail, 0, 0) == quantity
  {
    var d := NatToString(quantity);
    var s := d + tail;
    assert s[..|d|] == d;
    assert s[|d|] == 'x';
    Prices.LeadingValueOfRun(s, 0, |d|, 0);
    DecimalValueOfNatToString(quantity);
  }
}
