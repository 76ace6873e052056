/**
 * The favourites list: a list of catalogue entries that the storefront page
 * (src/pages/Index.tsx) and the specialties route (src/pages/SpecialWrapper.tsx)
 * update with the same toggle, and that every catalogue page consults to
 * draw a card's heart.
 */
module Favorites {
  import opened KeyedLists
  import opened Catalog

  /** `favorites.some(fav => fav.id === item.id)`: identity is the id, not the
      name or any other field. */
  function IsFavorite(favorites: seq<FoodItem>, item: FoodItem): (b: bool)
    ensures b <==> exists i :: 0 <= i < |favorites| && favorites[i].id == item.id
  {
    HasId(favorites, FoodId, item.id)
  }

  /** The toggle handler: an item already marked is removed together with
      every other entry holding its id; an unmarked item is appended. */
  function ToggleFavorite(favorites: seq<FoodItem>, item: FoodItem): (r: seq<FoodItem>)
    ensures IsFavorite(r, item) <==> !IsFavorite(favorites, item)
    ensures IsFavorite(favorites, item) ==>
      IsSublist(r, favorites) && forall i :: 0 <= i < |favorites| && favorites[i].id != item.id ==> favorites[i] in r
    ensures !IsFavorite(favorites, item) ==> r == favorites + [item]
    ensures forall id :: id != item.id ==> (HasId(r, FoodId, id) <==> HasId(favorites, FoodId, id))
  {
    if IsFavorite(favorites, item) then
      RemoveIdIsSublist(favorites, FoodId, item.id);
      var r := RemoveId(favorites, FoodId, item.id);
      assert forall id :: id != item.id && HasId(favorites, FoodId, id) ==> HasId(r, FoodId, id) by {
        forall id | id != item.id && HasId(favorites, FoodId, id) ensures HasId(r, FoodId, id) {
          var i :| 0 <= i < |favorites| && FoodId(favorites[i]) == id;
          assert favorites[i] in r;
        }
      }
      assert forall id :: HasId(r, FoodId, id) ==> HasId(favorites, FoodId, id) by {
        forall id | HasId(r, FoodId, id) ensures HasId(favorites, FoodId, id) {
          var i :| 0 <= i < |r| && FoodId(r[i]) == id;
          assert r[i] in favorites;
        }
      }
      r
    else
      var r := favorites + [item];
      assert r[|favorites|] == item;
      assert forall i :: 0 <= i < |favorites| ==> r[i] == favorites[i];
      r
  }

  /** Toggling the same item twice, starting from a list without its id,
      gives the original list back. */
  lemma ToggleTwiceRestores(favorites: seq<FoodItem>, item: FoodItem)
    requires !IsFavorite(favorites, item)
    ensures ToggleFavorite(ToggleFavorite(favorites, item), item) == favorites
  {
    RemoveIdAppend(favorites, [item], FoodId, item.id);
    assert RemoveId([item], FoodId, item.id) == [];
  }

  /** Starting from a list with the id, toggling twice leaves the item once,
      at the end, after the entries with other ids. */
  lemma ToggleTwiceFromPresent(favorites: seq<FoodItem>, item: FoodItem)
    requires IsFavorite(favorites, item)
    ensures ToggleFavorite(ToggleFavorite(favorites, item), item) == RemoveId(favorites, FoodId, item.id) + [item]
  {
  }

  /** The two "Mafé" dishes are different favourites: marking one leaves the
      other unmarked. */
  lemma TwoMafesAreDistinct()
    ensures FoodItems[1].name == FoodItems[11].name == "Mafé"
    ensures FoodItems[1].id == "f2" && FoodItems[11].id == "af2"
    ensures IsFavorite(ToggleFavorite([], FoodItems[1]), FoodItems[1])
    ensures !IsFavorite(ToggleFavorite([], FoodItems[1]), FoodItems[11])
  {
    var r := ToggleFavorite([], FoodItems[1]);
    assert r == [FoodItems[1]];
  }

  /** The hearts of a grid of cards: each card is marked exactly when the
      favourites hold an entry with its id. */
  function FavoriteMarks(favorites: seq<FoodItem>, shown: seq<FoodItem>): (r: seq<bool>)
    ensures |r| == |shown|
    ensures forall i :: 0 <= i < |shown| ==>
      (r[i] <==> exists j :: 0 <= j < |favorites| && favorites[j].id == shown[i].id)
  {
    seq(|shown|, i requires 0 <= i < |shown| => IsFavorite(favorites, shown[i]))
  }

  /** A toggle flips the heart of every card carrying the toggled id and of
      no other card. */
  lemma ToggleFlipsMarks(favorites: seq<FoodItem>, item: FoodItem, shown: seq<FoodItem>)
    ensures var before := FavoriteMarks(favorites, shown);
      var after := FavoriteMarks(ToggleFavorite(favorites, item), shown);
      forall i :: 0 <= i < |shown| ==> (after[i] <==> (if shown[i].id == item.id then !before[i] else before[i]))
  {
    var r := ToggleFavorite(favorites, item);
    forall i | 0 <= i < |shown|
      ensures FavoriteMarks(r, shown)[i] <==>
        (if shown[i].id == item.id then !FavoriteMarks(favorites, shown)[i] else FavoriteMarks(favorites, shown)[i])
    {
      assert FavoriteMarks(r, shown)[i] == IsFavorite(r, shown[i]);
      assert FavoriteMarks(favorites, shown)[i] == IsFavorite(favorites, shown[i]);
      if shown[i].id != item.id {
        assert HasId(r, FoodId, shown[i].id) <==> HasId(favorites, FoodId, shown[i].id);
      }
    }
  }
}
