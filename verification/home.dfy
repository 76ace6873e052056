/**
 * The home page (src/pages/Home.tsx): the dishes of the selected category,
 * recomputed whenever the category changes.
 */
module Home {
  import opened KeyedLists
  import opened Catalog

  /** The dishes of `items` in exactly `category`, in their order; none is
      left out. */
  function OfCategory(items: seq<FoodItem>, category: string): (r: seq<FoodItem>)
    ensures IsSublist(r, items)
    ensures forall i :: 0 <= i < |r| ==> r[i].category == category
    ensures forall i :: 0 <= i < |items| && items[i].category == category ==> items[i] in r
    ensures forall x :: x in r <==> x in items && x.category == category
  {
    var r := Filter(items, (x: FoodItem) => x.category == category);
    assert forall i :: 0 <= i < |r| ==> r[i] in r;
    r
  }

  /** `filteredItems` for the selected category: the catalogue dishes of
      exactly that category, all of them, in catalogue order. */
  function Shown(category: string): (r: seq<FoodItem>)
    ensures IsSublist(r, FoodItems)
    ensures forall x :: x in r <==> x in FoodItems && x.category == category
  {
    OfCategory(FoodItems, category)
  }

  /** The page opens on the first category, "Pour vous". */
  lemma InitialCategory()
    ensures Categories[0] == "Pour vous"
  {
  }

  /** A category that no dish has shows an empty grid. */
  lemma UnknownCategoryShowsNothing(category: string)
    requires category !in Categories
    ensures Shown(category) == []
  {
    FoodItemCategoriesListed();
  }
}
