/**
 * The groceries page (src/pages/Courses.tsx): the grocery items of the
 * selected category whose name or description contains the search text,
 * compared case-insensitively.
 */
module Courses {
  import opened Text
  import opened KeyedLists
  import opened Catalog

  /** The category that selects every item. */
  const AllCategories := "Tous"

  /** The filter's test for one item. */
  predicate Matches(item: FoodItem, category: string, query: string) {
    (category == AllCategories || item.category == category) &&
    (Includes(Lower(item.name), Lower(query)) || Includes(Lower(item.description), Lower(query)))
  }

  /** `filteredItems`: the grocery items passing the test, in catalogue
      order. */
  function Shown(category: string, query: string): (r: seq<FoodItem>)
    ensures IsSublist(r, CourseItems)
    ensures forall x :: x in r <==> x in CourseItems && Matches(x, category, query)
  {
    Filter(CourseItems, x => Matches(x, category, query))
  }

  /** An empty search hides nothing, so only the category decides. */
  lemma EmptyQueryMatchesAll(item: FoodItem, category: string)
    ensures Matches(item, category, "") <==> (category == AllCategories || item.category == category)
  {
    assert Lower("") == "";
    IncludesEmpty(Lower(item.name));
  }

  /** The search ignores the case of the query: typing it in lower case
      shows the same items. */
  lemma QueryCaseIgnored(item: FoodItem, category: string, query: string)
    ensures Matches(item, category, query) <==> Matches(item, category, Lower(query))
  {
    LowerIdempotent(query);
  }

  /** With "Tous" selected every category is accepted, so the search alone
      decides. */
  lemma AllCategoriesAcceptsAny(item: FoodItem, query: string)
    ensures Matches(item, AllCategories, query) <==>
      (Includes(Lower(item.name), Lower(query)) || Includes(Lower(item.description), Lower(query)))
  {
  }

  /** The page opens on "Tous" with an empty search and lists every grocery
      item. */
  lemma InitialShowsAll()
    ensures CourseCategories[0] == AllCategories
    ensures Shown(CourseCategories[0], "") == CourseItems
  {
    forall i | 0 <= i < |CourseItems| ensures Matches(CourseItems[i], AllCategories, "") {
      EmptyQueryMatchesAll(CourseItems[i], AllCategories);
    }
  }
}
