/**
 * The menu page (src/pages/Menu.tsx): only the Togolese category lists
 * dishes, optionally narrowed to one region.
 */
module Menu {
  import opened Wrappers
  import opened KeyedLists
  import opened Catalog

  /** The category and region the page opens on. */
  const InitialCategory: Option<string> := None
  const InitialRegion := "all"

  /** The region test: "all" accepts every dish, any other region only the
      dishes of that region. */
  predicate InRegion(item: FoodItem, region: string) {
    region == "all" || item.region == Some(region)
  }

  /** `filteredItems`: the Togolese specialties of the region when the
      Togolese category is selected, and nothing for any other category or
      none. */
  function Shown(category: Option<string>, region: string): (r: seq<FoodItem>)
    ensures category != Some("togolese") ==> r == []
    ensures category == Some("togolese") ==>
      IsSublist(r, TogoleseSpecialties) && forall x :: x in r <==> x in TogoleseSpecialties && InRegion(x, region)
  {
    if category == Some("togolese") then Filter(TogoleseSpecialties, x => InRegion(x, region)) else []
  }

  /** "Toutes les régions" lists every Togolese specialty. */
  lemma AllRegionsShowsEverySpecialty()
    ensures Shown(Some("togolese"), "all") == TogoleseSpecialties
  {
  }

  /** The page opens on the category picker with no dish listed. */
  lemma InitialShowsNothing()
    ensures Shown(InitialCategory, InitialRegion) == []
  {
  }

  /** Every dish listed for a specific region comes from that region. */
  lemma ShownFromRegion(region: string, x: FoodItem)
    requires region != "all" && x in Shown(Some("togolese"), region)
    ensures x.region == Some(region) && x.category == "togolese"
  {
    SpecialtiesHaveRegions();
    var i :| 0 <= i < |TogoleseSpecialties| && TogoleseSpecialties[i] == x;
  }
}
