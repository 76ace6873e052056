/**
 * The Togolese specialties page (src/pages/Special.tsx): a list of regions
 * and, once one is picked, its dishes or a notice that none is available
 * yet.
 */
module Special {
  import opened Wrappers
  import opened KeyedLists
  import opened Catalog

  /** The ids of the region cards. */
  const Regions: seq<string> := ["Maritime", "Plateaux", "Centrale", "Kara", "Savanes"]

  /** Whether `selectedRegion` is truthy: set and not the empty string. */
  predicate Selected(region: Option<string>) {
    region.Some? && region.value != ""
  }

  /** `filteredItems`: nothing while no region is picked, otherwise the
      specialties whose region is the one picked, in catalogue order. */
  function Shown(region: Option<string>): (r: seq<FoodItem>)
    ensures !Selected(region) ==> r == []
    ensures Selected(region) ==>
      IsSublist(r, TogoleseSpecialties) && forall x :: x in r <==> x in TogoleseSpecialties && x.region == region
  {
    if Selected(region) then Filter(TogoleseSpecialties, (x: FoodItem) => x.region == region) else []
  }

  /** What the page shows. */
  datatype View = RegionList | Dishes(items: seq<FoodItem>) | NoDishYet

  /** The region list while nothing is picked; once a region is picked, its
      dishes, or "Aucun plat disponible" when it has none. */
  function Render(region: Option<string>): (v: View)
    ensures !Selected(region) <==> v == RegionList
    ensures Selected(region) && Shown(region) == [] <==> v == NoDishYet
    ensures v.Dishes? ==> v.items == Shown(region) && v.items != []
  {
    if !Selected(region) then RegionList
    else if |Shown(region)| > 0 then Dishes(Shown(region))
    else NoDishYet
  }

  /** The Savanes card leads to the "no dish yet" notice: no shipped
      specialty comes from there. */
  lemma SavanesHasNoDish()
    ensures "Savanes" in Regions
    ensures Shown(Some("Savanes")) == []
    ensures Render(Some("Savanes")) == NoDishYet
  {
  }

  /** Every other region card lists at least one dish. */
  lemma OtherRegionsHaveDishes()
    ensures forall k :: 0 <= k < 4 ==> Regions[k] != "Savanes" && TogoleseSpecialties[k] in Shown(Some(Regions[k]))
  {
  }
}
