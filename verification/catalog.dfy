/**
 * The constant catalogue the storefront ships (src/data/food-data.ts) and the
 * record types shared by the cart, the favourites and the catalogue pages.
 */
module Catalog {
  import opened Wrappers
  import KeyedLists

  /** A catalogue entry. `price` is a display label such as "8500 FCFA";
      `region` is present only on the Togolese specialties. */
  datatype FoodItem = FoodItem(
    id: string,
    name: string,
    description: string,
    price: string,
    image: string,
    category: string,
    region: Option<string>)

  function FoodId(x: FoodItem): string { x.id }

  /** A cart line: the catalogue entry as it was when added, plus a quantity
      (`{ ...item, quantity }`). */
  datatype CartItem = CartItem(food: FoodItem, quantity: int)

  function CartId(x: CartItem): string { x.food.id }

  const FoodItems: seq<FoodItem> := [
    FoodItem("f1", "Poulet Yassa", "Poulet mariné avec oignons et citron", "8500 FCFA",
      "https://images.unsplash.com/photo-1604908176997-125f25cc6f3d?ixlib=rb-4.0.3&ixid=M3wxMjA3fDB8MHxwaG90by1wYWdlfHx8fGVufDB8fHx8fA%3D%3D&auto=format&fit=crop&w=1633&q=80",
      "Pour vous", None),
    FoodItem("f2", "Mafé", "Ragoût de bœuf à la sauce d'arachide", "9500 FCFA",
      "https://images.unsplash.com/photo-1574653853027-5382a3d23a15?ixlib=rb-4.0.3&ixid=M3wxMjA3fDB8MHxwaG90by1wYWdlfHx8fGVufDB8fHx8fA%3D%3D&auto=format&fit=crop&w=1074&q=80",
      "Pour vous", None),
    FoodItem("f3", "Thiéboudienne", "Riz au poisson et légumes", "9200 FCFA",
      "https://images.unsplash.com/photo-1567982047351-76b6f93e38ee?ixlib=rb-4.0.3&ixid=M3wxMjA3fDB8MHxwaG90by1wYWdlfHx8fGVufDB8fHx8fA%3D%3D&auto=format&fit=crop&w=1470&q=80",
      "Pour vous", None),
    FoodItem("f4", "Attieke Poisson", "Semoule de manioc avec poisson grillé", "10200 FCFA",
      "https://images.unsplash.com/photo-1580217593608-61931cefc821?ixlib=rb-4.0.3&ixid=M3wxMjA3fDB8MHxwaG90by1wYWdlfHx8fGVufDB8fHx8fA%3D%3D&auto=format&fit=crop&w=1470&q=80",
      "Pour vous", None),
    FoodItem("f5", "Aloko", "Bananes plantains frites", "5200 FCFA",
      "https://images.unsplash.com/photo-1527477396000-e27163b481c2?ixlib=rb-4.0.3&ixid=M3wxMjA3fDB8MHxwaG90by1wYWdlfHx8fGVufDB8fHx8fA%3D%3D&auto=format&fit=crop&w=1453&q=80",
      "Pour vous", None),
    FoodItem("f6", "Ndolé", "Plat camerounais à base de feuilles amères et de viande", "8800 FCFA",
      "https://images.unsplash.com/photo-1504674900247-0877df9cc836?ixlib=rb-4.0.3&ixid=M3wxMjA3fDB8MHxwaG90by1wYWdlfHx8fGVufDB8fHx8fA%3D%3D&auto=format&fit=crop&w=1470&q=80",
      "Pour vous", None),
    FoodItem("f7", "Alloco Poulet", "Bananes plantains frites servies avec du poulet grillé", "7500 FCFA",
      "https://images.unsplash.com/photo-1598511796432-32663d0875bd?ixlib=rb-4.0.3&ixid=M3wxMjA3fDB8MHxwaG90by1wYWdlfHx8fGVufDB8fHx8fA%3D%3D&auto=format&fit=crop&w=1470&q=80",
      "Pour vous", None),
    FoodItem("f8", "Fufu et Sauce Gombo", "Pâte de manioc accompagnée d'une sauce gluante aux gombos", "6800 FCFA",
      "https://images.unsplash.com/photo-1512058564366-18510be2db19?ixlib=rb-4.0.3&ixid=M3wxMjA3fDB8MHxwaG90by1wYWdlfHx8fGVufDB8fHx8fA%3D%3D&auto=format&fit=crop&w=1472&q=80",
      "Pour vous", None),
    FoodItem("pd1", "Croissant au beurre", "Croissant feuilleté et croustillant", "800 FCFA",
      "https://images.unsplash.com/photo-1555507036-ab1f4038808a?ixlib=rb-4.0.3&ixid=M3wxMjA3fDB8MHxwaG90by1wYWdlfHx8fGVufDB8fHx8fA%3D%3D&auto=format&fit=crop&w=1426&q=80",
      "Petit Dej", None),
    FoodItem("pd2", "Omelette au fromage", "Omelette moelleuse au fromage fondu", "1500 FCFA",
      "https://images.unsplash.com/photo-1510693206972-df098062cb71?ixlib=rb-4.0.3&ixid=M3wxMjA3fDB8MHxwaG90by1wYWdlfHx8fGVufDB8fHx8fA%3D%3D&auto=format&fit=crop&w=1498&q=80",
      "Petit Dej", None),
    FoodItem("af1", "Jollof Rice", "Riz épicé cuit dans une sauce tomate", "7200 FCFA",
      "https://grandbaby-cakes.com/wp-content/uploads/2023/04/jollof-rice-recipe-23.jpg",
      "Africains", None),
    FoodItem("af2", "Mafé", "Ragoût de bœuf à la sauce d'arachide", "9500 FCFA",
      "https://images.unsplash.com/photo-1574653853027-5382a3d23a15?ixlib=rb-4.0.3&ixid=M3wxMjA3fDB8MHxwaG90by1wYWdlfHx8fGVufDB8fHx8fA%3D%3D&auto=format&fit=crop&w=1074&q=80",
      "Africains", None),
    FoodItem("eu1", "Ratatouille", "Plat de légumes provençal", "8500 FCFA",
      "https://images.unsplash.com/photo-1572453800999-e8d2d1589b7c?ixlib=rb-4.0.3&ixid=M3wxMjA3fDB8MHxwaG90by1wYWdlfHx8fGVufDB8fHx8fA%3D%3D&auto=format&fit=crop&w=1470&q=80",
      "Européens", None),
    FoodItem("eu2", "Steak Frites", "Steak grillé servi avec des frites", "12000 FCFA",
      "https://images.unsplash.com/photo-1600891964092-4316c288032e?ixlib=rb-4.0.3&ixid=M3wxMjA3fDB8MHxwaG90by1wYWdlfHx8fGVufDB8fHx8fA%3D%3D&auto=format&fit=crop&w=1470&q=80",
      "Européens", None),
    FoodItem("ff1", "Hamburger", "Burger de bœuf avec fromage et légumes", "5500 FCFA",
      "https://images.unsplash.com/photo-1568901346375-23c9450c58cd?ixlib=rb-4.0.3&ixid=M3wxMjA3fDB8MHxwaG90by1wYWdlfHx8fGVufDB8fHx8fA%3D%3D&auto=format&fit=crop&w=1299&q=80",
      "Fast Food", None),
    FoodItem("ff2", "Pizza Margherita", "Pizza classique avec tomate et mozzarella", "7000 FCFA",
      "https://images.unsplash.com/photo-1574071318508-1cdbab80d002?ixlib=rb-4.0.3&ixid=M3wxMjA3fDB8MHxwaG90by1wYWdlfHx8fGVufDB8fHx8fA%3D%3D&auto=format&fit=crop&w=1469&q=80",
      "Fast Food", None),
    FoodItem("gl1", "Sundae au chocolat", "Glace vanille avec sauce au chocolat", "3500 FCFA",
      "https://images.unsplash.com/photo-1563805042-7684c019e1cb?ixlib=rb-4.0.3&ixid=M3wxMjA3fDB8MHxwaG90by1wYWdlfHx8fGVufDB8fHx8fA%3D%3D&auto=format&fit=crop&w=327&q=80",
      "Glacerie", None),
    FoodItem("gl2", "Sorbet aux fruits", "Assortiment de sorbets aux fruits frais", "4000 FCFA",
      "https://images.unsplash.com/photo-1488900128323-21503983a07e?ixlib=rb-4.0.3&ixid=M3wxMjA3fDB8MHxwaG90by1wYWdlfHx8fGVufDB8fHx8fA%3D%3D&auto=format&fit=crop&w=1374&q=80",
      "Glacerie", None),
    FoodItem("pz1", "Pizza Quatre Fromages", "Pizza avec mélange de quatre fromages", "8500 FCFA",
      "https://images.unsplash.com/photo-1513104890138-7c749659a591?ixlib=rb-4.0.3&ixid=M3wxMjA3fDB8MHxwaG90by1wYWdlfHx8fGVufDB8fHx8fA%3D%3D&auto=format&fit=crop&w=1470&q=80",
      "Pizzeria", None),
    FoodItem("pz2", "Calzone", "Pizza pliée farcie de viande et fromage", "7500 FCFA",
      "https://images.unsplash.com/photo-1585238342024-78d387f4a707?ixlib=rb-4.0.3&ixid=M3wxMjA3fDB8MHxwaG90by1wYWdlfHx8fGVufDB8fHx8fA%3D%3D&auto=format&fit=crop&w=1480&q=80",
      "Pizzeria", None),
    FoodItem("dr1", "Smoothie aux fruits", "Mélange rafraîchissant de fruits frais", "3000 FCFA",
      "https://images.unsplash.com/photo-1505252585461-04db1eb84625?ixlib=rb-4.0.3&ixid=M3wxMjA3fDB8MHxwaG90by1wYWdlfHx8fGVufDB8fHx8fA%3D%3D&auto=format&fit=crop&w=1416&q=80",
      "Boissons", None),
    FoodItem("dr2", "Café Latte", "Espresso avec du lait mousseux", "2500 FCFA",
      "https://images.unsplash.com/photo-1541167760496-1628856ab772?ixlib=rb-4.0.3&ixid=M3wxMjA3fDB8MHxwaG90by1wYWdlfHx8fGVufDB8fHx8fA%3D%3D&auto=format&fit=crop&w=1337&q=80",
      "Boissons", None)
  ]

  const CourseItems: seq<FoodItem> := [
    FoodItem("c1", "Tomates", "Tomates fraîches", "3000 FCFA/kg",
      "https://images.unsplash.com/photo-1546094096-0df4bcaaa337?ixlib=rb-4.0.3&ixid=M3wxMjA3fDB8MHxwaG90by1wYWdlfHx8fGVufDB8fHx8fA%3D%3D&auto=format&fit=crop&w=1374&q=80",
      "Fruits & Légumes", None),
    FoodItem("c2", "Lait", "Lait frais", "2500 FCFA/L",
      "https://images.unsplash.com/photo-1563636619-e9143da7973b?ixlib=rb-4.0.3&ixid=M3wxMjA3fDB8MHxwaG90by1wYWdlfHx8fGVufDB8fHx8fA%3D%3D&auto=format&fit=crop&w=1470&q=80",
      "Produits Laitiers", None),
    FoodItem("c3", "Riz basmati", "Riz basmati premium", "5000 FCFA/kg",
      "https://images.unsplash.com/photo-1586201375761-83865001e8ac?ixlib=rb-4.0.3&ixid=M3wxMjA3fDB8MHxwaG90by1wYWdlfHx8fGVufDB8fHx8fA%3D%3D&auto=format&fit=crop&w=1470&q=80",
      "Épicerie", None),
    FoodItem("c4", "Jus d'orange", "Jus d'orange pressé", "3500 FCFA/L",
      "https://images.unsplash.com/photo-1600271886742-f049cd451bba?ixlib=rb-4.0.3&ixid=M3wxMjA3fDB8MHxwaG90by1wYWdlfHx8fGVufDB8fHx8fA%3D%3D&auto=format&fit=crop&w=1374&q=80",
      "Boissons", None)
  ]

  const TogoleseSpecialties: seq<FoodItem> := [
    FoodItem("tg1", "Akpan", "Pâte de maïs fermentée servie avec une sauce épicée", "5500 FCFA",
      "https://images.unsplash.com/photo-1604329760661-e71dc83f8f26?ixlib=rb-4.0.3&ixid=M3wxMjA3fDB8MHxwaG90by1wYWdlfHx8fGVufDB8fHx8fA%3D%3D&auto=format&fit=crop&w=1470&q=80",
      "togolese", Some("Maritime")),
    FoodItem("tg2", "Fufu", "Pâte de manioc servie avec une sauce aux légumes", "6000 FCFA",
      "https://images.unsplash.com/photo-1512058564366-18510be2db19?ixlib=rb-4.0.3&ixid=M3wxMjA3fDB8MHxwaG90by1wYWdlfHx8fGVufDB8fHx8fA%3D%3D&auto=format&fit=crop&w=1472&q=80",
      "togolese", Some("Plateaux")),
    FoodItem("tg3", "Gboma Dessi", "Ragoût d'épinards avec viande ou poisson", "7000 FCFA",
      "https://images.unsplash.com/photo-1512621776951-a57141f2eefd?ixlib=rb-4.0.3&ixid=M3wxMjA3fDB8MHxwaG90by1wYWdlfHx8fGVufDB8fHx8fA%3D%3D&auto=format&fit=crop&w=1470&q=80",
      "togolese", Some("Centrale")),
    FoodItem("tg4", "Koklo Mémé", "Poulet grillé mariné aux épices togolaises", "8500 FCFA",
      "https://images.unsplash.com/photo-1598511796432-32663d0875bd?ixlib=rb-4.0.3&ixid=M3wxMjA3fDB8MHxwaG90by1wYWdlfHx8fGVufDB8fHx8fA%3D%3D&auto=format&fit=crop&w=1470&q=80",
      "togolese", Some("Kara"))
  ]

  const BannerImages: seq<string> := [
    "https://images.unsplash.com/photo-1504674900247-0877df9cc836?ixlib=rb-4.0.3&ixid=M3wxMjA3fDB8MHxwaG90by1wYWdlfHx8fGVufDB8fHx8fA%3D%3D&auto=format&fit=crop&w=1470&q=80",
    "https://images.unsplash.com/photo-1414235077428-338989a2e8c0?ixlib=rb-4.0.3&ixid=M3wxMjA3fDB8MHxwaG90by1wYWdlfHx8fGVufDB8fHx8fA%3D%3D&auto=format&fit=crop&w=1470&q=80",
    "https://images.unsplash.com/photo-1555396273-367ea4eb4db5?ixlib=rb-4.0.3&ixid=M3wxMjA3fDB8MHxwaG90by1wYWdlfHx8fGVufDB8fHx8fA%3D%3D&auto=format&fit=crop&w=1374&q=80"
  ]

  const Categories: seq<string> := [
    "Pour vous",
    "Petit Dej",
    "Africains",
    "Européens",
    "Fast Food",
    "Glacerie",
    "Pizzeria",
    "Boissons"
  ]

  const CourseCategories: seq<string> := [
    "Tous",
    "Épicerie",
    "Fruits & Légumes",
    "Produits Laitiers",
    "Boissons",
    "Snacks"
  ]

  /** The ids of a list of entries, in order. */
  function Ids(s: seq<FoodItem>): (r: seq<string>)
    ensures |r| == |s| && forall i :: 0 <= i < |s| ==> r[i] == s[i].id
  {
    seq(|s|, i requires 0 <= i < |s| => s[i].id)
  }

  /** The ids of every shipped item, in list order. */
  const AllIds: seq<string> := ["f1", "f2", "f3", "f4", "f5", "f6", "f7", "f8", "pd1", "pd2",
    "af1", "af2", "eu1", "eu2", "ff1", "ff2", "gl1", "gl2", "pz1", "pz2", "dr1", "dr2",
    "c1", "c2", "c3", "c4", "tg1", "tg2", "tg3", "tg4"]

  lemma IdsOfCatalog()
    ensures Ids(FoodItems + CourseItems + TogoleseSpecialties) == AllIds
  {
    var all := FoodItems + CourseItems + TogoleseSpecialties;
    assert Ids(FoodItems) == AllIds[..22];
    assert Ids(CourseItems) == AllIds[22..26];
    assert Ids(TogoleseSpecialties) == AllIds[26..];
    assert forall i :: 0 <= i < |all| ==> all[i].id == AllIds[i] by {
      forall i | 0 <= i < |all| ensures all[i].id == AllIds[i] {
        if i < 22 { assert all[i] == FoodItems[i]; assert Ids(FoodItems)[i] == AllIds[i]; }
        else if i < 26 { assert all[i] == CourseItems[i - 22]; assert Ids(CourseItems)[i - 22] == AllIds[i]; }
        else { assert all[i] == TogoleseSpecialties[i - 26]; assert Ids(TogoleseSpecialties)[i - 26] == AllIds[i]; }
      }
    }
  }

  /** Ids are unique across the three item lists together (so within each one). */
  lemma CatalogIdsUnique()
    ensures KeyedLists.UniqueIds(FoodItems + CourseItems + TogoleseSpecialties, FoodId)
  {
    IdsOfCatalog();
    AllIdsDistinct();
    var all := FoodItems + CourseItems + TogoleseSpecialties;
    forall i, j | 0 <= i < j < |all| ensures FoodId(all[i]) != FoodId(all[j]) {
      assert Ids(all)[i] == all[i].id && Ids(all)[j] == all[j].id;
    }
  }

  lemma AllIdsDistinct()
    ensures forall i, j :: 0 <= i < j < |AllIds| ==> AllIds[i] != AllIds[j]
  {
  }

  /** Every dish's category is one of the home-page category tabs. */
  lemma FoodItemCategoriesListed()
    ensures forall i :: 0 <= i < |FoodItems| ==> FoodItems[i].category in Categories
  {
  }

  /** Every grocery item's category is one of the grocery category tabs. */
  lemma CourseItemCategoriesListed()
    ensures forall i :: 0 <= i < |CourseItems| ==> CourseItems[i].category in CourseCategories
  {
  }

  /** Every Togolese specialty is in category "togolese" and names a region. */
  lemma SpecialtiesHaveRegions()
    ensures forall i :: 0 <= i < |TogoleseSpecialties| ==>
      TogoleseSpecialties[i].category == "togolese" && TogoleseSpecialties[i].region.Some?
  {
  }
}
