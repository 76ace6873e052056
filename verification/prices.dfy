/**
 * Reading a price tag and totalling a cart, as Cart.tsx and CartPopup.tsx
 * do: every non-digit of the tag is deleted, the rest is read by
 * `parseInt` and multiplied by the quantity. `parseInt('')` is NaN, and NaN
 * spreads through every later `+` and `*`; `None` stands for it here.
 */
module Prices {
  import opened Wrappers
  import opened Text
  import opened Catalog

  /** The digits of `s[i..]`, in order: `s.replace(/[^0-9]/g, '')` from position `i`. */
  function DigitsFrom(s: string, i: nat): (d: string)
    ensures AllDigits(d)
    ensures d == [] <==> forall k :: i <= k < |s| ==> !IsDigit(s[k])
    decreases |s| - i
  {
    if i >= |s| then []
    else (if IsDigit(s[i]) then [s[i]] else []) + DigitsFrom(s, i + 1)
  }

  /** `parseInt(tag.replace(/[^0-9]/g, ''))`; `None` is NaN. */
  function ParsePrice(tag: string): (r: Option<nat>)
    ensures r.None? <==> forall k :: 0 <= k < |tag| ==> !IsDigit(tag[k])
  {
    var d := DigitsFrom(tag, 0);
    if d == [] then None else Some(DecimalValue(d))
  }

  /** `parseInt(tag)` on a tag that starts with digits: the value of the
      leading run of digits, read from position `i` after the value `acc`. */
  function LeadingValue(s: string, i: nat, acc: nat): nat
    decreases |s| - i
  {
    if i < |s| && IsDigit(s[i]) then LeadingValue(s, i + 1, acc * 10 + DigitValue(s[i])) else acc
  }

  /** Deleting the non-digits of `a + b` deletes them from each part. */
  lemma {:induction false} DigitsFromAppend(a: string, b: string, i: nat)
    requires i <= |a|
    ensures DigitsFrom(a + b, i) == DigitsFrom(a, i) + DigitsFrom(b, 0)
    decreases |a| - i
  {
    if i == |a| {
      DigitsFromShift(a, b, 0);
      assert DigitsFrom(a, i) == [];
    } else {
      var c := if IsDigit(a[i]) then [a[i]] else [];
      assert (a + b)[i] == a[i];
      assert DigitsFrom(a + b, i) == c + DigitsFrom(a + b, i + 1);
      assert DigitsFrom(a, i) == c + DigitsFrom(a, i + 1);
      DigitsFromAppend(a, b, i + 1);
      assert c + (DigitsFrom(a, i + 1) + DigitsFrom(b, 0)) == (c + DigitsFrom(a, i + 1)) + DigitsFrom(b, 0);
    }
  }

  lemma {:induction false} DigitsFromShift(a: string, b: string, j: nat)
    requires j <= |b|
    ensures DigitsFrom(a + b, |a| + j) == DigitsFrom(b, j)
    decreases |b| - j
  {
    if j < |b| {
      assert (a + b)[|a| + j] == b[j];
      DigitsFromShift(a, b, j + 1);
    }
  }

  /** A string of digits is its own digit extraction. */
  lemma {:induction false} DigitsFromOfDigits(d: string, i: nat)
    requires AllDigits(d) && i <= |d|
    ensures DigitsFrom(d, i) == d[i..]
    decreases |d| - i
  {
    if i < |d| {
      DigitsFromOfDigits(d, i + 1);
      assert d[i..] == [d[i]] + d[i + 1..];
    }
  }

  /** A tag made of an amount followed by a digit-free unit ("8500" + " FCFA",
      "3000" + " FCFA/kg") reads back as that amount. */
  lemma PriceOfLabel(amount: nat, unit: string)
    requires forall k :: 0 <= k < |unit| ==> !IsDigit(unit[k])
    ensures ParsePrice(NatToString(amount) + unit) == Some(amount)
  {
    var a := NatToString(amount);
    DigitsFromAppend(a, unit, 0);
    DigitsFromOfDigits(a, 0);
    assert a[0..] == a;
    assert DigitsFrom(a + unit, 0) == a;
    DecimalValueOfNatToString(amount);
  }

  // ------------------------------------------------ well-formed price tags

  /** The end of the run of digits that starts at `s[i]`. */
  function DigitRunEnd(s: string, i: nat): nat
    decreases |s| - i
  {
    if i < |s| && IsDigit(s[i]) then DigitRunEnd(s, i + 1) else i
  }

  /** No digit occurs in `s[i..]`. */
  predicate NoDigitFrom(s: string, i: nat)
    decreases |s| - i
  {
    i >= |s| || (!IsDigit(s[i]) && NoDigitFrom(s, i + 1))
  }

  /** A tag shaped like every catalogue tag: an amount, then a unit without
      digits ("8500 FCFA", "3000 FCFA/kg", "2500 FCFA/L"). */
  predicate WellFormedPrice(tag: string) {
    var k := DigitRunEnd(tag, 0);
    k > 0 && NoDigitFrom(tag, k)
  }

  lemma {:induction false} DigitRunEndBounds(s: string, i: nat)
    requires i <= |s| && forall j :: 0 <= j < i ==> IsDigit(s[j])
    ensures i <= DigitRunEnd(s, i) <= |s|
    ensures forall j :: 0 <= j < DigitRunEnd(s, i) ==> IsDigit(s[j])
    ensures DigitRunEnd(s, i) < |s| ==> !IsDigit(s[DigitRunEnd(s, i)])
    decreases |s| - i
  {
    if i < |s| && IsDigit(s[i]) {
      DigitRunEndBounds(s, i + 1);
    }
  }

  lemma {:induction false} NoDigitFromAll(s: string, i: nat)
    requires NoDigitFrom(s, i)
    ensures forall j :: i <= j < |s| ==> !IsDigit(s[j])
    decreases |s| - i
  {
    if i < |s| {
      NoDigitFromAll(s, i + 1);
    }
  }

  /** `parseInt` stops at the first non-digit: on a run of digits ending at
      `k` it reads the value of `s[..k]`. */
  lemma {:induction false} LeadingValueOfRun(s: string, i: nat, k: nat, acc: nat)
    requires i <= k <= |s|
    requires forall j :: 0 <= j < k ==> IsDigit(s[j])
    requires k < |s| ==> !IsDigit(s[k])
    ensures AllDigits(s[..k]) && LeadingValue(s, i, acc) == ValueFrom(s[..k], i, acc)
    decreases k - i
  {
    assert forall j :: 0 <= j < k ==> s[..k][j] == s[j];
    if i < k {
      assert s[..k][i] == s[i];
      LeadingValueOfRun(s, i + 1, k, acc * 10 + DigitValue(s[i]));
    }
  }

  /** On a well-formed tag, deleting the non-digits and reading the rest
      gives the same number as reading the leading amount alone: the unit
      contributes no digit. */
  lemma WellFormedPriceReads(tag: string)
    requires WellFormedPrice(tag)
    ensures ParsePrice(tag) == Some(LeadingValue(tag, 0, 0))
  {
    var k := DigitRunEnd(tag, 0);
    DigitRunEndBounds(tag, 0);
    NoDigitFromAll(tag, k);
    var a, b := tag[..k], tag[k..];
    assert tag == a + b;
    assert AllDigits(a) by {
      forall j | 0 <= j < |a| ensures IsDigit(a[j]) { assert a[j] == tag[j]; }
    }
    DigitsFromAppend(a, b, 0);
    DigitsFromOfDigits(a, 0);
    assert a[0..] == a;
    assert DigitsFrom(b, 0) == [] by {
      forall j | 0 <= j < |b| ensures !IsDigit(b[j]) { assert b[j] == tag[k + j]; }
    }
    assert DigitsFrom(tag, 0) == a;
    LeadingValueOfRun(tag, 0, k, 0);
  }

  // The price tags the catalogue uses, in groups small enough to check one
  // by one.
  const TagGroup0: seq<string> := ["8500 FCFA", "9500 FCFA", "9200 FCFA", "10200 FCFA", "5200 FCFA", "8800 FCFA"]
  const TagGroup1: seq<string> := ["7500 FCFA", "6800 FCFA", "800 FCFA", "1500 FCFA", "7200 FCFA", "12000 FCFA"]
  const TagGroup2: seq<string> := ["5500 FCFA", "7000 FCFA", "3500 FCFA", "4000 FCFA", "3000 FCFA", "2500 FCFA"]
  const TagGroup3: seq<string> := ["3000 FCFA/kg", "2500 FCFA/L", "5000 FCFA/kg", "3500 FCFA/L", "6000 FCFA"]

  lemma TagGroup0WellFormed() ensures forall t :: t in TagGroup0 ==> WellFormedPrice(t) { }
  lemma TagGroup1WellFormed() ensures forall t :: t in TagGroup1 ==> WellFormedPrice(t) { }
  lemma TagGroup2WellFormed() ensures forall t :: t in TagGroup2 ==> WellFormedPrice(t) { }
  lemma TagGroup3WellFormed() ensures forall t :: t in TagGroup3 ==> WellFormedPrice(t) { }

  lemma CatalogTagsGrouped()
    ensures forall i :: 0 <= i < |FoodItems| ==> FoodItems[i].price in TagGroup0 + TagGroup1 + TagGroup2 + TagGroup3
    ensures forall i :: 0 <= i < |CourseItems| ==> CourseItems[i].price in TagGroup0 + TagGroup1 + TagGroup2 + TagGroup3
    ensures forall i :: 0 <= i < |TogoleseSpecialties| ==>
      TogoleseSpecialties[i].price in TagGroup0 + TagGroup1 + TagGroup2 + TagGroup3
  {
  }

  /** Every entry of a list whose price tag is well formed reads as its
      leading amount. */
  lemma WellFormedListReads(items: seq<FoodItem>, tags: seq<string>)
    requires forall t :: t in tags ==> WellFormedPrice(t)
    requires forall i :: 0 <= i < |items| ==> items[i].price in tags
    ensures forall i :: 0 <= i < |items| ==> ParsePrice(items[i].price) == Some(LeadingValue(items[i].price, 0, 0))
  {
    forall i | 0 <= i < |items| ensures ParsePrice(items[i].price) == Some(LeadingValue(items[i].price, 0, 0)) {
      WellFormedPriceReads(items[i].price);
    }
  }

  /** Every catalogue price tag holds digits, and deleting its non-digits
      yields its leading amount ("3000 FCFA/kg" reads as 3000). */
  lemma CatalogPricesRead()
    ensures forall i :: 0 <= i < |FoodItems| ==>
      ParsePrice(FoodItems[i].price) == Some(LeadingValue(FoodItems[i].price, 0, 0))
    ensures forall i :: 0 <= i < |CourseItems| ==>
      ParsePrice(CourseItems[i].price) == Some(LeadingValue(CourseItems[i].price, 0, 0))
    ensures forall i :: 0 <= i < |TogoleseSpecialties| ==>
      ParsePrice(TogoleseSpecialties[i].price) == Some(LeadingValue(TogoleseSpecialties[i].price, 0, 0))
    ensures CourseItems[0].price == "3000 FCFA/kg" && ParsePrice(CourseItems[0].price) == Some(3000)
  {
    var tags := TagGroup0 + TagGroup1 + TagGroup2 + TagGroup3;
    TagGroup0WellFormed();
    TagGroup1WellFormed();
    TagGroup2WellFormed();
    TagGroup3WellFormed();
    assert forall t :: t in tags ==> WellFormedPrice(t);
    CatalogTagsGrouped();
    WellFormedListReads(FoodItems, tags);
    WellFormedListReads(CourseItems, tags);
    WellFormedListReads(TogoleseSpecialties, tags);
    assert LeadingValue("3000 FCFA/kg", 0, 0) == 3000;
  }

  // ---------------------------------------------------------------- totals

  /** `NaN`-propagating `+`. */
  function Plus(x: Option<int>, y: Option<int>): Option<int> {
    if x.Some? && y.Some? then Some(x.value + y.value) else None
  }

  /** `parseInt(item.price.replace(/[^0-9]/g, '')) * item.quantity`. */
  function LineValue(item: CartItem): Option<int> {
    var p := ParsePrice(item.food.price);
    if p.Some? then Some(p.value * item.quantity) else None
  }

  /** `items.reduce((total, item) => total + LineValue(item), acc)`. */
  function Reduce(items: seq<CartItem>, acc: Option<int>): Option<int> {
    if items == [] then acc else Reduce(items[1..], Plus(acc, LineValue(items[0])))
  }

  /** The cart total of Cart.tsx and CartPopup.tsx: the reduce started at 0. */
  function CartTotal(items: seq<CartItem>): Option<int> {
    Reduce(items, Some(0))
  }

  /** Reference definition of a total: the sum of the line values. */
  function SumOfLines(items: seq<CartItem>): Option<int> {
    if items == [] then Some(0) else Plus(LineValue(items[0]), SumOfLines(items[1..]))
  }

  lemma {:induction false} ReduceIsSum(items: seq<CartItem>, acc: Option<int>)
    ensures Reduce(items, acc) == Plus(acc, SumOfLines(items))
  {
    if items != [] {
      ReduceIsSum(items[1..], Plus(acc, LineValue(items[0])));
    }
  }

  /** The reduce computes the sum of digitsValue(price) × quantity over the cart. */
  lemma CartTotalIsSumOfLines(items: seq<CartItem>)
    ensures CartTotal(items) == SumOfLines(items)
  {
    ReduceIsSum(items, Some(0));
  }

  /** The total is a number exactly when every tag holds a digit; otherwise NaN. */
  lemma {:induction false} TotalDefinedIff(items: seq<CartItem>)
    ensures SumOfLines(items).Some? <==>
      forall i :: 0 <= i < |items| ==> ParsePrice(items[i].food.price).Some?
  {
    if items != [] {
      TotalDefinedIff(items[1..]);
      assert forall i :: 1 <= i < |items| ==> items[i] == items[1..][i - 1];
    }
  }

  /** A two-line cart totals the sum of its two line values. */
  lemma TwoLineTotal(a: CartItem, b: CartItem)
    ensures CartTotal([a, b]) == Plus(LineValue(a), LineValue(b))
  {
    var items := [a, b];
    assert items[1..] == [b] && items[1..][1..] == [];
    assert SumOfLines([b]) == Plus(LineValue(b), Some(0));
    CartTotalIsSumOfLines(items);
  }

  /** A tag "<amount> FCFA" reads as the amount. */
  lemma FcfaReads(amount: nat, tag: string)
    requires tag == NatToString(amount) + " FCFA"
    ensures ParsePrice(tag) == Some(amount)
  {
    PriceOfLabel(amount, " FCFA");
  }

  /** The price tag of a Poulet Yassa, "8500 FCFA", reads as 8500. */
  lemma YassaPrice()
    ensures FoodItems[0].price == "8500 FCFA" && ParsePrice(FoodItems[0].price) == Some(8500)
  {
    var tag := FoodItems[0].price;
    assert tag == "8500 FCFA";
    assert NatToString(8500) + " FCFA" == tag;
    FcfaReads(8500, tag);
  }

  /** The price tag of an omelette, "1500 FCFA", reads as 1500. */
  lemma OmelettePrice()
    ensures FoodItems[9].price == "1500 FCFA" && ParsePrice(FoodItems[9].price) == Some(1500)
  {
    var tag := FoodItems[9].price;
    assert tag == "1500 FCFA";
    assert NatToString(1500) + " FCFA" == tag;
    FcfaReads(1500, tag);
  }

  /** The cart of two Poulet Yassa at "8500 FCFA" and one omelette at "1500 FCFA"
      totals 18500. */
  lemma TwoDishScenario()
    ensures CartTotal([CartItem(FoodItems[0], 2), CartItem(FoodItems[9], 1)]) == Some(18500)
  {
    YassaPrice();
    OmelettePrice();
    TwoLineTotal(CartItem(FoodItems[0], 2), CartItem(FoodItems[9], 1));
  }

  /** An empty cart totals 0. */
  lemma EmptyCartTotal()
    ensures CartTotal([]) == Some(0)
  {
  }
}
