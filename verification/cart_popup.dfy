/**
 * The cart summary popup (src/components/CartPopup.tsx): one line per cart
 * line with its subtotal, the total, and a checkout button that is disabled
 * on an empty cart.
 */
module CartPopup {
  import opened Wrappers
  import opened Catalog
  import opened Prices

  /** A line of the summary: the dish, its quantity and its subtotal. */
  datatype SummaryLine = SummaryLine(name: string, quantity: int, subtotal: Option<int>)

  /** What the popup shows when it is visible. */
  datatype Summary = Summary(lines: seq<SummaryLine>, showsEmptyMessage: bool, total: Option<int>, checkoutDisabled: bool)

  /** The lines of the summary, in cart order. */
  function SummaryLines(items: seq<CartItem>): (r: seq<SummaryLine>)
    ensures |r| == |items|
    ensures forall i :: 0 <= i < |items| ==>
      r[i] == SummaryLine(items[i].food.name, items[i].quantity, LineValue(items[i]))
  {
    seq(|items|, i requires 0 <= i < |items| => SummaryLine(items[i].food.name, items[i].quantity, LineValue(items[i])))
  }

  /** The popup for `items`: nothing when it is not visible. Its total is the
      reduce of the cart screen, so both show the same amount; the empty-cart
      message and the disabled checkout button appear exactly on an empty
      cart, whose total is 0. */
  function Render(items: seq<CartItem>, isVisible: bool): (r: Option<Summary>)
    ensures r.None? <==> !isVisible
    ensures r.Some? ==> r.value.lines == SummaryLines(items)
    ensures r.Some? ==> r.value.total == SumOfLines(items)
    ensures r.Some? ==> (r.value.checkoutDisabled <==> |items| == 0)
    ensures r.Some? ==> (r.value.showsEmptyMessage <==> |items| == 0)
    ensures r.Some? && |items| == 0 ==> r.value.total == Some(0)
  {
    if !isVisible then None
    else
      CartTotalIsSumOfLines(items);
      Some(Summary(SummaryLines(items), |items| == 0, CartTotal(items), |items| == 0))
  }

  /** The sum of the subtotals shown, NaN as soon as one of them is. */
  function SumOfSubtotals(lines: seq<SummaryLine>): Option<int> {
    if lines == [] then Some(0) else Plus(lines[0].subtotal, SumOfSubtotals(lines[1..]))
  }

  /** The subtotals shown add up to the total shown. */
  lemma {:induction false} SubtotalsAddUpToTotal(items: seq<CartItem>)
    ensures SumOfSubtotals(SummaryLines(items)) == CartTotal(items)
  {
    SubtotalsAreLines(items);
    CartTotalIsSumOfLines(items);
  }

  lemma {:induction false} SubtotalsAreLines(items: seq<CartItem>)
    ensures SumOfSubtotals(SummaryLines(items)) == SumOfLines(items)
  {
    if items != [] {
      assert SummaryLines(items)[1..] == SummaryLines(items[1..]);
      SubtotalsAreLines(items[1..]);
    }
  }
}
