/**
 * The order history page (src/pages/Orders.tsx): a fixed list of sample
 * orders, the label and colour of each status, the accordion in which at
 * most one order is expanded, and the cancel button of pending orders.
 */
module Orders {
  import opened Wrappers
  import opened Text
  import opened Prices

  datatype Status = Pending | Delivered | Cancelled

  /** A line of an order: dish name, quantity and price label. */
  datatype OrderLine = OrderLine(name: string, quantity: int, price: string)

  /** An order; its `total` is a label stored with the order, not computed. */
  datatype Order = Order(id: string, date: string, status: Status, total: string, items: seq<OrderLine>)

  const SampleOrders: seq<Order> := [
    Order("CMD-001", "15 Juin 2023", Delivered, "24500 FCFA",
      [OrderLine("Poulet Yassa", 2, "8500 FCFA"), OrderLine("Alloco Poulet", 1, "7500 FCFA")]),
    Order("CMD-002", "22 Août 2023", Delivered, "18700 FCFA",
      [OrderLine("Thiéboudienne", 1, "9200 FCFA"), OrderLine("Ndolé", 1, "8800 FCFA"),
       OrderLine("Jus d'orange", 1, "700 FCFA")]),
    Order("CMD-003", "10 Octobre 2023", Cancelled, "15500 FCFA",
      [OrderLine("Mafé", 1, "9500 FCFA"), OrderLine("Fufu et Sauce Gombo", 1, "6000 FCFA")]),
    Order("CMD-004", "05 Janvier 2024", Pending, "10200 FCFA",
      [OrderLine("Attieke Poisson", 1, "10200 FCFA")])
  ]

  // --------------------------------------------------------------- statuses

  /** `getStatusText`. */
  function StatusText(s: Status): (t: string)
    ensures s == Delivered ==> t == "Livré"
    ensures s == Pending ==> t == "En cours"
    ensures s == Cancelled ==> t == "Annulé"
  {
    match s
    case Delivered => "Livré"
    case Pending => "En cours"
    case Cancelled => "Annulé"
  }

  /** `getStatusColor`: the badge classes of a status. */
  function StatusColor(s: Status): string {
    match s
    case Delivered => "bg-green-100 text-green-800"
    case Pending => "bg-yellow-100 text-yellow-800"
    case Cancelled => "bg-red-100 text-red-800"
  }

  /** Different statuses never share a label or a colour, so a status can be
      told from either. */
  lemma StatusesDistinguishable(a: Status, b: Status)
    ensures StatusText(a) == StatusText(b) <==> a == b
    ensures StatusColor(a) == StatusColor(b) <==> a == b
  {
  }

  /** The "Annuler la commande" button is shown for pending orders only. */
  function ShowsCancel(o: Order): (b: bool)
    ensures b <==> o.status == Pending
  {
    o.status == Pending
  }

  /** Among the samples only the last order can be cancelled. */
  lemma OnlyLastSampleCancellable()
    ensures forall i :: 0 <= i < |SampleOrders| ==> (ShowsCancel(SampleOrders[i]) <==> i == 3)
  {
  }

  // -------------------------------------------------------------- accordion

  /** `toggleOrderExpand(orderId)`: pressing the expanded order collapses
      it; pressing any other order expands that one instead, so at most one
      order is ever expanded. */
  function ToggleOrderExpand(expanded: Option<string>, orderId: string): (r: Option<string>)
    ensures r.None? <==> expanded == Some(orderId)
    ensures r.Some? ==> r.value == orderId
  {
    if expanded == Some(orderId) then None else Some(orderId)
  }

  /** Pressing the same order twice restores the accordion when nothing or
      that order was expanded before. */
  lemma ToggleOrderExpandTwice(expanded: Option<string>, orderId: string)
    requires expanded == None || expanded == Some(orderId)
    ensures ToggleOrderExpand(ToggleOrderExpand(expanded, orderId), orderId) == expanded
  {
  }

  /** When another order was expanded, pressing one order twice collapses
      everything rather than going back to the other order. */
  lemma ToggleOrderExpandTwiceFromOther(other: string, orderId: string)
    requires other != orderId
    ensures ToggleOrderExpand(ToggleOrderExpand(Some(other), orderId), orderId) == None
  {
  }

  // ----------------------------------------------------------------- totals

  /** The value of an order line: its price label's digits times its
      quantity, NaN when the label has no digit. */
  function OrderLineValue(l: OrderLine): Option<int> {
    var p := ParsePrice(l.price);
    if p.Some? then Some(p.value * l.quantity) else None
  }

  /** The sum of the line values of an order. */
  function LinesTotal(items: seq<OrderLine>): Option<int> {
    if items == [] then Some(0) else Plus(OrderLineValue(items[0]), LinesTotal(items[1..]))
  }

  /** A "<n> FCFA" label reads as n. */
  lemma FcfaLabel(n: nat)
    ensures ParsePrice(NatToString(n) + " FCFA") == Some(n)
  {
    PriceOfLabel(n, " FCFA");
  }

  lemma {:induction false} LinesTotalOfTwo(a: OrderLine, b: OrderLine)
    ensures LinesTotal([a, b]) == Plus(OrderLineValue(a), Plus(OrderLineValue(b), Some(0)))
  {
    assert [a, b][1..] == [b];
    assert [b][1..] == [];
    assert LinesTotal([b]) == Plus(OrderLineValue(b), LinesTotal([]));
  }

  lemma {:induction false} LinesTotalOfThree(a: OrderLine, b: OrderLine, c: OrderLine)
    ensures LinesTotal([a, b, c]) == Plus(OrderLineValue(a), LinesTotal([b, c]))
  {
    assert [a, b, c][1..] == [b, c];
  }

  // The labels of the sample lines, each read back through `FcfaLabel`.

  lemma Label8500() ensures ParsePrice("8500 FCFA") == Some(8500) {
    FcfaLabel(8500);
    assert NatToString(8500) + " FCFA" == "8500 FCFA";
  }

  lemma Label7500() ensures ParsePrice("7500 FCFA") == Some(7500) {
    FcfaLabel(7500);
    assert NatToString(7500) + " FCFA" == "7500 FCFA";
  }

  lemma Label9200() ensures ParsePrice("9200 FCFA") == Some(9200) {
    FcfaLabel(9200);
    assert NatToString(9200) + " FCFA" == "9200 FCFA";
  }

  lemma Label8800() ensures ParsePrice("8800 FCFA") == Some(8800) {
    FcfaLabel(8800);
    assert NatToString(8800) + " FCFA" == "8800 FCFA";
  }

  lemma Label700() ensures ParsePrice("700 FCFA") == Some(700) {
    FcfaLabel(700);
    assert NatToString(700) + " FCFA" == "700 FCFA";
  }

  lemma Label9500() ensures ParsePrice("9500 FCFA") == Some(9500) {
    FcfaLabel(9500);
    assert NatToString(9500) + " FCFA" == "9500 FCFA";
  }

  lemma Label6000() ensures ParsePrice("6000 FCFA") == Some(6000) {
    FcfaLabel(6000);
    assert NatToString(6000) + " FCFA" == "6000 FCFA";
  }

  /** The stored label of an order is its lines' sum printed in FCFA. */
  predicate LabelIsLinesTotal(o: Order) {
    var t := LinesTotal(o.items);
    t.Some? && t.value >= 0 && o.total == NatToString(t.value) + " FCFA"
  }

  /** Such an order's label reads back as the sum of its lines. */
  lemma TotalsAgree(o: Order)
    requires LabelIsLinesTotal(o)
    ensures ParsePrice(o.total) == LinesTotal(o.items)
  {
    FcfaLabel(LinesTotal(o.items).value);
  }

  /** 2 × 8500 + 7500 = 24500. */
  lemma FirstSampleLines()
    ensures LinesTotal(SampleOrders[0].items) == Some(24500)
    ensures LabelIsLinesTotal(SampleOrders[0])
  {
    assert SampleOrders[0].total == NatToString(24500) + " FCFA";
    Label8500();
    Label7500();
    var a, b := OrderLine("Poulet Yassa", 2, "8500 FCFA"), OrderLine("Alloco Poulet", 1, "7500 FCFA");
    LinesTotalOfTwo(a, b);
  }

  /** 9200 + 8800 + 700 = 18700. */
  lemma SecondSampleLines()
    ensures LinesTotal(SampleOrders[1].items) == Some(18700)
    ensures LabelIsLinesTotal(SampleOrders[1])
  {
    assert SampleOrders[1].total == NatToString(18700) + " FCFA";
    Label9200();
    Label8800();
    Label700();
    var a, b, c := OrderLine("Thiéboudienne", 1, "9200 FCFA"), OrderLine("Ndolé", 1, "8800 FCFA"),
      OrderLine("Jus d'orange", 1, "700 FCFA");
    LinesTotalOfThree(a, b, c);
    LinesTotalOfTwo(b, c);
  }

  /** 9500 + 6000 = 15500. */
  lemma ThirdSampleLines()
    ensures LinesTotal(SampleOrders[2].items) == Some(15500)
    ensures LabelIsLinesTotal(SampleOrders[2])
  {
    assert SampleOrders[2].total == NatToString(15500) + " FCFA";
    Label9500();
    Label6000();
    var a, b := OrderLine("Mafé", 1, "9500 FCFA"), OrderLine("Fufu et Sauce Gombo", 1, "6000 FCFA");
    LinesTotalOfTwo(a, b);
  }

  /** A single line of 10200. */
  lemma FourthSampleLines()
    ensures LinesTotal(SampleOrders[3].items) == Some(10200)
    ensures LabelIsLinesTotal(SampleOrders[3])
  {
    assert SampleOrders[3].total == NatToString(10200) + " FCFA";
    var items := SampleOrders[3].items;
    FcfaLabel(10200);
    assert NatToString(10200) + " FCFA" == items[0].price;
    assert ParsePrice(items[0].price) == Some(10200);
    assert items[1..] == [];
  }

  /** Every sample order's stored total is the sum of its lines, so the
      total shown reads as that sum. */
  lemma SampleTotalsMatchLines()
    ensures forall i :: 0 <= i < |SampleOrders| ==> LabelIsLinesTotal(SampleOrders[i])
  {
    forall i | 0 <= i < |SampleOrders| ensures LabelIsLinesTotal(SampleOrders[i]) {
      if i == 0 {
        FirstSampleLines();
      } else if i == 1 {
        SecondSampleLines();
      } else if i == 2 {
        ThirdSampleLines();
      } else {
        FourthSampleLines();
      }
    }
  }
}
