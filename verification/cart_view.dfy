/**
 * The cart screen (src/pages/Cart.tsx): the total of the cart, the +/-
 * buttons that forward to the page's handlers, and the checkout form whose
 * submission assembles the order text sent by message.
 */
module CartView {
  import opened Wrappers
  import opened Text
  import opened Catalog
  import opened Prices

  // ------------------------------------------------------- quantity buttons

  /** The parent handler a +/- button calls. */
  datatype Callback = RemoveFromCart(id: string) | UpdateQuantity(line: CartItem, quantity: int)

  /** `handleQuantityChange(item, change)`: the requested quantity is
      `max(0, quantity + change)`; at 0 the line is removed, otherwise the
      parent is asked for that quantity. */
  function QuantityChange(line: CartItem, change: int): (c: Callback)
    ensures c.RemoveFromCart? <==> line.quantity + change <= 0
    ensures c.RemoveFromCart? ==> c.id == CartId(line)
    ensures c.UpdateQuantity? ==> c.line == line && c.quantity == line.quantity + change && c.quantity > 0
  {
    var q := if 0 > line.quantity + change then 0 else line.quantity + change;
    if q == 0 then RemoveFromCart(CartId(line)) else UpdateQuantity(line, q)
  }

  // ------------------------------------------------------------ order text

  /** Lines joined with a newline between each two. */
  function Join(lines: seq<string>): string {
    if |lines| == 0 then "" else if |lines| == 1 then lines[0] else lines[0] + "\n" + Join(lines[1..])
  }

  lemma {:induction false} JoinAppend(lines: seq<string>, x: string)
    requires lines != []
    ensures Join(lines + [x]) == Join(lines) + "\n" + x
    decreases |lines|
  {
    if |lines| == 1 {
      assert (lines + [x])[1..] == [x];
    } else {
      assert (lines + [x])[1..] == lines[1..] + [x];
      JoinAppend(lines[1..], x);
    }
  }

  /** A number as a template literal prints it; NaN prints as "NaN". */
  function NumberText(n: Option<int>): string {
    if n.Some? then IntToString(n.value) else "NaN"
  }

  /** The line of the order text for one cart line. */
  function ItemLine(line: CartItem): string {
    "- " + IntToString(line.quantity) + "x " + line.food.name + " (" + line.food.price + ")"
  }

  function ItemLines(items: seq<CartItem>): (r: seq<string>)
    ensures |r| == |items| && forall i :: 0 <= i < |items| ==> r[i] == ItemLine(items[i])
  {
    seq(|items|, i requires 0 <= i < |items| => ItemLine(items[i]))
  }

  /** The lines before the cart lines: a header, the customer's name, phone
      and location, and the heading of the details. */
  function HeaderLines(name: string, phone: string, location: string): (r: seq<string>)
    ensures |r| == 7
  {
    ["*NOUVELLE COMMANDE*", "", "*Client:* " + name, "*Téléphone:* " + phone,
     "*Localisation:* " + location, "", "*Détails de la commande:*"]
  }

  /** The last line of the order text. */
  function TotalLine(items: seq<CartItem>): string {
    "*Total:* " + NumberText(CartTotal(items)) + " FCFA"
  }

  /** A header, a body and a closing line, with an empty line before the
      closing one. */
  function Assemble(head: seq<string>, body: seq<string>, last: string): (r: seq<string>)
    ensures |r| == |head| + |body| + 2
    ensures r[..|head|] == head
    ensures forall i :: 0 <= i < |body| ==> r[|head| + i] == body[i]
    ensures r[|r| - 2] == "" && r[|r| - 1] == last
  {
    var r := head + body + ["", last];
    assert r[..|head|] == head;
    r
  }

  /** The order text, line by line: the header lines, one line per cart line
      in cart order, an empty line and the total. */
  function OrderLines(name: string, phone: string, location: string, items: seq<CartItem>): (r: seq<string>)
    ensures |r| == |items| + 9
    ensures r[..7] == HeaderLines(name, phone, location)
    ensures forall i :: 0 <= i < |items| ==> r[7 + i] == ItemLine(items[i])
    ensures r[|r| - 2] == "" && r[|r| - 1] == TotalLine(items)
  {
    var head, body := HeaderLines(name, phone, location), ItemLines(items);
    var r := Assemble(head, body, TotalLine(items));
    assert forall i :: 0 <= i < |items| ==> r[7 + i] == body[i];
    r
  }

  /** Seven lines joined, written out. */
  lemma JoinSeven(l0: string, l1: string, l2: string, l3: string, l4: string, l5: string, l6: string)
    ensures Join([l0, l1, l2, l3, l4, l5, l6]) ==
      l0 + "\n" + l1 + "\n" + l2 + "\n" + l3 + "\n" + l4 + "\n" + l5 + "\n" + l6
  {
    var s := [l0, l1, l2, l3, l4, l5, l6];
    assert Join([l5, l6]) == l5 + "\n" + l6 by { assert [l5, l6][1..] == [l6]; }
    assert Join([l4, l5, l6]) == l4 + "\n" + Join([l5, l6]) by { assert [l4, l5, l6][1..] == [l5, l6]; }
    assert Join([l3, l4, l5, l6]) == l3 + "\n" + Join([l4, l5, l6]) by {
      assert [l3, l4, l5, l6][1..] == [l4, l5, l6];
    }
    assert Join([l2, l3, l4, l5, l6]) == l2 + "\n" + Join([l3, l4, l5, l6]) by {
      assert [l2, l3, l4, l5, l6][1..] == [l3, l4, l5, l6];
    }
    assert Join([l1, l2, l3, l4, l5, l6]) == l1 + "\n" + Join([l2, l3, l4, l5, l6]) by {
      assert [l1, l2, l3, l4, l5, l6][1..] == [l2, l3, l4, l5, l6];
    }
    assert Join(s) == l0 + "\n" + Join([l1, l2, l3, l4, l5, l6]) by {
      assert s[1..] == [l1, l2, l3, l4, l5, l6];
    }
  }

  /** The five appends of the header produce the header lines joined, with
      a newline after the last one. */
  lemma HeaderText(name: string, phone: string, location: string)
    ensures Join(HeaderLines(name, phone, location)) + "\n" ==
      "*NOUVELLE COMMANDE*\n\n" + "*Client:* " + name + "\n" + "*Téléphone:* " + phone + "\n" +
      "*Localisation:* " + location + "\n\n" + "*Détails de la commande:*\n"
  {
    JoinSeven("*NOUVELLE COMMANDE*", "", "*Client:* " + name, "*Téléphone:* " + phone,
      "*Localisation:* " + location, "", "*Détails de la commande:*");
  }

  /** One more cart line adds one more item line at the end. */
  lemma ItemLinesSnoc(items: seq<CartItem>, i: nat)
    requires i < |items|
    ensures ItemLines(items[..i + 1]) == ItemLines(items[..i]) + [ItemLine(items[i])]
  {
  }

  /** Extending the lines joined so far by one item line. */
  lemma JoinItemStep(head: seq<string>, items: seq<CartItem>, i: nat)
    requires head != [] && i < |items|
    ensures Join(head + ItemLines(items[..i + 1])) == Join(head + ItemLines(items[..i])) + "\n" + ItemLine(items[i])
  {
    ItemLinesSnoc(items, i);
    assert head + ItemLines(items[..i + 1]) == head + ItemLines(items[..i]) + [ItemLine(items[i])];
    JoinAppend(head + ItemLines(items[..i]), ItemLine(items[i]));
  }

  /** Joining an assembled text: the header and body joined, then an empty
      line and the closing line. */
  lemma JoinAssemble(head: seq<string>, body: seq<string>, last: string)
    requires head != []
    ensures Join(Assemble(head, body, last)) == Join(head + body) + "\n" + "\n" + last
  {
    var hb := head + body;
    JoinAppend(hb, "");
    JoinAppend(hb + [""], last);
    assert Assemble(head, body, last) == hb + [""] + [last];
  }

  /** The message of `handleSubmitOrder`, appended to piece by piece as the
      handler does; it is the order lines joined by newlines. */
  method BuildOrderMessage(name: string, phone: string, location: string, items: seq<CartItem>)
    returns (message: string)
    ensures message == Join(OrderLines(name, phone, location, items))
  {
    message := "*NOUVELLE COMMANDE*\n\n";
    message := message + "*Client:* " + name + "\n";
    message := message + "*Téléphone:* " + phone + "\n";
    message := message + "*Localisation:* " + location + "\n\n";
    message := message + "*Détails de la commande:*\n";
    HeaderText(name, phone, location);
    ghost var head := HeaderLines(name, phone, location);
    assert head + ItemLines(items[..0]) == head;
    var i := 0;
    while i < |items|
      invariant 0 <= i <= |items|
      invariant message == Join(head + ItemLines(items[..i])) + "\n"
    {
      JoinItemStep(head, items, i);
      message := message + ItemLine(items[i]) + "\n";
      i := i + 1;
    }
    assert items[..i] == items;
    JoinAssemble(head, ItemLines(items), TotalLine(items));
    message := message + "\n" + TotalLine(items);
  }

  // --------------------------------------------------------- checkout form

  /** The inputs of the checkout form, by their `name` attribute. */
  datatype Field = Location | Name | Phone

  /** The checkout form's state: whether it is shown and its three inputs. */
  class Checkout {
    var showForm: bool
    var location: string
    var name: string
    var phone: string

    constructor ()
      ensures !showForm && location == [] && name == [] && phone == []
    {
      showForm, location, name, phone := false, [], [], [];
    }

    /** The "Passer la commande" button shows the form. */
    method Open()
      modifies this
      ensures showForm && location == old(location) && name == old(name) && phone == old(phone)
    {
      showForm := true;
    }

    /** `handleFormChange`: the input named `field` takes `value`; the two
        others keep theirs. */
    method FormChange(field: Field, value: string)
      modifies this
      ensures showForm == old(showForm)
      ensures location == (if field == Location then value else old(location))
      ensures name == (if field == Name then value else old(name))
      ensures phone == (if field == Phone then value else old(phone))
    {
      match field
      case Location => location := value;
      case Name => name := value;
      case Phone => phone := value;
    }

    /** Whether the browser lets the form be submitted: all three inputs
        carry `required`, so a submission with an empty input is stopped
        before `handleSubmitOrder` runs. */
    predicate CanSubmit()
      reads this
    {
      location != [] && name != [] && phone != []
    }

    /** A submission of the checkout form. While an input is empty the
        browser refuses it: nothing is sent and the form stays as it was.
        Otherwise `handleSubmitOrder` returns the order text that is sent,
        then hides the form and empties its three inputs. */
    method SubmitOrder(items: seq<CartItem>) returns (message: Option<string>)
      modifies this
      ensures !old(CanSubmit()) ==>
        message == None && showForm == old(showForm) &&
        location == old(location) && name == old(name) && phone == old(phone)
      ensures old(CanSubmit()) ==>
        message == Some(Join(OrderLines(old(name), old(phone), old(location), items))) &&
        !showForm && location == [] && name == [] && phone == []
    {
      if !CanSubmit() {
        message := None;
      } else {
        var text := BuildOrderMessage(name, phone, location, items);
        message := Some(text);
        showForm := false;
        location, name, phone := [], [], [];
      }
    }
  }
}
