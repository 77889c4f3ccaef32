/** The cart sheet (src/components/Cart.tsx): its two steps, the order-type
    toggle, the customer form, the quantity buttons, and `handleFinishOrder`,
    which validates the form, composes the order text for WhatsApp and resets
    the cart. Opening the `wa.me` link is left to the caller: the finished
    order is returned as the text that would be encoded into the link. */
module Checkout {
  import opened Common
  import opened Text
  import opened Menu
  import opened CartEngine

  /** `useState<"cart" | "checkout">` */
  datatype Step = CartStep | CheckoutStep

  /** `useState<"retirada" | "entrega">`: pick-up or delivery. */
  datatype OrderType = Retirada | Entrega

  function OrderTypeName(t: OrderType): string {
    match t
    case Retirada => "retirada"
    case Entrega => "entrega"
  }

  /** The guard of `handleFinishOrder`: none of the five text fields is empty.
      The order type plays no part: an address is demanded for pick-up too. */
  predicate RequiredFieldsFilled(info: CustomerInfo) {
    info.name != "" && info.phone != "" && info.address != ""
    && info.neighborhood != "" && info.number != ""
  }

  /** The fields of the checkout form that take typed text. */
  datatype Field = NameField | PhoneField | AddressField | NumberField | NeighborhoodField | ObservationsField

  /** `{ ...cart.customerInfo, <field>: e.target.value }` */
  function WithField(info: CustomerInfo, f: Field, v: string): (r: CustomerInfo)
    ensures r.paymentMethod == info.paymentMethod
  {
    match f
    case NameField => info.(name := v)
    case PhoneField => info.(phone := v)
    case AddressField => info.(address := v)
    case NumberField => info.(number := v)
    case NeighborhoodField => info.(neighborhood := v)
    case ObservationsField => info.(observations := Some(v))
  }

  /** Typing into one field and then another gives the same record in either order. */
  lemma WithFieldCommutes(info: CustomerInfo, f: Field, v: string, g: Field, w: string)
    requires f != g
    ensures WithField(WithField(info, f, v), g, w) == WithField(WithField(info, g, w), f, v)
  {
  }

  /** Only the five text fields decide validation: observations and payment do not. */
  lemma ValidationIgnoresExtras(info: CustomerInfo, v: string, m: PaymentMethod)
    ensures RequiredFieldsFilled(WithField(info, ObservationsField, v).(paymentMethod := m))
        == RequiredFieldsFilled(info)
  {
  }

  /** The reset record fails validation, and filling its five fields with
      non-empty text makes it pass. */
  lemma FillingTheFormValidates(n: string, p: string, a: string, num: string, nb: string)
    requires n != "" && p != "" && a != "" && num != "" && nb != ""
    ensures !RequiredFieldsFilled(BlankCustomer)
    ensures RequiredFieldsFilled(
      WithField(WithField(WithField(WithField(WithField(BlankCustomer,
        NameField, n), PhoneField, p), AddressField, a), NumberField, num), NeighborhoodField, nb))
  {
  }

  // ---------------------------------------------------------------------------
  // The order text

  /** `${q}x ${name}${size ? ` (${size})` : ""} - R$ ${(price * q).toFixed(2)}`;
      the size is written as stored, in lower case. */
  function OrderItemLine(l: CartLine): string {
    IntToString(l.quantity) + "x " + l.name
    + (if l.size.Some? then " (" + SizeName(l.size.value) + ")" else "")
    + " - R$ " + Fixed2(LineTotal(l))
  }

  /** `cart.items.map(...)` */
  function OrderItemLines(items: seq<CartLine>): (r: seq<string>)
    ensures |r| == |items|
    ensures forall k :: 0 <= k < |items| ==> r[k] == OrderItemLine(items[k])
  {
    seq(|items|, k requires 0 <= k < |items| => OrderItemLine(items[k]))
  }

  /** `itemsMessage`: the item lines joined by line breaks. */
  function ItemsText(items: seq<CartLine>): string {
    JoinLines(OrderItemLines(items))
  }

  /** `cart.customerInfo.observations || "Nenhuma"` */
  function ObservationsText(info: CustomerInfo): string {
    if HasObservations(info) then info.observations.value else "Nenhuma"
  }

  function AddressLine(info: CustomerInfo): string {
    "Endereço: " + info.address + ", " + info.number + " - " + info.neighborhood
  }

  function TotalLine(items: seq<CartLine>): string {
    "Total: R$ " + Fixed2(Total(items))
  }

  function OrderTypeLine(t: OrderType): string {
    "Tipo de pedido: " + OrderTypeName(t)
  }

  /** The customer's part of the template: name, phone, address, observations, payment. */
  function CustomerBlock(info: CustomerInfo): seq<string> {
    ["Cliente: " + info.name,
     "Telefone: " + info.phone,
     AddressLine(info),
     "Observações: " + ObservationsText(info),
     "Forma de pagamento: " + PaymentName(info.paymentMethod)]
  }

  /** The lines of the template literal; it opens and closes with a line break,
      hence the empty first and last lines. */
  function MessageLines(items: seq<CartLine>, info: CustomerInfo, t: OrderType): (r: seq<string>)
    ensures |r| == 13
  {
    ["", "Pedido:", ItemsText(items), "", TotalLine(items), "", OrderTypeLine(t)]
    + CustomerBlock(info) + [""]
  }

  /** Where the items, the total, the order type and the address stand in the template. */
  lemma MessageLinesAt(items: seq<CartLine>, info: CustomerInfo, t: OrderType)
    ensures MessageLines(items, info, t)[2] == ItemsText(items)
    ensures MessageLines(items, info, t)[4] == TotalLine(items)
    ensures MessageLines(items, info, t)[6] == OrderTypeLine(t)
    ensures MessageLines(items, info, t)[9] == AddressLine(info)
  {
  }

  /** The order text, before URI encoding. */
  function OrderMessage(items: seq<CartLine>, info: CustomerInfo, t: OrderType): string {
    JoinLines(MessageLines(items, info, t))
  }

  /** `s.includes(t)` carries over to any text that ends with `s`. */
  lemma ContainsExtendLeft(p: string, s: string, t: string)
    requires Contains(s, t)
    ensures Contains(p + s, t)
  {
    var k :| 0 <= k <= |s| - |t| && OccursAt(s, t, k);
    assert (p + s)[|p| + k..|p| + k + |t|] == s[k..k + |t|];
    assert OccursAt(p + s, t, |p| + k);
  }

  /** Containment is transitive. */
  lemma ContainsTrans(a: string, b: string, c: string)
    requires Contains(a, b) && Contains(b, c)
    ensures Contains(a, c)
  {
    var i :| 0 <= i <= |a| - |b| && OccursAt(a, b, i);
    var j :| 0 <= j <= |b| - |c| && OccursAt(b, c, j);
    forall m | 0 <= m < |c|
      ensures a[i + j + m] == c[m]
    {
      assert a[i..i + |b|][j + m] == b[j + m];
      assert b[j..j + |c|][m] == c[m];
    }
    assert a[i + j..i + j + |c|] == c;
    assert OccursAt(a, c, i + j);
  }

  /** Every element of a join is part of the joined text. */
  lemma {:induction false} ContainsJoined(xs: seq<string>, k: nat)
    requires k < |xs|
    ensures Contains(JoinLines(xs), xs[k])
    decreases |xs|
  {
    if |xs| == 1 {
      ContainsMiddle("", xs[0], "");
      assert "" + xs[0] + "" == xs[0];
    } else {
      var rest := JoinLines(xs[1..]);
      assert JoinLines(xs) == xs[0] + "\n" + rest;
      if k == 0 {
        ContainsMiddle("", xs[0], "\n" + rest);
        assert "" + xs[0] + ("\n" + rest) == xs[0] + "\n" + rest;
      } else {
        ContainsJoined(xs[1..], k - 1);
        ContainsExtendLeft(xs[0] + "\n", rest, xs[k]);
      }
    }
  }

  /** Each line of the template is part of the order text. */
  lemma MessageHasLine(items: seq<CartLine>, info: CustomerInfo, t: OrderType, k: nat)
    requires k < 13
    ensures Contains(OrderMessage(items, info, t), MessageLines(items, info, t)[k])
  {
    ContainsJoined(MessageLines(items, info, t), k);
  }

  /** The order text names the order type the customer picked. */
  lemma MessageStatesOrderType(items: seq<CartLine>, info: CustomerInfo, t: OrderType)
    ensures Contains(OrderMessage(items, info, t), OrderTypeLine(t))
  {
    MessageLinesAt(items, info, t);
    MessageHasLine(items, info, t, 6);
  }

  /** The order text carries the full address: street, number and neighbourhood. */
  lemma MessageStatesAddress(items: seq<CartLine>, info: CustomerInfo, t: OrderType)
    ensures Contains(OrderMessage(items, info, t), AddressLine(info))
  {
    MessageLinesAt(items, info, t);
    MessageHasLine(items, info, t, 9);
  }

  /** Every cart line has its own line in the order text. */
  lemma MessageListsEveryItem(items: seq<CartLine>, info: CustomerInfo, t: OrderType, k: nat)
    requires k < |items|
    ensures Contains(OrderMessage(items, info, t), OrderItemLine(items[k]))
  {
    MessageLinesAt(items, info, t);
    MessageHasLine(items, info, t, 2);
    ContainsJoined(OrderItemLines(items), k);
    ContainsTrans(OrderMessage(items, info, t), ItemsText(items), OrderItemLine(items[k]));
  }

  /** The order text states the total. */
  lemma MessageStatesTotal(items: seq<CartLine>, info: CustomerInfo, t: OrderType)
    ensures Contains(OrderMessage(items, info, t), TotalLine(items))
  {
    MessageLinesAt(items, info, t);
    MessageHasLine(items, info, t, 4);
  }

  /** The amount written on the total line reads back to the cart's total in cents. */
  lemma TotalLineReadsBack(items: seq<CartLine>)
    ensures TotalLine(items)[..10] == "Total: R$ "
    ensures ParseFixed2(TotalLine(items)[10..]) == Some(Total(items))
  {
    var s := Fixed2(Total(items));
    assert TotalLine(items)[10..] == s;
    RoundTripFixed2(Total(items));
  }

  /** The observations line falls back to "Nenhuma" exactly when nothing was typed. */
  lemma ObservationsFallback(info: CustomerInfo)
    ensures !HasObservations(info) ==> ObservationsText(info) == "Nenhuma"
    ensures HasObservations(info) ==> ObservationsText(info) == info.observations.value
    ensures ObservationsText(info) != ""
  {
  }

  /** One more cart line adds one more line at the end of the items text. */
  lemma ItemsTextSnoc(items: seq<CartLine>, l: CartLine)
    requires items != []
    ensures ItemsText(items + [l]) == ItemsText(items) + "\n" + OrderItemLine(l)
  {
    assert OrderItemLines(items + [l]) == OrderItemLines(items) + [OrderItemLine(l)];
    JoinLinesSnoc(OrderItemLines(items), OrderItemLine(l));
  }

  // ---------------------------------------------------------------------------
  // The buttons of the item list, as list updates

  /** "−" on a line of quantity one removes that line and only it. */
  lemma MinusAtOneRemovesLine(items: seq<CartLine>, k: nat)
    requires ValidLines(items) && k < |items| && items[k].quantity == 1
    ensures UpdateLines(items, items[k].id, items[k].quantity - 1, items[k].size) == items[..k] + items[k + 1..]
  {
    RemoveLinesAt(items, k);
  }

  /** "−" on a larger quantity lowers that line by one and leaves the rest. */
  lemma MinusDecrements(items: seq<CartLine>, k: nat)
    requires ValidLines(items) && k < |items| && items[k].quantity > 1
    ensures UpdateLines(items, items[k].id, items[k].quantity - 1, items[k].size)
         == items[k := items[k].(quantity := items[k].quantity - 1)]
  {
    SetQuantityIsPointUpdate(items, k, items[k].quantity - 1);
  }

  /** The line as a candidate for `addItem`. */
  function AsCandidate(l: CartLine): (c: Candidate)
    ensures NewLine(c) == l.(quantity := 1)
  {
    Candidate(l.id, l.category, l.name, l.price, l.size)
  }

  /** "+" does what adding the same product again from the menu does. */
  lemma PlusIsAddAgain(items: seq<CartLine>, k: nat)
    requires ValidLines(items) && k < |items|
    ensures UpdateLines(items, items[k].id, items[k].quantity + 1, items[k].size)
         == AddLine(items, AsCandidate(items[k]))
    ensures AddLine(items, AsCandidate(items[k])) == items[k := items[k].(quantity := items[k].quantity + 1)]
  {
    SetQuantityIsPointUpdate(items, k, items[k].quantity + 1);
    AddLineExisting(items, AsCandidate(items[k]), k);
  }

  /** "+" followed by "−" on the same line gives back the cart. */
  lemma PlusThenMinus(items: seq<CartLine>, k: nat)
    requires ValidLines(items) && k < |items|
    ensures var up := UpdateLines(items, items[k].id, items[k].quantity + 1, items[k].size);
            UpdateLines(up, items[k].id, items[k].quantity, items[k].size) == items
  {
    var q := items[k].quantity;
    var up := items[k := items[k].(quantity := q + 1)];
    SetQuantityIsPointUpdate(items, k, q + 1);
    PointUpdateKeepsKeys(items, k, q + 1);
    assert up[k].id == items[k].id && up[k].size == items[k].size;
    SetQuantityIsPointUpdate(up, k, q);
    assert up[k := up[k].(quantity := q)] == items;
  }

  // ---------------------------------------------------------------------------
  // The sheet's state

  /** The sheet's own state (`step`, `orderType`), the `open` flag its parent
      passes down and updates through `onOpenChange`, and the cart it edits. */
  class CartSheet {
    const cart: Cart
    var step: Step
    var orderType: OrderType
    var open: bool

    ghost predicate Valid()
      reads this, cart
    {
      cart.Valid()
    }

    constructor(cart: Cart, open: bool)
      requires cart.Valid()
      ensures Valid()
      ensures this.cart == cart && this.open == open
      ensures step == CartStep && orderType == Retirada
    {
      this.cart := cart;
      this.open := open;
      step := CartStep;
      orderType := Retirada;
    }

    /** `handleFinishOrder`. With an empty required field nothing changes and
        nothing is sent. Otherwise the order text of the cart as it was is sent,
        the cart is emptied, the form reset, the sheet returned to its first
        step and closed; the order type stays as picked. */
    method FinishOrder() returns (sent: Option<string>)
      requires Valid()
      modifies this, cart
      ensures Valid()
      ensures !RequiredFieldsFilled(old(cart.customerInfo)) ==>
        sent == None && unchanged(this) && unchanged(cart)
      ensures RequiredFieldsFilled(old(cart.customerInfo)) ==>
        sent == Some(OrderMessage(old(cart.items), old(cart.customerInfo), old(orderType)))
        && cart.items == [] && cart.customerInfo == BlankCustomer
        && step == CartStep && !open && orderType == old(orderType)
    {
      if !RequiredFieldsFilled(cart.customerInfo) {
        return None;
      }
      var message := OrderMessage(cart.items, cart.customerInfo, orderType);
      cart.ClearCart();
      cart.SetCustomerInfo(BlankCustomer);
      step := CartStep;
      open := false;
      return Some(message);
    }

    /** "Continuar": the button is shown only while the cart has lines. */
    method Continue()
      modifies this
      ensures old(cart.items) != [] ==> step == CheckoutStep
      ensures old(cart.items) == [] ==> step == old(step)
      ensures orderType == old(orderType) && open == old(open)
    {
      if cart.items != [] {
        step := CheckoutStep;
      }
    }

    /** "Voltar" */
    method Back()
      modifies this
      ensures step == CartStep && orderType == old(orderType) && open == old(open)
    {
      step := CartStep;
    }

    /** The "Retirada" and "Entrega" buttons. */
    method SelectOrderType(t: OrderType)
      modifies this
      ensures orderType == t && step == old(step) && open == old(open)
    {
      orderType := t;
    }

    /** Typing into a field of the form. */
    method EditField(f: Field, v: string)
      modifies cart
      ensures cart.customerInfo == WithField(old(cart.customerInfo), f, v)
      ensures cart.items == old(cart.items)
    {
      cart.SetCustomerInfo(WithField(cart.customerInfo, f, v));
    }

    /** The payment selector. */
    method SelectPayment(m: PaymentMethod)
      modifies cart
      ensures cart.customerInfo == old(cart.customerInfo).(paymentMethod := m)
      ensures cart.items == old(cart.items)
    {
      cart.SetCustomerInfo(cart.customerInfo.(paymentMethod := m));
    }

    /** "−" on line `k`: `updateQuantity(id, quantity - 1, size)`. */
    method Minus(k: nat)
      requires Valid() && k < |cart.items|
      modifies cart
      ensures Valid()
      ensures var l := old(cart.items[k]);
        cart.items == UpdateLines(old(cart.items), l.id, l.quantity - 1, l.size)
      ensures cart.customerInfo == old(cart.customerInfo)
    {
      var l := cart.items[k];
      cart.UpdateQuantity(l.id, l.quantity - 1, l.size);
    }

    /** "+" on line `k`: `updateQuantity(id, quantity + 1, size)`. */
    method Plus(k: nat)
      requires Valid() && k < |cart.items|
      modifies cart
      ensures Valid()
      ensures var l := old(cart.items[k]);
        cart.items == UpdateLines(old(cart.items), l.id, l.quantity + 1, l.size)
      ensures cart.customerInfo == old(cart.customerInfo)
    {
      var l := cart.items[k];
      cart.UpdateQuantity(l.id, l.quantity + 1, l.size);
    }

    /** The bin on line `k`: `removeItem(id, size)`. */
    method Trash(k: nat)
      requires Valid() && k < |cart.items|
      modifies cart
      ensures Valid()
      ensures cart.items == old(cart.items[..k] + cart.items[k + 1..])
      ensures cart.customerInfo == old(cart.customerInfo)
    {
      var l := cart.items[k];
      RemoveLinesAt(cart.items, k);
      cart.RemoveItem(l.id, l.size);
    }

    /** "Limpar carrinho" */
    method ClearButton()
      modifies cart
      ensures Valid()
      ensures cart.items == [] && cart.customerInfo == old(cart.customerInfo)
    {
      cart.ClearCart();
    }
  }
}
