/** The cart engine of src/hooks/useCart.ts: an ordered list of cart lines keyed
    by (id, size), the customer record, the list updates behind `addItem`,
    `removeItem`, `updateQuantity` and `clearCart`, the `total` reduce, and the
    text built by `generateWhatsAppMessage`. Amounts are integer cents. */
module CartEngine {
  import opened Common
  import opened Text
  import opened Menu

  datatype Category = PizzaSalgada | PizzaDoce | EsfihaSalgada | EsfihaDoce | Bebida

  datatype PaymentMethod = Dinheiro | Debito | Credito | Pix

  /** The payment method as stored (`"dinheiro"`, ...). */
  function PaymentName(m: PaymentMethod): string {
    match m
    case Dinheiro => "dinheiro"
    case Debito => "debito"
    case Credito => "credito"
    case Pix => "pix"
  }

  /** `paymentMethod.toUpperCase()` */
  function PaymentUpper(m: PaymentMethod): string {
    match m
    case Dinheiro => "DINHEIRO"
    case Debito => "DEBITO"
    case Credito => "CREDITO"
    case Pix => "PIX"
  }

  /** What a caller hands to `addItem`: a cart line without its quantity. */
  datatype Candidate = Candidate(id: string, category: Category, name: string, price: nat, size: Option<Size>)

  /** `CartItem`: one distinct (id, size) in the cart, with its unit price. */
  datatype CartLine = CartLine(id: string, category: Category, name: string, price: nat, size: Option<Size>, quantity: int)

  datatype CustomerInfo = CustomerInfo(
    name: string,
    phone: string,
    address: string,
    neighborhood: string,
    number: string,
    observations: Option<string>,
    paymentMethod: PaymentMethod)

  /** The record the hook starts from, and the one the checkout restores. */
  const BlankCustomer := CustomerInfo("", "", "", "", "", Some(""), Dinheiro)

  /** The line has the identity (id, size); name, category and price play no part. */
  predicate Matches(l: CartLine, id: string, size: Option<Size>) {
    l.id == id && l.size == size
  }

  predicate HasLine(items: seq<CartLine>, id: string, size: Option<Size>) {
    exists i :: 0 <= i < |items| && Matches(items[i], id, size)
  }

  /** The identity of line `i`. */
  function KeyAt(items: seq<CartLine>, i: nat): (string, Option<Size>)
    requires i < |items|
  {
    (items[i].id, items[i].size)
  }

  /** No two lines share (id, size). */
  predicate UniqueKeys(items: seq<CartLine>) {
    forall i, j :: 0 <= i < j < |items| ==> KeyAt(items, i) != KeyAt(items, j)
  }

  predicate PositiveQuantities(items: seq<CartLine>) {
    forall i :: 0 <= i < |items| ==> items[i].quantity > 0
  }

  /** The invariant every reachable cart keeps. */
  predicate ValidLines(items: seq<CartLine>) {
    UniqueKeys(items) && PositiveQuantities(items)
  }

  /** `{ ...item, quantity: 1 }` */
  function NewLine(c: Candidate): (l: CartLine)
    ensures l.quantity == 1 && Matches(l, c.id, c.size)
  {
    CartLine(c.id, c.category, c.name, c.price, c.size, 1)
  }

  /** The `map` in `addItem`: every line with the key gets one more unit. */
  function IncrementMatching(items: seq<CartLine>, id: string, size: Option<Size>): seq<CartLine> {
    seq(|items|, i requires 0 <= i < |items| =>
      if Matches(items[i], id, size) then items[i].(quantity := items[i].quantity + 1) else items[i])
  }

  /** The updater passed to `setItems` by `addItem`. */
  function AddLine(items: seq<CartLine>, c: Candidate): seq<CartLine> {
    if HasLine(items, c.id, c.size) then IncrementMatching(items, c.id, c.size)
    else items + [NewLine(c)]
  }

  /** The test kept by the `filter` in `removeItem`. */
  function KeepsOther(id: string, size: Option<Size>): CartLine -> bool {
    l => !Matches(l, id, size)
  }

  /** The updater passed to `setItems` by `removeItem`. */
  function RemoveLines(items: seq<CartLine>, id: string, size: Option<Size>): (r: seq<CartLine>)
    ensures !HasLine(r, id, size)
    ensures forall i :: 0 <= i < |items| && !Matches(items[i], id, size) ==> items[i] in r
    ensures forall i :: 0 <= i < |r| ==> r[i] in items
  {
    Filter(items, KeepsOther(id, size))
  }

  /** The `map` in `updateQuantity`: matching lines get the new quantity. */
  function SetQuantity(items: seq<CartLine>, id: string, size: Option<Size>, q: int): seq<CartLine> {
    seq(|items|, i requires 0 <= i < |items| =>
      if Matches(items[i], id, size) then items[i].(quantity := q) else items[i])
  }

  /** What `updateQuantity(id, q, size)` leaves in the cart. */
  function UpdateLines(items: seq<CartLine>, id: string, q: int, size: Option<Size>): seq<CartLine> {
    if q <= 0 then RemoveLines(items, id, size) else SetQuantity(items, id, size, q)
  }

  function LineTotal(l: CartLine): int {
    l.price * l.quantity
  }

  /** `items.reduce((sum, item) => sum + item.price * item.quantity, 0)` */
  function Total(items: seq<CartLine>): int {
    SumBy(items, LineTotal)
  }

  // ---------------------------------------------------------------------------
  // Properties of the list updates

  /** Where the key sits in a cart with unique keys, every line but that one is unchanged. */
  lemma IncrementIsPointUpdate(items: seq<CartLine>, k: nat)
    requires UniqueKeys(items) && k < |items|
    ensures IncrementMatching(items, items[k].id, items[k].size)
         == items[k := items[k].(quantity := items[k].quantity + 1)]
  {
    var r := IncrementMatching(items, items[k].id, items[k].size);
    forall i | 0 <= i < |items|
      ensures r[i] == items[k := items[k].(quantity := items[k].quantity + 1)][i]
    {
      if i != k {
        assert KeyAt(items, i) != KeyAt(items, k);
      }
    }
  }

  lemma SetQuantityIsPointUpdate(items: seq<CartLine>, k: nat, q: int)
    requires UniqueKeys(items) && k < |items|
    ensures SetQuantity(items, items[k].id, items[k].size, q) == items[k := items[k].(quantity := q)]
  {
    var r := SetQuantity(items, items[k].id, items[k].size, q);
    forall i | 0 <= i < |items|
      ensures r[i] == items[k := items[k].(quantity := q)][i]
    {
      if i != k {
        assert KeyAt(items, i) != KeyAt(items, k);
      }
    }
  }

  /** Changing only quantities keeps the keys unique. */
  lemma PointUpdateKeepsKeys(items: seq<CartLine>, k: nat, q: int)
    requires UniqueKeys(items) && k < |items|
    ensures UniqueKeys(items[k := items[k].(quantity := q)])
  {
    var r := items[k := items[k].(quantity := q)];
    forall i, j | 0 <= i < j < |r|
      ensures KeyAt(r, i) != KeyAt(r, j)
    {
      assert KeyAt(r, i) == KeyAt(items, i) && KeyAt(r, j) == KeyAt(items, j);
    }
  }

  /** `addItem` keeps every line's key distinct and every quantity positive. */
  lemma AddLinePreservesValid(items: seq<CartLine>, c: Candidate)
    requires ValidLines(items)
    ensures ValidLines(AddLine(items, c))
  {
    if HasLine(items, c.id, c.size) {
      var k :| 0 <= k < |items| && Matches(items[k], c.id, c.size);
      IncrementIsPointUpdate(items, k);
      PointUpdateKeepsKeys(items, k, items[k].quantity + 1);
    } else {
      AppendNewKeepsKeys(items, c);
    }
  }

  /** Appending a line for a key not yet present keeps the keys unique. */
  lemma AppendNewKeepsKeys(items: seq<CartLine>, c: Candidate)
    requires UniqueKeys(items) && !HasLine(items, c.id, c.size)
    ensures UniqueKeys(items + [NewLine(c)])
  {
    var r := items + [NewLine(c)];
    forall i, j | 0 <= i < j < |r|
      ensures KeyAt(r, i) != KeyAt(r, j)
    {
      assert KeyAt(r, i) == KeyAt(items, i);
      if j == |items| {
        assert !Matches(items[i], c.id, c.size);
      } else {
        assert KeyAt(r, j) == KeyAt(items, j);
      }
    }
  }

  lemma MulSucc(a: int, b: int)
    ensures a * (b + 1) == a * b + a
  {
  }

  /** `addItem` of a key already in the cart raises that line's quantity by one and
      keeps its name, category and price; every other line is unchanged. */
  lemma AddLineExisting(items: seq<CartLine>, c: Candidate, k: nat)
    requires UniqueKeys(items) && k < |items| && Matches(items[k], c.id, c.size)
    ensures AddLine(items, c) == items[k := items[k].(quantity := items[k].quantity + 1)]
  {
    IncrementIsPointUpdate(items, k);
  }

  /** `addItem` of a new key appends one line with quantity 1 and leaves the earlier lines as they were. */
  lemma AddLineNew(items: seq<CartLine>, c: Candidate)
    requires !HasLine(items, c.id, c.size)
    ensures AddLine(items, c) == items + [CartLine(c.id, c.category, c.name, c.price, c.size, 1)]
  {
  }

  /** Adding a key already in the cart adds that line's own unit price to the total. */
  lemma AddLineTotalExisting(items: seq<CartLine>, c: Candidate, k: nat)
    requires UniqueKeys(items) && k < |items| && Matches(items[k], c.id, c.size)
    ensures Total(AddLine(items, c)) == Total(items) + items[k].price
  {
    var l := items[k];
    var l' := l.(quantity := l.quantity + 1);
    AddLineExisting(items, c, k);
    SumByUpdate(items, k, l', LineTotal);
    MulSucc(l.price, l.quantity);
    assert LineTotal(l') == LineTotal(l) + l.price;
  }

  /** Adding a new key adds the candidate's price to the total. */
  lemma AddLineTotalNew(items: seq<CartLine>, c: Candidate)
    requires !HasLine(items, c.id, c.size)
    ensures Total(AddLine(items, c)) == Total(items) + c.price
  {
    assert AddLine(items, c) == items + [NewLine(c)];
    SumByAppend(items, [NewLine(c)], LineTotal);
    assert SumBy([NewLine(c)], LineTotal) == c.price by { assert [NewLine(c)][..0] == []; }
  }

  /** `removeItem` leaves the survivors in the order they had. */
  lemma RemoveLinesInOrder(items: seq<CartLine>, id: string, size: Option<Size>)
    ensures IsSubsequence(RemoveLines(items, id, size), items)
  {
    FilterIsSubsequence(items, KeepsOther(id, size));
  }

  /** `removeItem` of a key that is not in the cart changes nothing. */
  lemma RemoveLinesNoMatch(items: seq<CartLine>, id: string, size: Option<Size>)
    requires !HasLine(items, id, size)
    ensures RemoveLines(items, id, size) == items
  {
    FilterAllKept(items, KeepsOther(id, size));
  }

  /** Removing twice is removing once. */
  lemma RemoveLinesIdempotent(items: seq<CartLine>, id: string, size: Option<Size>)
    ensures RemoveLines(RemoveLines(items, id, size), id, size) == RemoveLines(items, id, size)
  {
    RemoveLinesNoMatch(RemoveLines(items, id, size), id, size);
  }

  /** In a cart with unique keys, removing a present key drops exactly that line. */
  lemma RemoveLinesAt(items: seq<CartLine>, k: nat)
    requires UniqueKeys(items) && k < |items|
    ensures RemoveLines(items, items[k].id, items[k].size) == items[..k] + items[k + 1..]
  {
    var keep := KeepsOther(items[k].id, items[k].size);
    assert items == items[..k] + ([items[k]] + items[k + 1..]);
    FilterAppend(items[..k], [items[k]] + items[k + 1..], keep);
    FilterAppend([items[k]], items[k + 1..], keep);
    var pre, post := items[..k], items[k + 1..];
    forall i | 0 <= i < |pre| ensures keep(pre[i]) {
      assert KeyAt(items, i) != KeyAt(items, k);
    }
    FilterAllKept(pre, keep);
    forall i | 0 <= i < |post| ensures keep(post[i]) {
      assert KeyAt(items, k) != KeyAt(items, k + 1 + i);
    }
    FilterAllKept(post, keep);
    assert Filter([items[k]], keep) == [];
  }

  /** Removing a key present in the cart takes exactly that line's amount out of the total. */
  lemma RemoveLinesTotal(items: seq<CartLine>, k: nat)
    requires UniqueKeys(items) && k < |items|
    ensures Total(RemoveLines(items, items[k].id, items[k].size)) == Total(items) - LineTotal(items[k])
  {
    RemoveLinesAt(items, k);
    SumByRemove(items, k, LineTotal);
  }

  lemma MulDiff(a: int, b: int, c: int)
    ensures a * c - a * b == a * (c - b)
  {
  }

  /** Setting a present line's quantity to `q` moves the total by that line's unit
      price times the change in quantity. */
  lemma SetQuantityTotal(items: seq<CartLine>, k: nat, q: int)
    requires UniqueKeys(items) && k < |items|
    ensures Total(SetQuantity(items, items[k].id, items[k].size, q))
         == Total(items) + items[k].price * (q - items[k].quantity)
  {
    var l := items[k];
    SetQuantityIsPointUpdate(items, k, q);
    SumByUpdate(items, k, l.(quantity := q), LineTotal);
    MulDiff(l.price, l.quantity, q);
  }

  /** Dropping one line keeps the keys unique and the quantities positive. */
  lemma DropLinePreservesValid(items: seq<CartLine>, k: nat)
    requires ValidLines(items) && k < |items|
    ensures ValidLines(items[..k] + items[k + 1..])
  {
    var r := items[..k] + items[k + 1..];
    forall i | 0 <= i < |r|
      ensures r[i] == items[if i < k then i else i + 1]
    {
    }
    forall i, j | 0 <= i < j < |r|
      ensures KeyAt(r, i) != KeyAt(r, j)
    {
      var i', j' := if i < k then i else i + 1, if j < k then j else j + 1;
      assert KeyAt(r, i) == KeyAt(items, i') && KeyAt(r, j) == KeyAt(items, j');
    }
  }

  /** Removing lines keeps the cart valid. */
  lemma RemoveLinesPreservesValid(items: seq<CartLine>, id: string, size: Option<Size>)
    requires ValidLines(items)
    ensures ValidLines(RemoveLines(items, id, size))
  {
    if HasLine(items, id, size) {
      var k :| 0 <= k < |items| && Matches(items[k], id, size);
      RemoveLinesAt(items, k);
      DropLinePreservesValid(items, k);
    } else {
      RemoveLinesNoMatch(items, id, size);
    }
  }

  /** `updateQuantity` keeps the cart valid: it either removes or stores a positive quantity. */
  lemma UpdateLinesPreservesValid(items: seq<CartLine>, id: string, q: int, size: Option<Size>)
    requires ValidLines(items)
    ensures ValidLines(UpdateLines(items, id, q, size))
  {
    if q <= 0 {
      RemoveLinesPreservesValid(items, id, size);
    } else {
      var r := UpdateLines(items, id, q, size);
      forall i, j | 0 <= i < j < |r|
        ensures KeyAt(r, i) != KeyAt(r, j)
      {
        assert KeyAt(r, i) == KeyAt(items, i) && KeyAt(r, j) == KeyAt(items, j);
      }
    }
  }

  /** The total of a valid cart is never negative. */
  lemma TotalNonNegative(items: seq<CartLine>)
    requires PositiveQuantities(items)
    ensures Total(items) >= 0
  {
    SumByNonNegative(items, LineTotal);
  }

  /** Adds every candidate in order, as a run of `addItem` calls does. */
  function AddAll(items: seq<CartLine>, cs: seq<Candidate>): seq<CartLine>
    decreases |cs|
  {
    if cs == [] then items else AddLine(AddAll(items, cs[..|cs| - 1]), cs[|cs| - 1])
  }

  /** Every candidate carries the identity (id, size). */
  predicate AllKeyed(cs: seq<Candidate>, id: string, size: Option<Size>)
    decreases |cs|
  {
    cs == [] || (AllKeyed(cs[..|cs| - 1], id, size) && cs[|cs| - 1].id == id && cs[|cs| - 1].size == size)
  }

  /** One more add of a key whose line already stands in the cart built so far. */
  lemma AddAllStepExisting(items: seq<CartLine>, cs: seq<Candidate>, base: seq<CartLine>, k: nat, q: int, q': int)
    requires cs != [] && UniqueKeys(base) && k < |base| && q' == q + 1
    requires Matches(base[k], cs[|cs| - 1].id, cs[|cs| - 1].size)
    requires AddAll(items, cs[..|cs| - 1]) == base[k := base[k].(quantity := q)]
    ensures AddAll(items, cs) == base[k := base[k].(quantity := q')]
  {
    var l := base[k];
    var mid := base[k := l.(quantity := q)];
    PointUpdateKeepsKeys(base, k, q);
    AddLineExisting(mid, cs[|cs| - 1], k);
    UpdateTwice(base, k, l.(quantity := q), l.(quantity := q'));
  }

  /** Further adds of an existing key only raise that line's quantity. */
  lemma {:induction false} AddAllExisting(items: seq<CartLine>, k: nat, cs: seq<Candidate>)
    requires UniqueKeys(items) && k < |items|
    requires AllKeyed(cs, items[k].id, items[k].size)
    ensures AddAll(items, cs) == items[k := items[k].(quantity := items[k].quantity + |cs|)]
    decreases |cs|
  {
    if cs == [] {
      AddAllNothing(items, k, cs);
    } else {
      var init := cs[..|cs| - 1];
      AddAllExisting(items, k, init);
      AddAllStepExisting(items, cs, items, k, items[k].quantity + |init|, items[k].quantity + |cs|);
    }
  }

  lemma AddAllNothing(items: seq<CartLine>, k: nat, cs: seq<Candidate>)
    requires k < |items| && cs == []
    ensures AddAll(items, cs) == items[k := items[k].(quantity := items[k].quantity + |cs|)]
  {
    assert items[k].(quantity := items[k].quantity + |cs|) == items[k];
  }

  /** The merge rule: n adds of one (id, size) to a cart without it give a single
      line at the end with quantity n and the name, category and price of the first. */
  lemma {:induction false} MergeFirstWins(items: seq<CartLine>, cs: seq<Candidate>)
    requires UniqueKeys(items) && cs != []
    requires !HasLine(items, cs[0].id, cs[0].size)
    requires AllKeyed(cs, cs[0].id, cs[0].size)
    ensures AddAll(items, cs) == items + [NewLine(cs[0]).(quantity := |cs|)]
    decreases |cs|
  {
    if |cs| == 1 {
      MergeOne(items, cs);
    } else {
      var init := cs[..|cs| - 1];
      assert init[0] == cs[0];
      MergeFirstWins(items, init);
      MergeStep(items, cs);
    }
  }

  lemma MergeOne(items: seq<CartLine>, cs: seq<Candidate>)
    requires |cs| == 1 && !HasLine(items, cs[0].id, cs[0].size)
    ensures AddAll(items, cs) == items + [NewLine(cs[0]).(quantity := |cs|)]
  {
    assert cs[..0] == [];
    AddLineNew(items, cs[0]);
  }

  lemma MergeStep(items: seq<CartLine>, cs: seq<Candidate>)
    requires UniqueKeys(items) && |cs| >= 2
    requires !HasLine(items, cs[0].id, cs[0].size)
    requires cs[|cs| - 1].id == cs[0].id && cs[|cs| - 1].size == cs[0].size
    requires AddAll(items, cs[..|cs| - 1]) == items + [NewLine(cs[0]).(quantity := |cs| - 1)]
    ensures AddAll(items, cs) == items + [NewLine(cs[0]).(quantity := |cs|)]
  {
    var base := items + [NewLine(cs[0])];
    var n := |items|;
    AppendNewKeepsKeys(items, cs[0]);
    assert base[n := base[n].(quantity := |cs| - 1)] == items + [NewLine(cs[0]).(quantity := |cs| - 1)];
    AddAllStepExisting(items, cs, base, n, |cs| - 1, |cs|);
    assert base[n := base[n].(quantity := |cs|)] == items + [NewLine(cs[0]).(quantity := |cs|)];
  }

  // ---------------------------------------------------------------------------
  // The transcript of generateWhatsAppMessage (before URI encoding)

  const Banner := "🍕 *PEDIDO PIZZARIA ALCAPONE* 🍕\n\n"
  const Greeting := "👤 *OLA GOSTARIA DE FAZER O SEGUINTE PEDIDO:*\n"
  const ItemsHeading := "🛒 *ITENS DO PEDIDO:*\n"
  const Thanks := "Muito Obrigado! 🙏"

  /** The observations are written only when present and not empty. */
  predicate HasObservations(info: CustomerInfo) {
    info.observations.Some? && info.observations.value != ""
  }

  /** The customer block, one entry per line, without the line breaks. */
  function CustomerLines(info: CustomerInfo): (r: seq<string>)
    ensures |r| == if HasObservations(info) then 6 else 5
  {
    ["Nome: " + info.name,
     "Telefone: " + info.phone,
     "Endereço: " + info.address + ", " + info.number,
     "Bairro: " + info.neighborhood]
    + (if HasObservations(info) then ["Observações: " + info.observations.value] else [])
    + ["Forma de Pagamento: " + PaymentUpper(info.paymentMethod)]
  }

  /** One line of text and its line break. */
  function WithBreak(line: string): string {
    line + "\n"
  }

  function WhatsAppHeader(info: CustomerInfo): string {
    Banner + Greeting + ConcatMap(CustomerLines(info), WithBreak) + "\n" + ItemsHeading
  }

  /** `• {q}x {name}[ ({SIZE})] - R$ {price × q}` and a line break. */
  function WhatsAppItemLine(l: CartLine): string {
    "• " + IntToString(l.quantity) + "x " + l.name
    + (if l.size.Some? then " (" + SizeUpper(l.size.value) + ")" else "")
    + " - R$ " + Fixed2(LineTotal(l)) + "\n"
  }

  /** The item lines in cart order, built as the `forEach` appends them. */
  function WhatsAppItemLines(items: seq<CartLine>): string {
    ConcatMap(items, WhatsAppItemLine)
  }

  function WhatsAppFooter(total: int): string {
    "\n💰 *TOTAL: R$ " + Fixed2(total) + "*\n\n" + Thanks
  }

  /** The whole transcript; an empty cart gives the empty text. */
  function WhatsAppMessage(items: seq<CartLine>, info: CustomerInfo): string {
    if items == [] then "" else WhatsAppHeader(info) + WhatsAppItemLines(items) + WhatsAppFooter(Total(items))
  }

  /** The transcript is empty exactly when the cart is. */
  lemma WhatsAppMessageEmpty(items: seq<CartLine>, info: CustomerInfo)
    ensures WhatsAppMessage(items, info) == "" <==> items == []
  {
    if items != [] {
      assert |WhatsAppHeader(info)| > 0;
    }
  }

  /** One line per item, in cart order: item k's line stands between the lines
      of the items before it and those after it. */
  lemma WhatsAppItemLinesInOrder(items: seq<CartLine>, k: nat)
    requires k < |items|
    ensures WhatsAppItemLines(items)
         == WhatsAppItemLines(items[..k]) + WhatsAppItemLine(items[k]) + WhatsAppItemLines(items[k + 1..])
  {
    ConcatMapAt(items, k, WhatsAppItemLine);
  }

  lemma PrefixesDiffer(p: string, x: string, q: string)
    requires |p| > 0 && |q| > 0 && p[0] != q[0]
    ensures !StartsWith(p + x, q)
  {
    assert (p + x)[0] == p[0];
  }

  /** The Observações line is in the customer block exactly when there are observations. */
  lemma ObservationsLineIff(info: CustomerInfo)
    ensures (exists k :: 0 <= k < |CustomerLines(info)| && StartsWith(CustomerLines(info)[k], "Observações: "))
        <==> HasObservations(info)
  {
    var ls := CustomerLines(info);
    var o := "Observações: ";
    PrefixesDiffer("Nome: ", info.name, o);
    PrefixesDiffer("Telefone: ", info.phone, o);
    PrefixesDiffer("Endereço: ", info.address + ", " + info.number, o);
    assert "Endereço: " + info.address + ", " + info.number == "Endereço: " + (info.address + ", " + info.number);
    PrefixesDiffer("Bairro: ", info.neighborhood, o);
    PrefixesDiffer("Forma de Pagamento: ", PaymentUpper(info.paymentMethod), o);
    if HasObservations(info) {
      assert StartsWith(ls[4], o);
    } else {
      forall k | 0 <= k < |ls| ensures !StartsWith(ls[k], o) {
        assert k == 4 ==> ls[k] == "Forma de Pagamento: " + PaymentUpper(info.paymentMethod);
      }
    }
  }

  /** The `forEach` of `generateWhatsAppMessage`: appends each cart line's text
      to `message`, in cart order. */
  method AppendItemLines(message0: string, items: seq<CartLine>) returns (message: string)
    ensures message == message0 + WhatsAppItemLines(items)
  {
    message := message0;
    var i := 0;
    while i < |items|
      invariant 0 <= i <= |items|
      invariant message == message0 + WhatsAppItemLines(items[..i])
    {
      assert message + WhatsAppItemLine(items[i]) == message0 + WhatsAppItemLines(items[..i + 1]) by {
        assert items[..i + 1][..i] == items[..i];
        AppendAssoc(message0, WhatsAppItemLines(items[..i]), WhatsAppItemLine(items[i]));
      }
      message := message + WhatsAppItemLine(items[i]);
      i := i + 1;
    }
    assert items[..i] == items;
  }

  // ---------------------------------------------------------------------------
  // The hook's state

  /** The state owned by `useCart`: the lines and the customer record. */
  class Cart {
    var items: seq<CartLine>
    var customerInfo: CustomerInfo

    ghost predicate Valid()
      reads this
    {
      ValidLines(items)
    }

    constructor()
      ensures Valid() && items == [] && customerInfo == BlankCustomer
    {
      items := [];
      customerInfo := BlankCustomer;
    }

    method AddItem(c: Candidate)
      requires Valid()
      modifies this
      ensures Valid()
      ensures items == AddLine(old(items), c) && customerInfo == old(customerInfo)
    {
      AddLinePreservesValid(items, c);
      items := AddLine(items, c);
    }

    method RemoveItem(id: string, size: Option<Size>)
      requires Valid()
      modifies this
      ensures Valid()
      ensures items == RemoveLines(old(items), id, size) && customerInfo == old(customerInfo)
    {
      RemoveLinesPreservesValid(items, id, size);
      items := RemoveLines(items, id, size);
    }

    method UpdateQuantity(id: string, q: int, size: Option<Size>)
      requires Valid()
      modifies this
      ensures Valid()
      ensures items == UpdateLines(old(items), id, q, size) && customerInfo == old(customerInfo)
    {
      if q <= 0 {
        RemoveItem(id, size);
        return;
      }
      UpdateLinesPreservesValid(items, id, q, size);
      items := SetQuantity(items, id, size, q);
    }

    /** Empties the lines; the customer record is left as it is. */
    method ClearCart()
      modifies this
      ensures Valid()
      ensures items == [] && customerInfo == old(customerInfo)
    {
      items := [];
    }

    method SetCustomerInfo(info: CustomerInfo)
      modifies this
      ensures items == old(items) && customerInfo == info
    {
      customerInfo := info;
    }

    /** Builds the transcript, appending one line per cart line in cart order. */
    method GenerateWhatsAppMessage() returns (message: string)
      ensures message == WhatsAppMessage(items, customerInfo)
    {
      if |items| == 0 {
        return "";
      }
      // The banner, greeting and customer block are appended line by line in
      // straight-line code; their concatenation is the header.
      message := WhatsAppHeader(customerInfo);
      message := AppendItemLines(message, items);
      message := message + WhatsAppFooter(Total(items));
    }
  }
}
