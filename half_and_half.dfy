/** The half-and-half dialog (src/components/MeioMeioModal.tsx): the customer
    picks a size, a type (savoury or sweet) and one flavour for each half; the
    pizza is priced as the dearer of its two halves and handed to the cart
    under an id made from the current time. The time is a parameter. */
module HalfAndHalf {
  import opened Common
  import opened Text
  import opened Menu
  import opened CartEngine

  /** `"salgada" | "doce"` */
  datatype PizzaType = Salgada | Doce

  /** `"first" | "second"`; the dialog's `null` is `None`. */
  datatype Half = First | Second

  /** `allPizzas.find(p => p.id === id)`, as the position of the first match. */
  function FindIndex(ps: seq<MenuItem>, id: string): (r: Option<nat>)
    ensures r.Some? ==> r.value < |ps| && ps[r.value].id == id
    ensures r.Some? ==> forall i :: 0 <= i < r.value ==> ps[i].id != id
    ensures r.None? ==> forall i :: 0 <= i < |ps| ==> ps[i].id != id
    decreases |ps|
  {
    if ps == [] then None
    else if ps[0].id == id then Some(0)
    else match FindIndex(ps[1..], id)
      case None => None
      case Some(k) => Some(k + 1)
  }

  /** `allPizzas.find(p => p.id === id)` */
  function FindById(ps: seq<MenuItem>, id: string): Option<MenuItem> {
    match FindIndex(ps, id)
    case None => None
    case Some(k) => Some(ps[k])
  }

  /** No two pizzas of the catalogue share an id. */
  predicate UniqueIds(ps: seq<MenuItem>) {
    forall i, j :: 0 <= i < j < |ps| ==> ps[i].id != ps[j].id
  }

  /** With distinct ids, looking a pizza up by its own id finds that pizza. */
  lemma FindOwnId(ps: seq<MenuItem>, k: nat)
    requires UniqueIds(ps) && k < |ps|
    ensures FindById(ps, ps[k].id) == Some(ps[k])
  {
    var r := FindIndex(ps, ps[k].id);
    assert r.Some?;
  }

  /** `(size === "broto" ? prices.broto : prices.grande) || 0` */
  function SizePrice(p: MenuItem, size: Size): (r: nat)
    ensures Truthy(PriceAt(p.prices, size)) <==> r > 0
  {
    PriceAt(p.prices, size).GetOr(0)
  }

  /** `calculateMeioMeioPrice`: 0 unless both halves are found, else the dearer half's price. */
  function MeioMeioPrice(all: seq<MenuItem>, first: string, second: string, size: Size): nat {
    match (FindById(all, first), FindById(all, second))
    case (Some(p1), Some(p2)) => Max(SizePrice(p1, size), SizePrice(p2, size))
    case _ => 0
  }

  /** With both halves found, the price is that of the dearer half: no less than
      either half, and equal to one of them. */
  lemma MeioMeioPriceIsDearerHalf(all: seq<MenuItem>, first: string, second: string, size: Size)
    requires FindById(all, first).Some? && FindById(all, second).Some?
    ensures var p1, p2 := FindById(all, first).value, FindById(all, second).value;
      var r := MeioMeioPrice(all, first, second, size);
      r >= SizePrice(p1, size) && r >= SizePrice(p2, size)
      && (r == SizePrice(p1, size) || r == SizePrice(p2, size))
  {
  }

  /** A half that is not in the catalogue makes the price 0. */
  lemma MeioMeioPriceUnknownHalf(all: seq<MenuItem>, first: string, second: string, size: Size)
    requires FindById(all, first).None? || FindById(all, second).None?
    ensures MeioMeioPrice(all, first, second, size) == 0
  {
  }

  /** The order of the halves does not change the price. */
  lemma MeioMeioPriceSymmetric(all: seq<MenuItem>, first: string, second: string, size: Size)
    ensures MeioMeioPrice(all, first, second, size) == MeioMeioPrice(all, second, first, size)
  {
  }

  /** Both halves of the same flavour cost what the whole pizza costs. */
  lemma MeioMeioSameFlavour(all: seq<MenuItem>, k: nat, size: Size)
    requires UniqueIds(all) && k < |all|
    ensures MeioMeioPrice(all, all[k].id, all[k].id, size) == SizePrice(all[k], size)
  {
    FindOwnId(all, k);
  }

  /** `getPizzasByType()` */
  function PizzasOfType(salgadas: seq<MenuItem>, doces: seq<MenuItem>, t: PizzaType): seq<MenuItem> {
    match t
    case Salgada => salgadas
    case Doce => doces
  }

  /** The test of `availablePizzas`: the price at the chosen size is truthy. */
  function OfferedAt(size: Size): MenuItem -> bool {
    (p: MenuItem) => Truthy(PriceAt(p.prices, size))
  }

  /** `availablePizzas`: from `getPizzasByType()`, the pizzas that have a price
      at the chosen size, in catalogue order. */
  function AvailablePizzas(salgadas: seq<MenuItem>, doces: seq<MenuItem>, t: PizzaType, size: Size): (r: seq<MenuItem>)
    ensures forall i :: 0 <= i < |r| ==> r[i] in PizzasOfType(salgadas, doces, t) && SizePrice(r[i], size) > 0
    ensures forall p :: p in PizzasOfType(salgadas, doces, t) && SizePrice(p, size) > 0 ==> p in r
  {
    Filter(PizzasOfType(salgadas, doces, t), OfferedAt(size))
  }

  /** The flavour list offers only pizzas of the chosen type: savoury pizzas
      while "salgada" is chosen, sweet ones while "doce" is. */
  lemma OfferedPizzasOfType(salgadas: seq<MenuItem>, doces: seq<MenuItem>, t: PizzaType, size: Size)
    ensures forall p :: p in AvailablePizzas(salgadas, doces, t, size) ==>
      (t == Salgada ==> p in salgadas) && (t == Doce ==> p in doces)
  {
    var r := AvailablePizzas(salgadas, doces, t, size);
    forall p | p in r
      ensures (t == Salgada ==> p in salgadas) && (t == Doce ==> p in doces)
    {
      var k :| 0 <= k < |r| && r[k] == p;
    }
  }

  /** A pizza listed at 0 ("price not informed") is never offered as a half. */
  lemma ChefeNotOffered(size: Size)
    ensures Chefe !in AvailablePizzas([Calabresa, Chefe], [], Salgada, size)
    ensures Calabresa in AvailablePizzas([Calabresa, Chefe], [], Salgada, size)
  {
    assert SizePrice(Calabresa, size) > 0;
  }

  /** Two halves picked from the offer, looked up in `allPizzas` (a catalogue with
      distinct ids), never give a free pizza. */
  lemma OfferedHalvesArePriced(salgadas: seq<MenuItem>, doces: seq<MenuItem>, t: PizzaType, i: nat, j: nat, size: Size)
    requires UniqueIds(salgadas + doces) && i < |salgadas + doces| && j < |salgadas + doces|
    requires (salgadas + doces)[i] in AvailablePizzas(salgadas, doces, t, size)
    requires (salgadas + doces)[j] in AvailablePizzas(salgadas, doces, t, size)
    ensures MeioMeioPrice(salgadas + doces, (salgadas + doces)[i].id, (salgadas + doces)[j].id, size) > 0
  {
    var all := salgadas + doces;
    FindOwnId(all, i);
    FindOwnId(all, j);
  }

  /** `pizza?.name` in a template: the name, or the text "undefined". */
  function TemplateName(p: Option<MenuItem>): string {
    match p
    case Some(q) => q.name
    case None => "undefined"
  }

  /** `getPizzaName`: the name, or the empty text. */
  function PizzaName(all: seq<MenuItem>, id: string): string {
    match FindById(all, id)
    case Some(p) => p.name
    case None => ""
  }

  function TypeCategory(t: PizzaType): Category {
    match t
    case Salgada => PizzaSalgada
    case Doce => PizzaDoce
  }

  /** `mm-${Date.now()}` */
  function MeioMeioId(now: nat): string {
    "mm-" + NatToString(now)
  }

  /** `MEIO A MEIO (${SIZE}): ${pizza1?.name} + ${pizza2?.name}` */
  function MeioMeioName(all: seq<MenuItem>, first: string, second: string, size: Size): string {
    "MEIO A MEIO (" + SizeUpper(size) + "): "
    + TemplateName(FindById(all, first)) + " + " + TemplateName(FindById(all, second))
  }

  /** The object `handleAddMeioMeio` hands to `onAddToCart`. */
  function MeioMeioCandidate(all: seq<MenuItem>, first: string, second: string, size: Size, t: PizzaType, now: nat): Candidate {
    Candidate(MeioMeioId(now), TypeCategory(t), MeioMeioName(all, first, second, size),
              MeioMeioPrice(all, first, second, size), Some(size))
  }

  /** Pizzas added at different milliseconds get different ids, so the cart keeps them on separate lines. */
  lemma MeioMeioIdsDistinct(now: nat, now': nat)
    requires now != now'
    ensures MeioMeioId(now) != MeioMeioId(now')
  {
    if MeioMeioId(now) == MeioMeioId(now') {
      assert MeioMeioId(now)[3..] == NatToString(now);
      assert MeioMeioId(now')[3..] == NatToString(now');
      ParseNatToString(now);
      ParseNatToString(now');
    }
  }

  /** A half-and-half whose id is not yet in the cart gets a line of its own,
      and the cart total rises by the price of the dearer half. */
  lemma MeioMeioAddsOwnLine(items: seq<CartLine>, all: seq<MenuItem>, first: string, second: string,
                            size: Size, t: PizzaType, now: nat)
    requires !HasLine(items, MeioMeioId(now), Some(size))
    requires FindById(all, first).Some? && FindById(all, second).Some?
    ensures var c := MeioMeioCandidate(all, first, second, size, t, now);
      AddLine(items, c) == items + [CartLine(MeioMeioId(now), TypeCategory(t), c.name, c.price, Some(size), 1)]
    ensures Total(AddLine(items, MeioMeioCandidate(all, first, second, size, t, now)))
         == Total(items) + Max(SizePrice(FindById(all, first).value, size), SizePrice(FindById(all, second).value, size))
  {
    var c := MeioMeioCandidate(all, first, second, size, t, now);
    AddLineNew(items, c);
    AddLineTotalNew(items, c);
  }

  /** The display name and the cart name agree for halves in the catalogue. */
  lemma NamesAgreeForKnownHalves(all: seq<MenuItem>, first: string, second: string, size: Size)
    requires FindById(all, first).Some? && FindById(all, second).Some?
    ensures MeioMeioName(all, first, second, size)
         == "MEIO A MEIO (" + SizeUpper(size) + "): " + PizzaName(all, first) + " + " + PizzaName(all, second)
  {
  }

  /** The dialog's state; `open` is the flag the parent passes down and updates
      through `onOpenChange`. */
  class MeioMeioModal {
    const salgadas: seq<MenuItem>
    const doces: seq<MenuItem>
    var firstHalf: string
    var secondHalf: string
    var pizzaSize: Size
    var pizzaType: PizzaType
    var selectingHalf: Option<Half>
    var open: bool

    /** `allPizzas` */
    function AllPizzas(): seq<MenuItem>
      reads this
    {
      salgadas + doces
    }

    constructor(salgadas: seq<MenuItem>, doces: seq<MenuItem>, open: bool)
      ensures this.salgadas == salgadas && this.doces == doces && this.open == open
      ensures firstHalf == "" && secondHalf == ""
      ensures pizzaSize == Grande && pizzaType == Salgada && selectingHalf == None
    {
      this.salgadas := salgadas;
      this.doces := doces;
      this.open := open;
      firstHalf := "";
      secondHalf := "";
      pizzaSize := Grande;
      pizzaType := Salgada;
      selectingHalf := None;
    }

    /** `handleAddMeioMeio`. With a half missing nothing changes and nothing is
        added. Otherwise the pizza is handed over, the halves are cleared and
        the dialog closes; size and type stay as chosen. */
    method HandleAddMeioMeio(now: nat) returns (added: Option<Candidate>)
      modifies this
      ensures old(firstHalf) == "" || old(secondHalf) == "" ==> added == None && unchanged(this)
      ensures old(firstHalf) != "" && old(secondHalf) != "" ==>
        added == Some(MeioMeioCandidate(AllPizzas(), old(firstHalf), old(secondHalf), pizzaSize, pizzaType, now))
        && firstHalf == "" && secondHalf == "" && selectingHalf == None && !open
        && pizzaSize == old(pizzaSize) && pizzaType == old(pizzaType)
    {
      if firstHalf == "" || secondHalf == "" {
        return None;
      }
      added := Some(MeioMeioCandidate(AllPizzas(), firstHalf, secondHalf, pizzaSize, pizzaType, now));
      firstHalf := "";
      secondHalf := "";
      selectingHalf := None;
      open := false;
    }

    /** `handleClose` */
    method HandleClose()
      modifies this
      ensures firstHalf == "" && secondHalf == "" && selectingHalf == None && !open
      ensures pizzaSize == old(pizzaSize) && pizzaType == old(pizzaType)
    {
      firstHalf := "";
      secondHalf := "";
      selectingHalf := None;
      open := false;
    }

    /** `handleTypeChange`: a new type clears both halves. */
    method HandleTypeChange(t: PizzaType)
      modifies this
      ensures pizzaType == t && firstHalf == "" && secondHalf == "" && selectingHalf == None
      ensures pizzaSize == old(pizzaSize) && open == old(open)
    {
      pizzaType := t;
      firstHalf := "";
      secondHalf := "";
      selectingHalf := None;
    }

    /** `handlePizzaSelect`: fills the half being chosen and returns to the main
        screen; with no half being chosen it does nothing. */
    method HandlePizzaSelect(id: string)
      modifies this
      ensures old(selectingHalf) == None ==> unchanged(this)
      ensures old(selectingHalf) == Some(First) ==>
        firstHalf == id && secondHalf == old(secondHalf) && selectingHalf == None
      ensures old(selectingHalf) == Some(Second) ==>
        secondHalf == id && firstHalf == old(firstHalf) && selectingHalf == None
      ensures pizzaSize == old(pizzaSize) && pizzaType == old(pizzaType) && open == old(open)
    {
      match selectingHalf
      case Some(First) =>
        firstHalf := id;
        selectingHalf := None;
      case Some(Second) =>
        secondHalf := id;
        selectingHalf := None;
      case None =>
    }

    /** The "1ª metade" / "2ª metade" buttons, and "Voltar" on the flavour list. */
    method SetSelectingHalf(h: Option<Half>)
      modifies this
      ensures selectingHalf == h
      ensures firstHalf == old(firstHalf) && secondHalf == old(secondHalf)
      ensures pizzaSize == old(pizzaSize) && pizzaType == old(pizzaType) && open == old(open)
    {
      selectingHalf := h;
    }

    /** The size buttons; the halves already chosen are kept. */
    method SetPizzaSize(s: Size)
      modifies this
      ensures pizzaSize == s
      ensures firstHalf == old(firstHalf) && secondHalf == old(secondHalf)
      ensures selectingHalf == old(selectingHalf) && pizzaType == old(pizzaType) && open == old(open)
    {
      pizzaSize := s;
    }
  }
}
