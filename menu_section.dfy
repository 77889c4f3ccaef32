/** One section of the menu (src/components/MenuSection.tsx): a list of
    pizzas, drinks or portions with "+" buttons that hand a candidate line to
    the cart, the set of cards whose description is expanded, and the dialog
    where a portion's accompaniment is chosen. */
module MenuSection {
  import opened Common
  import opened Text
  import opened Menu
  import opened CartEngine

  /** `MenuItem | PorcaoItem`: a section lists one kind or the other. */
  datatype SectionItem = MenuEntry(item: MenuItem) | PorcaoEntry(porcao: PorcaoItem)

  /** The property names the `in` operator finds on an entry: the ones the
      record type always has, plus each optional one the entry gives. */
  function FieldNames(e: SectionItem): set<string> {
    match e
    case MenuEntry(m) =>
      {"id", "name", "prices"}
      + (if m.description.Some? then {"description"} else {})
    case PorcaoEntry(p) =>
      {"id", "name", "price"}
      + (if p.description.Some? then {"description"} else {})
      + (if p.servings.Some? then {"servings"} else {})
      + (if p.accompaniments.Some? then {"accompaniments"} else {})
  }

  /** `isPorcaoItem`: the entry has a `price` property and no `prices` property. */
  predicate IsPorcaoItem(e: SectionItem) {
    "price" in FieldNames(e) && "prices" !in FieldNames(e)
  }

  /** The property-name test picks out the portions, and only them, whichever
      optional fields an entry carries. */
  lemma IsPorcaoItemIff(e: SectionItem)
    ensures IsPorcaoItem(e) <==> e.PorcaoEntry?
    ensures !IsPorcaoItem(e) <==> e.MenuEntry?
  {
  }

  function EntryId(e: SectionItem): string {
    match e
    case MenuEntry(m) => m.id
    case PorcaoEntry(p) => p.id
  }

  function EntryName(e: SectionItem): string {
    match e
    case MenuEntry(m) => m.name
    case PorcaoEntry(p) => p.name
  }

  function EntryDescription(e: SectionItem): Option<string> {
    match e
    case MenuEntry(m) => m.description
    case PorcaoEntry(p) => p.description
  }

  /** `item.accompaniments?.optional && item.accompaniments.optional.length > 0` */
  predicate WantsAccompaniment(p: PorcaoItem) {
    p.accompaniments.Some? && p.accompaniments.value.optional.Some?
    && |p.accompaniments.value.optional.value| > 0
  }

  /** The options the accompaniment dialog lists for a portion. */
  function AccompanimentOptions(p: PorcaoItem): (r: seq<string>)
    ensures |r| > 0 <==> WantsAccompaniment(p)
  {
    if p.accompaniments.Some? && p.accompaniments.value.optional.Some?
    then p.accompaniments.value.optional.value
    else []
  }

  /** `let price = ...` in `addToCart`: a portion's own price; otherwise the price
      at the size, or the unit price, with a missing one counting as 0. */
  function LinePrice(e: SectionItem, size: Option<Size>): nat {
    match e
    case PorcaoEntry(p) => p.price
    case MenuEntry(m) =>
      match size
      case Some(s) => PriceAt(m.prices, s).GetOr(0)
      case None => m.prices.unit.GetOr(0)
  }

  /** What `addToCart` hands over when it does not open the dialog. */
  function ItemCandidate(category: Category, e: SectionItem, size: Option<Size>): Candidate {
    Candidate(EntryId(e), category, EntryName(e), LinePrice(e, size), size)
  }

  /** `accompaniment ? `${item.name} (${accompaniment})` : item.name` */
  function PorcaoName(name: string, acc: Option<string>): string {
    if acc.Some? && acc.value != "" then name + " (" + acc.value + ")" else name
  }

  /** What `handleAddPorcao` hands over: the portion's id and price, no size. */
  function PorcaoCandidate(category: Category, p: PorcaoItem, acc: Option<string>): Candidate {
    Candidate(p.id, category, PorcaoName(p.name, acc), p.price, None)
  }

  /** The chosen accompaniment is written into the line's name after the portion's
      name; with none (or an empty one) the name is the portion's own. */
  lemma PorcaoNameShowsChoice(name: string, acc: Option<string>)
    ensures StartsWith(PorcaoName(name, acc), name)
    ensures acc.Some? && acc.value != "" ==> Contains(PorcaoName(name, acc), acc.value)
    ensures !(acc.Some? && acc.value != "") ==> PorcaoName(name, acc) == name
  {
    if acc.Some? && acc.value != "" {
      ContainsMiddle(name + " (", acc.value, ")");
      assert PorcaoName(name, acc) == name + " (" + acc.value + ")";
      assert (name + " (" + acc.value + ")")[..|name|] == name;
    }
  }

  /** Two portions with different accompaniments share the portion's id and have
      no size, so the cart holds them as one line, under the first choice's name. */
  lemma PorcaoChoicesMerge(items: seq<CartLine>, category: Category, p: PorcaoItem, a: string, b: string)
    requires UniqueKeys(items) && !HasLine(items, p.id, None)
    ensures var c1, c2 := PorcaoCandidate(category, p, Some(a)), PorcaoCandidate(category, p, Some(b));
      AddLine(AddLine(items, c1), c2) == items + [NewLine(c1).(quantity := 2)]
  {
    var c1, c2 := PorcaoCandidate(category, p, Some(a)), PorcaoCandidate(category, p, Some(b));
    AddLineNew(items, c1);
    var mid := items + [NewLine(c1)];
    AppendNewKeepsKeys(items, c1);
    AddLineExisting(mid, c2, |items|);
    assert mid[|items| := mid[|items|].(quantity := 2)] == items + [NewLine(c1).(quantity := 2)];
  }

  // ---------------------------------------------------------------------------
  // What the card shows

  /** The card shows one button per priced size: not for portions, only in a
      section with sizes, and only if some size has a price. */
  predicate ShowsSizeButtons(e: SectionItem, hasSizes: bool) {
    e.MenuEntry? && hasSizes && (Truthy(e.item.prices.broto) || Truthy(e.item.prices.grande))
  }

  /** The "+" buttons of a card, each as the `size` argument it passes. */
  function Buttons(e: SectionItem, hasSizes: bool): seq<Option<Size>> {
    if ShowsSizeButtons(e, hasSizes) then
      (if Truthy(e.item.prices.broto) then [Some(Broto)] else [])
      + (if Truthy(e.item.prices.grande) then [Some(Grande)] else [])
    else [None]
  }

  /** The amount printed next to a button, in cents. */
  function ShownPrice(e: SectionItem, button: Option<Size>): nat {
    match button
    case Some(s) => if e.MenuEntry? && PriceAt(e.item.prices, s).Some? then PriceAt(e.item.prices, s).value else 0
    case None =>
      match e
      case PorcaoEntry(p) => p.price
      case MenuEntry(m) => if Truthy(m.prices.unit) then m.prices.unit.value else 0
  }

  /** Every button on a card puts in the cart the price printed beside it. */
  lemma ButtonsChargeShownPrice(e: SectionItem, hasSizes: bool, k: nat)
    requires k < |Buttons(e, hasSizes)|
    ensures LinePrice(e, Buttons(e, hasSizes)[k]) == ShownPrice(e, Buttons(e, hasSizes)[k])
  {
  }

  /** A size button appears exactly for the sizes with a non-zero price. */
  lemma SizeButtonsArePriced(e: SectionItem, hasSizes: bool, s: Size)
    requires ShowsSizeButtons(e, hasSizes)
    ensures Some(s) in Buttons(e, hasSizes) <==> Truthy(PriceAt(e.item.prices, s))
  {
    var bs := Buttons(e, hasSizes);
    if s == Broto && !Truthy(e.item.prices.broto) {
      assert bs == [Some(Grande)];
    }
    if s == Grande && !Truthy(e.item.prices.grande) {
      assert bs == [Some(Broto)];
    }
  }

  /** A pizza listed at 0 in both sizes gets the single unsized button, shows
      0.00 and goes into the cart free of charge and without a size. */
  lemma ChefeAddedFree(category: Category)
    ensures Buttons(MenuEntry(Chefe), true) == [None]
    ensures ItemCandidate(category, MenuEntry(Chefe), None) == Candidate("chefe", category, "CHEFE", 0, None)
  {
  }

  /** The sized buttons of a priced pizza, with their prices in cents. */
  lemma CalabresaButtons()
    ensures Buttons(MenuEntry(Calabresa), true) == [Some(Broto), Some(Grande)]
    ensures LinePrice(MenuEntry(Calabresa), Some(Broto)) == 3499
    ensures LinePrice(MenuEntry(Calabresa), Some(Grande)) == 4499
    ensures LinePrice(MenuEntry(Coca), None) == 800
  {
  }

  // ---------------------------------------------------------------------------
  // Expanded descriptions

  /** The set after `toggleExpanded(id)`. */
  function Toggled(s: set<string>, id: string): (r: set<string>)
    ensures id in r <==> id !in s
    ensures forall x :: x != id ==> (x in r <==> x in s)
  {
    if id in s then s - {id} else s + {id}
  }

  /** Toggling the same card twice restores the set. */
  lemma ToggleTwice(s: set<string>, id: string)
    ensures Toggled(Toggled(s, id), id) == s
  {
  }

  // ---------------------------------------------------------------------------
  // The section's state

  /** The section's own state; `category` and `hasSizes` are its props. */
  class MenuSectionState {
    const category: Category
    const hasSizes: bool
    var expandedItems: set<string>
    var modalOpen: bool
    var modalItem: Option<PorcaoItem>

    constructor(category: Category, hasSizes: bool)
      ensures this.category == category && this.hasSizes == hasSizes
      ensures expandedItems == {} && !modalOpen && modalItem == None
    {
      this.category := category;
      this.hasSizes := hasSizes;
      expandedItems := {};
      modalOpen := false;
      modalItem := None;
    }

    /** `toggleExpanded`: copies the set, then adds or deletes the id. */
    method ToggleExpanded(id: string)
      modifies this
      ensures expandedItems == Toggled(old(expandedItems), id)
      ensures modalOpen == old(modalOpen) && modalItem == old(modalItem)
    {
      var next := expandedItems;
      if id in next {
        next := next - {id};
      } else {
        next := next + {id};
      }
      expandedItems := next;
    }

    /** A click on a card's description, which toggles only when the description is not empty. */
    method ClickDescription(e: SectionItem)
      modifies this
      ensures EntryDescription(e).Some? && EntryDescription(e).value != "" ==>
        expandedItems == Toggled(old(expandedItems), EntryId(e))
      ensures !(EntryDescription(e).Some? && EntryDescription(e).value != "") ==>
        expandedItems == old(expandedItems)
      ensures modalOpen == old(modalOpen) && modalItem == old(modalItem)
    {
      var d := EntryDescription(e);
      if d.Some? && d.value != "" {
        ToggleExpanded(EntryId(e));
      }
    }

    /** `addToCart`: a portion with accompaniments to choose opens the dialog
        and adds nothing; anything else is handed to the cart at once. */
    method AddToCart(e: SectionItem, size: Option<Size>) returns (added: Option<Candidate>)
      modifies this
      ensures e.PorcaoEntry? && WantsAccompaniment(e.porcao) ==>
        added == None && modalOpen && modalItem == Some(e.porcao)
      ensures !(e.PorcaoEntry? && WantsAccompaniment(e.porcao)) ==>
        added == Some(ItemCandidate(category, e, size))
        && modalOpen == old(modalOpen) && modalItem == old(modalItem)
      ensures expandedItems == old(expandedItems)
    {
      if IsPorcaoItem(e) && WantsAccompaniment(e.porcao) {
        modalOpen := true;
        modalItem := Some(e.porcao);
        return None;
      }
      return Some(ItemCandidate(category, e, size));
    }

    /** `handleAddPorcao`: hands the portion over and closes the dialog. */
    method HandleAddPorcao(p: PorcaoItem, acc: Option<string>) returns (added: Candidate)
      modifies this
      ensures added == PorcaoCandidate(category, p, acc)
      ensures !modalOpen && modalItem == None && expandedItems == old(expandedItems)
    {
      added := PorcaoCandidate(category, p, acc);
      modalOpen := false;
      modalItem := None;
    }

    /** The option buttons of the dialog: the `k`-th option of the portion it shows. */
    method ChooseOption(k: nat) returns (added: Option<Candidate>)
      modifies this
      ensures old(modalItem).Some? && k < |AccompanimentOptions(old(modalItem).value)| ==>
        added == Some(PorcaoCandidate(category, old(modalItem).value,
                                      Some(AccompanimentOptions(old(modalItem).value)[k])))
        && !modalOpen && modalItem == None
      ensures !(old(modalItem).Some? && k < |AccompanimentOptions(old(modalItem).value)|) ==>
        added == None && unchanged(this)
    {
      if modalItem.None? || k >= |AccompanimentOptions(modalItem.value)| {
        return None;
      }
      var p := modalItem.value;
      var c := HandleAddPorcao(p, Some(AccompanimentOptions(p)[k]));
      return Some(c);
    }

    /** The dialog's `onOpenChange`: sets the flag and always forgets the item. */
    method SetModalOpen(open: bool)
      modifies this
      ensures modalOpen == open && modalItem == None && expandedItems == old(expandedItems)
    {
      modalOpen := open;
      modalItem := None;
    }
  }
}
