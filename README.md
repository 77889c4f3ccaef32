# Pizzaria Alcapone storefront — a Dafny model

The storefront is a single-page React site. Customers browse the menu (pizzas,
esfihas, drinks, portions), put items in a cart, compose half-and-half pizzas,
add promotional bundles, and send the finished order to the pizzeria as a
WhatsApp text. This project models the logic behind that page in Dafny and
proves properties of it:

- `CartEngine` (cart.dfy): the `useCart` hook. It covers the cart lines, the
  merge-by-(id, size) rule of `addItem`, `removeItem`, `updateQuantity`,
  `clearCart`, the total, and the WhatsApp transcript built by
  `generateWhatsAppMessage`. The hook's state is the class `Cart`; each update is
  a function on the line list, proved to keep the keys unique and the
  quantities positive.
- `Storefront` (storefront.dfy): from the page component. It covers the
  opening-hours rule `isOpen`, checked against a schedule table; the menu
  search `filterItems`; and the badge count `cartCount`.
- `Checkout` (checkout.dfy): the cart sheet. It covers its two steps, the
  order type, the customer form, the quantity buttons, and `handleFinishOrder`,
  with the exact order text it sends.
- `HalfAndHalf` (half_and_half.dfy): the half-and-half dialog. The price is
  that of the dearer half, the flavour list offers only priced pizzas, and the
  dialog's state machine is the class `MeioMeioModal`.
- `MenuSection` (menu_section.dfy): a menu section. It covers the
  portion/menu-item test, the price charged for each "+" button, the
  accompaniment dialog, and the set of expanded cards.
- `Promo` (promo.dfy): a promotional bundle added as one cart line.
- `Common`, `Text`, `Menu` and `Scenarios`:
  - `Common` holds the shared helpers: an option type, a filter, and folds.
  - `Text` renders numbers: `${n}` and `toFixed(2)` from integer cents, with
    round-trip proofs. It also holds ASCII lower-casing, `includes` and `join`.
  - `Menu` holds the catalogue record shapes with a few entries as fixtures.
  - `Scenarios` holds one worked order.

Money is integer cents throughout. Prices like 44.99 become 4499, and
`toFixed(2)` is rendered from the cents. JavaScript truthiness is written out
where the code depends on it:

- a price of 0 is falsy;
- an empty observations text is falsy;
- a missing size is falsy.

Behaviours of the code worth knowing:

- the form demands an address, number and neighbourhood for pick-up orders too;
- the opening hours are shown as ABERTO/FECHADO but do not block an order;
- `clearCart` empties the lines but keeps the customer record;
- the page shows only ABERTO or FECHADO, with no opening time;
- on Sunday the shop is closed at 00:30, although Saturday night's opening
  hours run past midnight.

## Model

| member | source | states |
|---|---|---|
| Text.NatToString | src/hooks/useCart.ts:98 | `${n}` of a natural number: at least one character, all decimal digits, no leading zero |
| Text.ParseNatToString | src/hooks/useCart.ts:98 | the decimal rendering of a quantity reads back to the same number |
| Text.RoundTripFixed2 | src/hooks/useCart.ts:102 | `toFixed(2)` of an amount in cents, negative amounts included, reads back to exactly that amount, so no cent is lost in the order texts |
| Text.LowerHasNoCapitals | src/components/PizzariaApp.tsx:69 | no ASCII capital is left in a text after `toLowerCase` |
| Text.LowerIdempotent | src/components/PizzariaApp.tsx:69 | lower-casing a text that is already lower-cased changes nothing |
| Text.LowerIgnoresCase | src/components/PizzariaApp.tsx:69 | two texts that differ only in the case of ASCII letters lower-case to the same text |
| Text.JoinLinesSnoc | src/components/Cart.tsx:37 | joining one more element with `"\n"` adds one separator and that element at the end |
| CartEngine.NewLine | src/hooks/useCart.ts:48 | a new line starts at quantity 1 with the candidate's (id, size) |
| CartEngine.AddLineExisting | src/hooks/useCart.ts:36-45 | adding a key already in the cart raises that line's quantity by one, keeps its name, category and price, and leaves every other line unchanged |
| CartEngine.AddLineNew | src/hooks/useCart.ts:48 | adding a key not in the cart appends one line of quantity 1 after the existing lines |
| CartEngine.IncrementIsPointUpdate | src/hooks/useCart.ts:41-45 | with unique keys, the `map` of `addItem` changes only the matching line |
| CartEngine.AddLinePreservesValid | src/hooks/useCart.ts:34-50 | `addItem` keeps (id, size) unique across lines and every quantity positive |
| CartEngine.AddLineTotalExisting | src/hooks/useCart.ts:40-45 | adding an existing key raises the total by that line's unit price |
| CartEngine.AddLineTotalNew | src/hooks/useCart.ts:48 | adding a new key raises the total by the candidate's price |
| CartEngine.AddAllExisting | src/hooks/useCart.ts:34-50 | n more adds of a key already in the cart raise its quantity by exactly n and change nothing else |
| CartEngine.MergeFirstWins | src/hooks/useCart.ts:34-50 | n adds of one (id, size) to a cart without it give a single line with quantity n and the first add's name, category and price |
| CartEngine.RemoveLines | src/hooks/useCart.ts:52-56 | after `removeItem` no line has the key, every line with another key survives, and nothing new appears |
| CartEngine.RemoveLinesAt | src/hooks/useCart.ts:52-56 | with unique keys, removing a present key drops exactly that line and keeps the others in order |
| CartEngine.RemoveLinesTotal | src/hooks/useCart.ts:52-56 | with unique keys, removing a present key lowers the total by exactly that line's price times its quantity |
| CartEngine.RemoveLinesInOrder | src/hooks/useCart.ts:53-55 | the surviving lines keep their relative order |
| CartEngine.RemoveLinesNoMatch | src/hooks/useCart.ts:53-55 | removing a key that is not in the cart changes nothing |
| CartEngine.RemoveLinesIdempotent | src/hooks/useCart.ts:53-55 | removing twice is the same as removing once |
| CartEngine.RemoveLinesPreservesValid | src/hooks/useCart.ts:52-56 | `removeItem` keeps keys unique and quantities positive |
| CartEngine.SetQuantityIsPointUpdate | src/hooks/useCart.ts:64-70 | with unique keys, the `map` of `updateQuantity` changes only the matching line's quantity |
| CartEngine.SetQuantityTotal | src/hooks/useCart.ts:64-70 | with unique keys, setting a present line's quantity to q moves the total by that line's unit price times (q − old quantity) |
| CartEngine.UpdateLinesPreservesValid | src/hooks/useCart.ts:58-71 | `updateQuantity` either removes the line (quantity ≤ 0) or stores a positive quantity, so the cart stays valid |
| CartEngine.TotalNonNegative | src/hooks/useCart.ts:77 | the total of a cart with positive quantities is never negative |
| CartEngine.CustomerLines | src/hooks/useCart.ts:86-93 | the customer block has six lines when observations are present and non-empty, five otherwise |
| CartEngine.ObservationsLineIff | src/hooks/useCart.ts:90-92 | the customer block has an entry starting "Observações: " exactly when observations are present and non-empty |
| CartEngine.WhatsAppMessageEmpty | src/hooks/useCart.ts:79-80 | the transcript is empty exactly when the cart is |
| CartEngine.WhatsAppItemLinesInOrder | src/hooks/useCart.ts:97-103 | each cart line's text stands between the texts of the lines before it and after it, so the items appear in cart order |
| CartEngine.AppendItemLines | src/hooks/useCart.ts:97-103 | the `forEach` loop appends exactly the item lines, in cart order, to the message built so far |
| CartEngine.Cart.constructor | src/hooks/useCart.ts:23-32 | the cart starts empty with the blank customer record and payment "dinheiro" |
| CartEngine.Cart.AddItem | src/hooks/useCart.ts:34-50 | `addItem` replaces the lines by the merge-or-append update, keeps the customer record and the cart invariant |
| CartEngine.Cart.RemoveItem | src/hooks/useCart.ts:52-56 | `removeItem` replaces the lines by the filtered list and keeps the invariant |
| CartEngine.Cart.UpdateQuantity | src/hooks/useCart.ts:58-71 | `updateQuantity` removes on a quantity ≤ 0 and otherwise sets the matching line's quantity, keeping the invariant |
| CartEngine.Cart.ClearCart | src/hooks/useCart.ts:73-75 | `clearCart` empties the lines and leaves the customer record as it was |
| CartEngine.Cart.SetCustomerInfo | src/hooks/useCart.ts:24-32 | the setter replaces the customer record and leaves the lines |
| CartEngine.Cart.GenerateWhatsAppMessage | src/hooks/useCart.ts:79-109 | the message is the transcript of the current lines and customer record, before URI encoding |
| Storefront.IsOpenMatchesSchedule | src/components/PizzariaApp.tsx:55-66 | `isOpen` agrees on every weekday and hour with the weekly schedule table |
| Storefront.IsOpenMondayToThursday | src/components/PizzariaApp.tsx:59-60 | Monday to Thursday the shop is open exactly from 18:00 |
| Storefront.IsOpenFridaySaturday | src/components/PizzariaApp.tsx:61-62 | Friday and Saturday it is open from 18:00 and during the hour after midnight |
| Storefront.IsOpenSunday | src/components/PizzariaApp.tsx:63-64 | on Sunday it is open from 18:00 and closed after midnight |
| Storefront.IsOpenAtIgnoresMinutes | src/components/PizzariaApp.tsx:56-58 | a note on the abstraction, not a property of `isOpen`: the clock is read only through the weekday and the hour, so the model's moments that share both agree by construction |
| Storefront.ScheduleBoundaries | src/components/PizzariaApp.tsx:55-66 | Tuesday 17:59 closed, 18:00 and 23:59 open; Wednesday 00:00 closed; Friday 23:30 and Saturday 00:30 open; Sunday 00:30 closed |
| Storefront.FilterItems | src/components/PizzariaApp.tsx:68-69 | the search keeps exactly the items whose lower-cased name contains the lower-cased term |
| Storefront.FilterItemsInOrder | src/components/PizzariaApp.tsx:69 | the found items keep menu order |
| Storefront.FilterItemsEmptyTerm | src/components/PizzariaApp.tsx:69 | an empty term shows the whole list |
| Storefront.FilterItemsLowerTerm | src/components/PizzariaApp.tsx:69 | searching for a term or for its lower-cased form finds the same items |
| Storefront.FilterItemsCaseInsensitive | src/components/PizzariaApp.tsx:69 | two terms that differ only in the case of some letters find the same items |
| Storefront.CartCountEmpty | src/components/PizzariaApp.tsx:171 | an empty cart counts 0 |
| Storefront.CartCountAddLine | src/components/PizzariaApp.tsx:171 | every `addItem` raises the badge count by exactly one |
| Storefront.CartCountAtLeastLines | src/components/PizzariaApp.tsx:171 | with positive quantities the count is at least the number of lines |
| Storefront.CartCountPositiveIff | src/components/PizzariaApp.tsx:206-233 | for a valid cart the two badge conditions (`items.length > 0`, `cartCount > 0`) agree |
| Checkout.WithFieldCommutes | src/components/Cart.tsx:116-192 | edits to two different form fields give the same record in either order |
| Checkout.ValidationIgnoresExtras | src/components/Cart.tsx:26 | observations and payment method play no part in the submission check |
| Checkout.FillingTheFormValidates | src/components/Cart.tsx:26 | the blank record is refused, and filling its five required fields with non-empty text makes it pass |
| Checkout.ItemsTextSnoc | src/components/Cart.tsx:35-37 | one more cart line adds one more line at the end of the items text |
| Checkout.ContainsJoined | src/components/Cart.tsx:37 | every element of a `join("\n")` occurs in the joined text |
| Checkout.MessageHasLine | src/components/Cart.tsx:39-51 | every line of the template occurs in the order text |
| Checkout.MessageStatesOrderType | src/components/Cart.tsx:45 | the order text names the order type picked |
| Checkout.MessageStatesAddress | src/components/Cart.tsx:48 | the order text carries street, number and neighbourhood, whatever the order type |
| Checkout.MessageListsEveryItem | src/components/Cart.tsx:35-41 | every cart line's text occurs in the order text |
| Checkout.MessageStatesTotal | src/components/Cart.tsx:43 | the order text states the total line |
| Checkout.TotalLineReadsBack | src/components/Cart.tsx:43 | the amount written on the total line reads back to the cart total in cents |
| Checkout.ObservationsFallback | src/components/Cart.tsx:49 | the observations read "Nenhuma" exactly when none were typed, and are never empty |
| Checkout.AsCandidate | src/components/Cart.tsx:266 | a cart line seen as a candidate makes the same line at quantity 1 |
| Checkout.MinusAtOneRemovesLine | src/components/Cart.tsx:257 | "−" on a line of quantity 1 removes that line and only it |
| Checkout.MinusDecrements | src/components/Cart.tsx:257 | "−" on a larger quantity lowers only that line by one |
| Checkout.PlusIsAddAgain | src/components/Cart.tsx:266 | "+" raises only that line by exactly one, the same as adding the product again from the menu |
| Checkout.PlusThenMinus | src/components/Cart.tsx:257-266 | "+" followed by "−" on the same line gives back the cart |
| Checkout.CartSheet.constructor | src/components/Cart.tsx:21-22 | the sheet starts on the cart step with order type "retirada" |
| Checkout.CartSheet.FinishOrder | src/components/Cart.tsx:25-75 | an empty required field sends nothing and changes nothing. Otherwise it sends the order text of the cart as it was, empties the cart, resets the form to the blank record, returns to the cart step and closes the sheet |
| Checkout.CartSheet.Continue | src/components/Cart.tsx:297-303 | "Continuar" moves to the checkout step only while the cart has lines |
| Checkout.CartSheet.Back | src/components/Cart.tsx:207 | "Voltar" returns to the cart step |
| Checkout.CartSheet.SelectOrderType | src/components/Cart.tsx:94-101 | the buttons set the order type and nothing else |
| Checkout.CartSheet.EditField | src/components/Cart.tsx:116-192 | typing replaces one field of the customer record and leaves the lines |
| Checkout.CartSheet.SelectPayment | src/components/Cart.tsx:171-173 | the selector replaces the payment method only |
| Checkout.CartSheet.Minus | src/components/Cart.tsx:257 | "−" calls `updateQuantity` with the quantity less one, keeping the cart valid |
| Checkout.CartSheet.Plus | src/components/Cart.tsx:266 | "+" calls `updateQuantity` with the quantity plus one, keeping the cart valid |
| Checkout.CartSheet.Trash | src/components/Cart.tsx:278 | the bin drops exactly that line |
| Checkout.CartSheet.ClearButton | src/components/Cart.tsx:299 | the clear button empties the lines and keeps the customer record |
| HalfAndHalf.FindIndex | src/components/MeioMeioModal.tsx:40-41 | `find` returns the first pizza with the id, or nothing when no pizza has it |
| HalfAndHalf.FindOwnId | src/components/MeioMeioModal.tsx:40-41 | with distinct ids, looking a pizza up by its own id finds it |
| HalfAndHalf.SizePrice | src/components/MeioMeioModal.tsx:45-46 | the price at the size counts as non-zero exactly when it is truthy |
| HalfAndHalf.MeioMeioPriceIsDearerHalf | src/components/MeioMeioModal.tsx:39-50 | with both halves found, the price is no less than either half's and equal to one of them |
| HalfAndHalf.MeioMeioPriceUnknownHalf | src/components/MeioMeioModal.tsx:43 | an unknown half makes the price 0 |
| HalfAndHalf.MeioMeioPriceSymmetric | src/components/MeioMeioModal.tsx:48-49 | swapping the halves does not change the price |
| HalfAndHalf.MeioMeioSameFlavour | src/components/MeioMeioModal.tsx:39-50 | both halves of one flavour cost what that whole pizza costs |
| HalfAndHalf.AvailablePizzas | src/components/MeioMeioModal.tsx:109-111 | the flavour list holds exactly the pizzas of the list for the chosen type that have a non-zero price at the size |
| HalfAndHalf.OfferedPizzasOfType | src/components/MeioMeioModal.tsx:32-34 | only savoury pizzas are offered while "salgada" is chosen, and only sweet ones while "doce" is |
| HalfAndHalf.ChefeNotOffered | src/components/MeioMeioModal.tsx:109-111 | a pizza listed at 0.00 is not offered, a priced one is |
| HalfAndHalf.OfferedHalvesArePriced | src/components/MeioMeioModal.tsx:109-111 | two halves picked from the offer and looked up in `allPizzas` never make a free pizza |
| HalfAndHalf.MeioMeioIdsDistinct | src/components/MeioMeioModal.tsx:64 | pizzas added at different milliseconds get different ids |
| HalfAndHalf.MeioMeioAddsOwnLine | src/components/MeioMeioModal.tsx:62-69 | a half-and-half with a fresh id gets its own cart line, with the chosen size and the category of the type. The total rises by the dearer half's price |
| HalfAndHalf.NamesAgreeForKnownHalves | src/components/MeioMeioModal.tsx:103-105 | for halves in the catalogue, the cart name uses the names the dialog displays |
| HalfAndHalf.MeioMeioModal.constructor | src/components/MeioMeioModal.tsx:25-29 | no halves, size "grande", type "salgada", no half being chosen |
| HalfAndHalf.MeioMeioModal.HandleAddMeioMeio | src/components/MeioMeioModal.tsx:52-76 | with a half missing it adds nothing and changes nothing. Otherwise it hands over the priced pizza, clears both halves and the half being chosen, and closes the dialog |
| HalfAndHalf.MeioMeioModal.HandleClose | src/components/MeioMeioModal.tsx:78-83 | closing clears both halves and the half being chosen |
| HalfAndHalf.MeioMeioModal.HandleTypeChange | src/components/MeioMeioModal.tsx:86-91 | a new type clears both halves and the half being chosen |
| HalfAndHalf.MeioMeioModal.HandlePizzaSelect | src/components/MeioMeioModal.tsx:93-101 | sets only the half being chosen and ends the choice; a no-op with no half being chosen |
| HalfAndHalf.MeioMeioModal.SetSelectingHalf | src/components/MeioMeioModal.tsx:263-280 | the half buttons start choosing that half and change nothing else |
| HalfAndHalf.MeioMeioModal.SetPizzaSize | src/components/MeioMeioModal.tsx:204-215 | the size buttons change the size and keep the halves |
| MenuSection.IsPorcaoItemIff | src/components/MenuSection.tsx:18-20 | the test `'price' in item && !('prices' in item)`, read over the property names an entry actually carries (optional ones only when given), is true of every portion and of no menu item |
| MenuSection.AccompanimentOptions | src/components/MenuSection.tsx:54 | the dialog has options exactly when the portion has a non-empty optional list |
| MenuSection.PorcaoNameShowsChoice | src/components/MenuSection.tsx:40 | a chosen accompaniment is written into the line name after the portion's name; otherwise the name is the portion's own |
| MenuSection.PorcaoChoicesMerge | src/components/MenuSection.tsx:39-47 | two choices of one portion share id and size, so the cart merges them into one line named after the first choice |
| MenuSection.ButtonsChargeShownPrice | src/components/MenuSection.tsx:134-177 | every "+" button puts in the cart the price printed beside it |
| MenuSection.SizeButtonsArePriced | src/components/MenuSection.tsx:136-155 | a size button appears exactly for the sizes with a non-zero price |
| MenuSection.ChefeAddedFree | src/components/MenuSection.tsx:134-183 | a pizza at 0.00 in both sizes gets the unsized button and goes in free, without a size |
| MenuSection.CalabresaButtons | src/components/MenuSection.tsx:61-65 | a sized pizza is charged its price at the size, an unsized drink its unit price |
| MenuSection.Toggled | src/components/MenuSection.tsx:29-37 | toggling flips membership of exactly that id |
| MenuSection.ToggleTwice | src/components/MenuSection.tsx:29-37 | toggling twice restores the set |
| MenuSection.MenuSectionState.constructor | src/components/MenuSection.tsx:23-27 | no card expanded, dialog closed with no item |
| MenuSection.MenuSectionState.ToggleExpanded | src/components/MenuSection.tsx:29-37 | the expanded set becomes the toggled set, and the dialog is untouched |
| MenuSection.MenuSectionState.ClickDescription | src/components/MenuSection.tsx:101 | a click toggles the card only when its description is not empty |
| MenuSection.MenuSectionState.AddToCart | src/components/MenuSection.tsx:52-74 | a portion with options opens the dialog with that portion and adds nothing; anything else is handed over with its id, name, price and size |
| MenuSection.MenuSectionState.HandleAddPorcao | src/components/MenuSection.tsx:39-50 | hands over the portion's id and price under the named choice, then closes the dialog and forgets the item |
| MenuSection.MenuSectionState.ChooseOption | src/components/MenuSection.tsx:225-228 | an option button adds the shown portion with that option |
| MenuSection.MenuSectionState.SetModalOpen | src/components/MenuSection.tsx:198 | the dialog flag is set and the item always forgotten |
| Promo.PromoIgnoresContents | src/components/PromoModal.tsx:16-23 | what a bundle contains never reaches the cart line |
| Promo.AddPromoNew | src/components/PromoModal.tsx:16-23 | a new bundle becomes one "esfiha-salgada" line without size at the bundle's price, and the total rises by that price |
| Promo.RepeatedPromoMerges | src/components/PromoModal.tsx:16-23 | adding the same bundle n times gives one line of quantity n under the first name |
| Promo.Pacote1Twice | src/components/PromoModal.tsx:16-23 | "PACOTE 1" twice on an empty cart is one line of 2 with total 90.00 |
| Scenarios.CalabresaAndCokeCart | src/components/MenuSection.tsx:52-74 | two large calabresas and a coke make two lines, the pizza at quantity 2 |
| Scenarios.CalabresaAndCokeSums | src/components/PizzariaApp.tsx:171 | that cart counts 3 and totals 9798 cents |
| Scenarios.CalabresaAndCokeTotalText | src/components/Cart.tsx:43 | its order text reads "Total: R$ 97.98" |
| Scenarios.CokeLineText | src/components/Cart.tsx:36 | the coke's order line has no size: "1x COCA-COLA - R$ 8.00" |

## Left out

- `encodeURIComponent`, the `wa.me` link and `window.open` (src/hooks/useCart.ts:108, src/components/Cart.tsx:53-54) are browser and library calls. `GenerateWhatsAppMessage` returns the text before encoding, and `FinishOrder` returns the text it would encode.
- The clock: `new Date()` and `Date.now()` are parameters (the weekday and hour of `IsOpen`, the `now` of `HandleAddMeioMeio`).
- Floating-point money. Prices and totals are integer cents, so JavaScript's float drift and its rounding in `toFixed` are not modelled.
- `toLowerCase` is modelled for ASCII letters only; other characters are left unchanged.
- Quantities are integers. A fractional quantity, which the page never produces, is not modelled.
- CartEngine.Cart.GenerateWhatsAppMessage: the banner, greeting and customer block are built in straight-line code (src/hooks/useCart.ts:82-96). The method assigns their concatenation in one step; only the item loop is modelled as a loop.
- JSX, styling, toasts and the `alert` of the half-and-half dialog are presentation only. The `alert` branch is modelled as "nothing added, nothing changed".
- The floating cart button's drag handling and its `localStorage` position, the navigation helpers (`scrollToSection`, `openInstagram`, `openMaps`) and src/components/DeliveryAlert.tsx are DOM and storage I/O.
- The static catalogue (src/data/menu.ts) is represented only by its record shapes and a few entries used as fixtures.
- The `open` flags of the sheet and the dialogs belong to their parents. Each is modelled as a field that the `onOpenChange(false)` calls set.
