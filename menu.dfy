/** The shapes of the static catalogue (src/data/menu.ts) that the cart and the
    menu components read, with a few catalogue entries as fixtures. Amounts are
    integer cents. */
module Menu {
  import opened Common

  /** The two pizza sizes; a missing size means "sold by unit". */
  datatype Size = Broto | Grande

  /** The size as stored on a cart line (`"broto"`, `"grande"`). */
  function SizeName(s: Size): string {
    match s
    case Broto => "broto"
    case Grande => "grande"
  }

  /** `size.toUpperCase()` */
  function SizeUpper(s: Size): string {
    match s
    case Broto => "BROTO"
    case Grande => "GRANDE"
  }

  /** `prices: { broto?, grande?, unit? }`, each in cents. */
  datatype Prices = Prices(broto: Option<nat>, grande: Option<nat>, unit: Option<nat>)

  /** `prices[size]` */
  function PriceAt(p: Prices, s: Size): Option<nat> {
    match s
    case Broto => p.broto
    case Grande => p.grande
  }

  /** JavaScript truthiness of an optional price: present and not zero. */
  predicate Truthy(p: Option<nat>) {
    p.Some? && p.value != 0
  }

  datatype MenuItem = MenuItem(id: string, name: string, description: Option<string>, prices: Prices)

  /** Side dishes of a portion: those always served and those to choose from. */
  datatype Accompaniments = Accompaniments(included: Option<seq<string>>, optional: Option<seq<string>>)

  /** A portion, priced once, with optional servings text and side dishes. */
  datatype PorcaoItem = PorcaoItem(
    id: string,
    name: string,
    description: Option<string>,
    price: nat,
    servings: Option<string>,
    accompaniments: Option<Accompaniments>)

  /** A pre-priced bundle; `items` is the list of what it contains, for display. */
  datatype Promotion = Promotion(id: string, name: string, description: string, price: nat, items: seq<string>)

  const Calabresa := MenuItem("calabresa", "CALABRESA", Some("Calabresa e cebola"), Prices(Some(3499), Some(4499), None))
  /** Listed with both prices 0.0 ("not informed yet"). */
  const Chefe := MenuItem("chefe", "CHEFE", Some("Carne seca, catupiry, tomate e parmesão"), Prices(Some(0), Some(0), None))
  const Coca := MenuItem("coca", "COCA-COLA", None, Prices(None, None, Some(800)))
  const Pacote1 := Promotion("promo1", "PACOTE 1", "5 Carne + 5 Queijo + 5 Calabresa", 4500, ["5x Carne", "5x Queijo", "5x Calabresa"])
}
