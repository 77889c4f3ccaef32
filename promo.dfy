/** The promotions dialog (src/components/PromoModal.tsx): each bundle is
    handed to the cart as a single line at the bundle's price. */
module Promo {
  import opened Common
  import opened Menu
  import opened CartEngine

  /** `addPromoToCart`: the bundle's id, name and price, always filed as
      savoury esfihas, with no size. */
  function PromoLine(p: Promotion): Candidate {
    Candidate(p.id, EsfihaSalgada, p.name, p.price, None)
  }

  /** What a bundle contains is shown in the dialog only: two bundles that differ
      only in their contents list give the same cart line. */
  lemma PromoIgnoresContents(p: Promotion, contents: seq<string>, description: string)
    ensures PromoLine(p.(items := contents, description := description)) == PromoLine(p)
  {
  }

  /** Adding a bundle not yet in the cart appends one line of quantity one at the
      bundle's price, and the total rises by exactly that price. */
  lemma AddPromoNew(items: seq<CartLine>, p: Promotion)
    requires !HasLine(items, p.id, None)
    ensures AddLine(items, PromoLine(p)) == items + [CartLine(p.id, EsfihaSalgada, p.name, p.price, None, 1)]
    ensures Total(AddLine(items, PromoLine(p))) == Total(items) + p.price
  {
    AddLineNew(items, PromoLine(p));
    AddLineTotalNew(items, PromoLine(p));
  }

  /** Adding the same bundle `n` times gives one line with quantity `n`, under the
      name it had the first time, even if its name changed in between. */
  lemma RepeatedPromoMerges(items: seq<CartLine>, ps: seq<Promotion>)
    requires UniqueKeys(items) && ps != [] && !HasLine(items, ps[0].id, None)
    requires forall i :: 0 <= i < |ps| ==> ps[i].id == ps[0].id
    ensures var cs := seq(|ps|, i requires 0 <= i < |ps| => PromoLine(ps[i]));
      AddAll(items, cs) == items + [CartLine(ps[0].id, EsfihaSalgada, ps[0].name, ps[0].price, None, |ps|)]
  {
    var cs := seq(|ps|, i requires 0 <= i < |ps| => PromoLine(ps[i]));
    PromoLinesKeyed(ps, cs);
    MergeFirstWins(items, cs);
  }

  lemma {:induction false} PromoLinesKeyed(ps: seq<Promotion>, cs: seq<Candidate>)
    requires ps != [] && |cs| == |ps|
    requires forall i :: 0 <= i < |ps| ==> ps[i].id == ps[0].id && cs[i] == PromoLine(ps[i])
    ensures AllKeyed(cs, ps[0].id, None)
    decreases |ps|
  {
    if |ps| > 1 {
      PromoLinesKeyed(ps[..|ps| - 1], cs[..|cs| - 1]);
    } else {
      assert cs[..0] == [];
    }
  }

  /** The first bundle of the catalogue on an empty cart, twice: one line of two at 45.00 each. */
  lemma Pacote1Twice()
    ensures AddLine(AddLine([], PromoLine(Pacote1)), PromoLine(Pacote1))
         == [CartLine("promo1", EsfihaSalgada, "PACOTE 1", 4500, None, 2)]
    ensures Total(AddLine(AddLine([], PromoLine(Pacote1)), PromoLine(Pacote1))) == 9000
  {
    var once := [NewLine(PromoLine(Pacote1))];
    AddLineNew([], PromoLine(Pacote1));
    assert [] + [NewLine(PromoLine(Pacote1))] == once;
    AddLineExisting(once, PromoLine(Pacote1), 0);
    var twice := [CartLine("promo1", EsfihaSalgada, "PACOTE 1", 4500, None, 2)];
    assert twice[..0] == [];
    assert Total(twice) == 9000;
  }
}
