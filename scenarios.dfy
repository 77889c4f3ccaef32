/** A worked order across the modules: two large calabresas and a coke. */
module Scenarios {
  import opened Common
  import opened Text
  import opened Menu
  import opened CartEngine
  import opened Storefront
  import opened Checkout
  import opened MenuSection

  const Grande2Coke := [
    CartLine("calabresa", PizzaSalgada, "CALABRESA", 4499, Some(Grande), 2),
    CartLine("coca", Bebida, "COCA-COLA", 800, None, 1)
  ]

  /** Two clicks on the large calabresa and one on the coke build the cart above. */
  lemma CalabresaAndCokeCart()
    ensures AddAll([], [ItemCandidate(PizzaSalgada, MenuEntry(Calabresa), Some(Grande)),
                        ItemCandidate(PizzaSalgada, MenuEntry(Calabresa), Some(Grande)),
                        ItemCandidate(Bebida, MenuEntry(Coca), None)]) == Grande2Coke
  {
    var p := ItemCandidate(PizzaSalgada, MenuEntry(Calabresa), Some(Grande));
    var c := ItemCandidate(Bebida, MenuEntry(Coca), None);
    var cs := [p, p, c];
    assert cs[..2][..1][..0] == [];
    assert cs[..2][..1] == [p];
    assert cs[..2] == [p, p];
    var one := [NewLine(p)];
    assert AddAll([], [p]) == one by {
      AddLineNew([], p);
      assert [] + [NewLine(p)] == one;
    }
    AddLineExisting(one, p, 0);
    var two := [NewLine(p).(quantity := 2)];
    assert AddAll([], [p, p]) == two;
    assert !HasLine(two, c.id, c.size);
    AddLineNew(two, c);
  }

  lemma SumByPair<T>(a: T, b: T, f: T -> int)
    ensures SumBy([a, b], f) == f(a) + f(b)
  {
    assert [a, b][..1] == [a];
    SumBySingleton(a, f);
  }

  /** The badge counts 3 and the total is 97.98. */
  lemma CalabresaAndCokeSums()
    ensures CartCount(Grande2Coke) == 3
    ensures Total(Grande2Coke) == 9798
  {
    SumByPair(Grande2Coke[0], Grande2Coke[1], Quantity);
    SumByPair(Grande2Coke[0], Grande2Coke[1], LineTotal);
  }

  /** The order text states the total as 97.98. */
  lemma CalabresaAndCokeTotalText()
    ensures TotalLine(Grande2Coke) == "Total: R$ 97.98"
  {
    CalabresaAndCokeSums();
    assert NatToString(97) == "97" by {
      assert NatToString(9) == "9";
    }
    assert DigitChar(9) == '9' && DigitChar(8) == '8';
    assert Fixed2(9798) == "97.98";
  }

  /** The coke's order line has no size and is priced at 8.00. */
  lemma CokeLineText()
    ensures OrderItemLine(Grande2Coke[1]) == "1x COCA-COLA - R$ 8.00"
  {
    var l := Grande2Coke[1];
    assert l.size == None && l.name == "COCA-COLA" && LineTotal(l) == 800;
    assert IntToString(1) == "1" by {
      assert NatToString(1) == "1";
    }
    assert Fixed2(800) == "8.00" by {
      assert NatToString(8) == "8";
      assert DigitChar(0) == '0';
    }
  }
}
