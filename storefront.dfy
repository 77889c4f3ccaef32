/** The pure helpers of the storefront page (src/components/PizzariaApp.tsx):
    the opening-hours rule `isOpen`, the menu search `filterItems`, and the
    cart badge number `cartCount`. The clock is not read here: the weekday
    and hour that `new Date()` would give are parameters. */
module Storefront {
  import opened Common
  import opened Text
  import opened Menu
  import opened CartEngine

  /** `Date.prototype.getDay()`: 0 is Sunday, 6 is Saturday. */
  type Weekday = d: int | 0 <= d <= 6

  /** `Date.prototype.getHours()` */
  type Hour = h: int | 0 <= h <= 23

  /** The branches of `isOpen`, in the order the code tests them. */
  function IsOpen(day: Weekday, hour: Hour): bool {
    if 1 <= day <= 4 then hour >= 18 && hour < 24
    else if day == 5 || day == 6 then hour >= 18 || hour < 1
    else hour >= 18 && hour < 24
  }

  /** A row of the weekly schedule: the weekdays it covers and the hours they are open. */
  datatype Rule = Rule(days: set<int>, hours: set<int>)

  const Evening: set<int> := {18, 19, 20, 21, 22, 23}

  /** The weekly schedule written as data: Monday to Thursday the evening;
      Friday and Saturday the evening and the hour after midnight that starts
      the same calendar day; Sunday the evening only. */
  const Schedule: seq<Rule> := [
    Rule({1, 2, 3, 4}, Evening),
    Rule({5, 6}, Evening + {0}),
    Rule({0}, Evening)
  ]

  predicate OpenBySchedule(day: Weekday, hour: Hour) {
    exists i :: 0 <= i < |Schedule| && day in Schedule[i].days && hour in Schedule[i].hours
  }

  /** The branching code and the schedule table agree on every weekday and hour. */
  lemma IsOpenMatchesSchedule(day: Weekday, hour: Hour)
    ensures IsOpen(day, hour) <==> OpenBySchedule(day, hour)
  {
    var row := if 1 <= day <= 4 then 0 else if day == 5 || day == 6 then 1 else 2;
    assert day in Schedule[row].days;
    forall i | 0 <= i < |Schedule| && day in Schedule[i].days
      ensures i == row
    {
    }
    if IsOpen(day, hour) {
      assert hour in Schedule[row].hours;
    }
  }

  /** Monday to Thursday: open exactly from 18:00 on. */
  lemma IsOpenMondayToThursday(day: Weekday, hour: Hour)
    requires 1 <= day <= 4
    ensures IsOpen(day, hour) <==> hour >= 18
  {
  }

  /** Friday and Saturday: open from 18:00 on and during the hour after midnight. */
  lemma IsOpenFridaySaturday(day: Weekday, hour: Hour)
    requires day == 5 || day == 6
    ensures IsOpen(day, hour) <==> hour >= 18 || hour == 0
  {
  }

  /** Sunday follows its own rule: open from 18:00 on, and closed after midnight. */
  lemma IsOpenSunday(hour: Hour)
    ensures IsOpen(0, hour) <==> hour >= 18
  {
  }

  /** The moment `new Date()` would return, down to the second. */
  datatype Moment = Moment(day: Weekday, hour: Hour, minute: nat, second: nat)

  function IsOpenAt(m: Moment): bool {
    IsOpen(m.day, m.hour)
  }

  /** A note on the abstraction rather than a property of `isOpen`: the clock is
      read only through `getDay()` and `getHours()`, so `IsOpenAt` keeps the
      minutes and seconds of `Moment` out of the decision by construction. */
  lemma IsOpenAtIgnoresMinutes(m: Moment, n: Moment)
    requires m.day == n.day && m.hour == n.hour
    ensures IsOpenAt(m) == IsOpenAt(n)
  {
  }

  /** The boundary scenarios of the schedule (Tuesday is 2, Wednesday 3, Friday 5, Saturday 6, Sunday 0). */
  lemma ScheduleBoundaries()
    ensures !IsOpenAt(Moment(2, 17, 59, 0))
    ensures IsOpenAt(Moment(2, 18, 0, 0))
    ensures IsOpenAt(Moment(2, 23, 59, 0))
    ensures !IsOpenAt(Moment(3, 0, 0, 0))
    ensures IsOpenAt(Moment(5, 23, 30, 0))
    ensures IsOpenAt(Moment(6, 0, 30, 0))
    ensures !IsOpenAt(Moment(0, 0, 30, 0))
  {
  }

  // ---------------------------------------------------------------------------
  // Search

  /** The test of `filterItems`: the lower-cased name contains the lower-cased term. */
  function NameMatches(term: string): MenuItem -> bool {
    (item: MenuItem) => Contains(Lower(item.name), Lower(term))
  }

  /** `filterItems(items)` with the current search term. */
  function FilterItems(items: seq<MenuItem>, term: string): (r: seq<MenuItem>)
    ensures forall i :: 0 <= i < |r| ==> r[i] in items && Contains(Lower(r[i].name), Lower(term))
    ensures forall i :: 0 <= i < |items| && Contains(Lower(items[i].name), Lower(term)) ==> items[i] in r
  {
    Filter(items, NameMatches(term))
  }

  /** The search keeps the items in menu order. */
  lemma FilterItemsInOrder(items: seq<MenuItem>, term: string)
    ensures IsSubsequence(FilterItems(items, term), items)
  {
    FilterIsSubsequence(items, NameMatches(term));
  }

  /** An empty search term shows the whole list. */
  lemma FilterItemsEmptyTerm(items: seq<MenuItem>)
    ensures FilterItems(items, "") == items
  {
    assert Lower("") == "";
    forall i | 0 <= i < |items|
      ensures NameMatches("")(items[i])
    {
      ContainsEmpty(Lower(items[i].name));
    }
    FilterAllKept(items, NameMatches(""));
  }

  /** The search lower-cases the term itself, so typing it in lower case finds
      the same items. */
  lemma FilterItemsLowerTerm(items: seq<MenuItem>, term: string)
    ensures FilterItems(items, term) == FilterItems(items, Lower(term))
  {
    LowerIdempotent(term);
    assert NameMatches(term) == NameMatches(Lower(term));
  }

  /** Terms that differ only in the case of some letters find the same items. */
  lemma FilterItemsCaseInsensitive(items: seq<MenuItem>, term: string, term': string)
    requires |term| == |term'|
    requires forall i :: 0 <= i < |term| ==> term[i] == term'[i] || LowerChar(term[i]) == term'[i] || term[i] == LowerChar(term'[i])
    ensures FilterItems(items, term) == FilterItems(items, term')
  {
    LowerIgnoresCase(term, term');
    assert NameMatches(term) == NameMatches(term');
  }

  // ---------------------------------------------------------------------------
  // Cart badge

  function Quantity(l: CartLine): int {
    l.quantity
  }

  /** `cart.items.reduce((sum, item) => sum + item.quantity, 0)` */
  function CartCount(items: seq<CartLine>): int {
    SumBy(items, Quantity)
  }

  lemma CartCountEmpty()
    ensures CartCount([]) == 0
  {
  }

  /** Every `addItem` raises the badge by exactly one. */
  lemma CartCountAddLine(items: seq<CartLine>, c: Candidate)
    requires UniqueKeys(items)
    ensures CartCount(AddLine(items, c)) == CartCount(items) + 1
  {
    if HasLine(items, c.id, c.size) {
      var k :| 0 <= k < |items| && Matches(items[k], c.id, c.size);
      AddLineExisting(items, c, k);
      SumByUpdate(items, k, items[k].(quantity := items[k].quantity + 1), Quantity);
    } else {
      AddLineNew(items, c);
      SumByAppend(items, [NewLine(c)], Quantity);
      SumBySingleton(NewLine(c), Quantity);
    }
  }

  /** In a cart whose quantities are positive the badge is at least the number of lines. */
  lemma {:induction false} CartCountAtLeastLines(items: seq<CartLine>)
    requires PositiveQuantities(items)
    ensures CartCount(items) >= |items|
    decreases |items|
  {
    if items != [] {
      CartCountAtLeastLines(items[..|items| - 1]);
    }
  }

  /** For a valid cart, the two badge conditions of the page (`items.length > 0`
      and `cartCount > 0`) agree. */
  lemma CartCountPositiveIff(items: seq<CartLine>)
    requires PositiveQuantities(items)
    ensures CartCount(items) > 0 <==> items != []
  {
    CartCountAtLeastLines(items);
  }
}
