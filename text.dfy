/** String building blocks used by the order messages: decimal rendering of
    integers (template interpolation `${n}`), two-decimal rendering of an
    amount in cents (`Number.prototype.toFixed(2)`), ASCII lower-casing
    (`toLowerCase`), substring search (`includes`) and `join`. */
module Text {
  import opened Common

  predicate IsDigit(c: char) { '0' <= c <= '9' }

  function DigitChar(d: nat): (c: char)
    requires d < 10
    ensures IsDigit(c)
  {
    ('0' as int + d) as char
  }

  function DigitValue(c: char): (d: nat)
    requires IsDigit(c)
    ensures d < 10 && DigitChar(d) == c
  {
    c as int - '0' as int
  }

  predicate AllDigits(s: string) { forall i :: 0 <= i < |s| ==> IsDigit(s[i]) }

  /** Decimal digits of `n`, most significant first, no leading zeros. */
  function NatToString(n: nat): (s: string)
    ensures |s| >= 1 && AllDigits(s)
    ensures |s| > 1 ==> s[0] != '0'
    decreases n
  {
    if n < 10 then [DigitChar(n)] else NatToString(n / 10) + [DigitChar(n % 10)]
  }

  /** Reads a run of decimal digits back into its value. */
  function ParseNat(s: string): (n: nat)
    requires AllDigits(s)
    decreases |s|
  {
    if s == [] then 0 else ParseNat(s[..|s| - 1]) * 10 + DigitValue(s[|s| - 1])
  }

  lemma {:induction false} ParseNatToString(n: nat)
    ensures ParseNat(NatToString(n)) == n
    decreases n
  {
    var s := NatToString(n);
    if n >= 10 {
      ParseNatToString(n / 10);
      assert s[..|s| - 1] == NatToString(n / 10);
    }
  }

  /** `${n}` for an integer `n`: a minus sign before the digits of `|n|`. */
  function IntToString(n: int): (s: string)
    ensures |s| >= 1
  {
    if n < 0 then "-" + NatToString(-n) else NatToString(n)
  }

  /** `(n / 100).toFixed(2)` for an amount of `n` cents, `n >= 0`. */
  function Fixed2Nat(n: nat): string {
    NatToString(n / 100) + "." + [DigitChar(n % 100 / 10), DigitChar(n % 10)]
  }

  /** `(n / 100).toFixed(2)` for an amount of `n` cents. */
  function Fixed2(n: int): string {
    if n < 0 then "-" + Fixed2Nat(-n) else Fixed2Nat(n)
  }

  /** Reads a rendering `[-]digits.dd` back into cents. */
  function ParseFixed2(s: string): Option<int> {
    if |s| >= 1 && s[0] == '-' then
      match ParseFixed2Nat(s[1..])
      case Some(v) => Some(-(v as int))
      case None => None
    else
      match ParseFixed2Nat(s)
      case Some(v) => Some(v)
      case None => None
  }

  /** A rendering `digits.dd` has at least one digit before the point and two after it. */
  predicate Fixed2Shape(s: string) {
    |s| >= 4 && s[|s| - 3] == '.' && AllDigits(s[..|s| - 3]) && AllDigits(s[|s| - 2..])
  }

  function ParseFixed2Nat(s: string): Option<nat> {
    if Fixed2Shape(s)
    then Some(ParseNat(s[..|s| - 3]) * 100 + DigitValue(s[|s| - 2]) * 10 + DigitValue(s[|s| - 1]))
    else None
  }

  /** The two-decimal rendering loses nothing: it reads back to the same cents. */
  lemma RoundTripFixed2Nat(n: nat)
    ensures ParseFixed2Nat(Fixed2Nat(n)) == Some(n)
  {
    var s := Fixed2Nat(n);
    Fixed2NatParts(n);
    ParseNatToString(n / 100);
    assert DigitValue(s[|s| - 2]) == n % 100 / 10 && DigitValue(s[|s| - 1]) == n % 10;
    CentsDigits(n);
  }

  /** The rendering is the whole units, a point, and the two digits of the cents. */
  lemma Fixed2NatParts(n: nat)
    ensures var s := Fixed2Nat(n);
      Fixed2Shape(s) && s[..|s| - 3] == NatToString(n / 100)
      && s[|s| - 2] == DigitChar(n % 100 / 10) && s[|s| - 1] == DigitChar(n % 10)
  {
    var s := Fixed2Nat(n);
    var w := NatToString(n / 100);
    var d1, d0 := DigitChar(n % 100 / 10), DigitChar(n % 10);
    assert s == w + ['.', d1, d0];
    assert s[..|s| - 3] == w;
    assert s[|s| - 2..] == [d1, d0];
  }

  lemma CentsDigits(n: nat)
    ensures n / 100 * 100 + n % 100 / 10 * 10 + n % 10 == n
  {
    var q, r := n / 100, n % 100;
    var t, u := r / 10, r % 10;
    assert n == (q * 10 + t) * 10 + u;
    LastDigit(n, q * 10 + t, u);
  }

  lemma LastDigit(n: int, a: int, b: int)
    requires 0 <= b < 10 && n == a * 10 + b
    ensures n % 10 == b
  {
  }

  /** Any amount, negative ones included, reads back from its rendering. */
  lemma RoundTripFixed2(n: int)
    ensures ParseFixed2(Fixed2(n)) == Some(n)
  {
    if n < 0 {
      RoundTripFixed2Negative(n);
    } else {
      RoundTripFixed2NonNegative(n);
    }
  }

  lemma RoundTripFixed2Negative(n: int)
    requires n < 0
    ensures ParseFixed2(Fixed2(n)) == Some(n)
  {
    var t := Fixed2Nat(-n);
    assert Fixed2(n) == "-" + t;
    RoundTripFixed2Nat(-n);
    ParseFixed2Minus(t);
  }

  lemma RoundTripFixed2NonNegative(n: int)
    requires n >= 0
    ensures ParseFixed2(Fixed2(n)) == Some(n)
  {
    var t := Fixed2Nat(n);
    assert Fixed2(n) == t;
    RoundTripFixed2Nat(n);
    Fixed2NatLeadingDigit(n);
    ParseFixed2Plain(t);
  }

  lemma Fixed2NatLeadingDigit(n: nat)
    ensures IsDigit(Fixed2Nat(n)[0])
  {
    assert Fixed2Nat(n)[0] == NatToString(n / 100)[0];
  }

  lemma ParseFixed2Minus(t: string)
    requires ParseFixed2Nat(t).Some?
    ensures ParseFixed2("-" + t) == Some(-(ParseFixed2Nat(t).value as int))
  {
    assert ("-" + t)[1..] == t;
  }

  lemma ParseFixed2Plain(t: string)
    requires ParseFixed2Nat(t).Some? && |t| >= 1 && t[0] != '-'
    ensures ParseFixed2(t) == Some(ParseFixed2Nat(t).value as int)
  {
  }

  /** ASCII `toLowerCase` of one character; other characters are unchanged. */
  function LowerChar(c: char): (d: char)
    ensures 'A' <= c <= 'Z' ==> d as int == c as int + 32
    ensures !('A' <= c <= 'Z') ==> d == c
  {
    if 'A' <= c <= 'Z' then (c as int + 32) as char else c
  }

  function Lower(s: string): (r: string)
    ensures |r| == |s|
    ensures forall i :: 0 <= i < |s| ==> r[i] == LowerChar(s[i])
  {
    seq(|s|, i requires 0 <= i < |s| => LowerChar(s[i]))
  }

  predicate IsUpper(c: char) {
    'A' <= c <= 'Z'
  }

  /** After `toLowerCase` no ASCII capital is left. */
  lemma LowerHasNoCapitals(s: string)
    ensures forall i :: 0 <= i < |Lower(s)| ==> !IsUpper(Lower(s)[i])
  {
  }

  /** Lower-casing an already lower-cased text changes nothing. */
  lemma LowerIdempotent(s: string)
    ensures Lower(Lower(s)) == Lower(s)
  {
    LowerHasNoCapitals(s);
  }

  /** Texts that differ only in the case of their ASCII letters lower-case alike. */
  lemma LowerIgnoresCase(s: string, t: string)
    requires |s| == |t|
    requires forall i :: 0 <= i < |s| ==> s[i] == t[i] || LowerChar(s[i]) == t[i] || s[i] == LowerChar(t[i])
    ensures Lower(s) == Lower(t)
  {
  }

  /** `s.startsWith(p)` */
  predicate StartsWith(s: string, p: string) {
    |p| <= |s| && s[..|p|] == p
  }

  /** `s.includes(t)`: `t` occurs at some position of `s`. */
  predicate Contains(s: string, t: string) {
    exists k :: 0 <= k <= |s| - |t| && OccursAt(s, t, k)
  }

  predicate OccursAt(s: string, t: string, k: int)
    requires 0 <= k <= |s| - |t|
  {
    s[k..k + |t|] == t
  }

  lemma ContainsEmpty(s: string)
    ensures Contains(s, "")
  {
    assert OccursAt(s, "", 0);
  }

  /** Any string contains whatever stands between a given prefix and suffix. */
  lemma {:induction false} ContainsMiddle(a: string, t: string, b: string)
    ensures Contains(a + t + b, t)
  {
    var s := a + t + b;
    assert OccursAt(s, t, |a|);
  }

  /** `xs.join("\n")` */
  function JoinLines(xs: seq<string>): (r: string)
    ensures xs == [] ==> r == ""
    ensures |xs| == 1 ==> r == xs[0]
    decreases |xs|
  {
    if xs == [] then ""
    else if |xs| == 1 then xs[0]
    else xs[0] + "\n" + JoinLines(xs[1..])
  }

  /** Appending one more element to a join adds one separator and that element. */
  lemma {:induction false} JoinLinesSnoc(xs: seq<string>, y: string)
    requires xs != []
    ensures JoinLines(xs + [y]) == JoinLines(xs) + "\n" + y
    decreases |xs|
  {
    if |xs| == 1 {
      assert xs + [y] == [xs[0], y];
      assert [xs[0], y][1..] == [y];
    } else {
      assert (xs + [y])[1..] == xs[1..] + [y];
      JoinLinesSnoc(xs[1..], y);
    }
  }
}
