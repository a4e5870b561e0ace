/** The few JavaScript string conversions the plugin relies on:
    `String.prototype.toUpperCase`, `Array.prototype.join`, the regular
    expression `.` class, and the conversion of a number inside a template
    literal. */
module JsText {

  /** The characters `.` in a JavaScript regular expression does not match. */
  predicate IsLineTerminator(c: char) {
    c == '\n' || c == '\r' || c == '\U{2028}' || c == '\U{2029}'
  }

  /** Upper-casing of one character, restricted to ASCII letters. */
  function UpperChar(c: char): (u: char)
    ensures 'a' <= c <= 'z' ==> 'A' <= u <= 'Z' && u as int == c as int - 32
    ensures !('a' <= c <= 'z') ==> u == c
  {
    if 'a' <= c <= 'z' then (c as int - 32) as char else c
  }

  function Upper(s: string): (r: string)
    ensures |r| == |s|
    ensures forall i :: 0 <= i < |s| ==> r[i] == UpperChar(s[i])
  {
    seq(|s|, i requires 0 <= i < |s| => UpperChar(s[i]))
  }

  lemma UpperIdempotent(s: string)
    ensures Upper(Upper(s)) == Upper(s)
  {
  }

  lemma UpperAppend(a: string, b: string)
    ensures Upper(a + b) == Upper(a) + Upper(b)
  {
    assert forall i :: 0 <= i < |a + b| ==> Upper(a + b)[i] == (Upper(a) + Upper(b))[i];
  }

  /** `parts.join(sep)`. */
  function Join(parts: seq<string>, sep: string): (r: string)
    ensures parts == [] ==> r == ""
    ensures |parts| == 1 ==> r == parts[0]
  {
    if parts == [] then ""
    else if |parts| == 1 then parts[0]
    else parts[0] + sep + Join(parts[1..], sep)
  }

  function DigitChar(d: nat): (c: char)
    requires d < 10
    ensures '0' <= c <= '9'
  {
    ('0' as int + d) as char
  }

  /** Decimal text of a natural number, as JavaScript prints it. */
  function NatText(n: nat): (r: string)
    ensures |r| > 0
    ensures forall i :: 0 <= i < |r| ==> '0' <= r[i] <= '9'
    decreases n
  {
    if n < 10 then [DigitChar(n)] else NatText(n / 10) + [DigitChar(n % 10)]
  }

  function IntText(n: int): (r: string)
    ensures |r| > 0
    ensures forall i :: 0 <= i < |r| ==> r[i] == '-' || '0' <= r[i] <= '9'
    ensures n < 0 <==> r[0] == '-'
  {
    if n < 0 then "-" + NatText(-n) else NatText(n)
  }

  /** `x * 10^k`. */
  function Shift(x: real, k: nat): (y: real)
    ensures x >= 0.0 ==> y >= 0.0
    ensures x < 0.0 ==> y < 0.0
  {
    if k == 0 then x else 10.0 * Shift(x, k - 1)
  }

  /** The last `k` decimal digits of `f`, left-padded with zeros to `k` digits. */
  function PaddedDigits(f: nat, k: nat): (r: string)
    ensures |r| == k
    ensures k > 0 ==> r[k - 1] == DigitChar(f % 10)
    decreases k
  {
    if k == 0 then "" else PaddedDigits(f / 10, k - 1) + [DigitChar(f % 10)]
  }

  /** `y` has no fractional part. */
  predicate IsWhole(y: real) {
    y.Floor as real == y
  }

  /** The smallest `k <= 20` with `x * 10^k` integral, or 20. */
  function DecimalPlaces(x: real, k: nat): (r: nat)
    requires k <= 20
    ensures k <= r <= 20
    ensures forall j :: k <= j < r ==> !IsWhole(Shift(x, j))
    ensures r < 20 ==> IsWhole(Shift(x, r))
    decreases 20 - k
  {
    if IsWhole(Shift(x, k)) || k == 20 then k else DecimalPlaces(x, k + 1)
  }

  /** `(a * 10^k)` rounded down, for a non-negative `a`. */
  function Scaled(a: real, k: nat): (n: nat)
    requires a >= 0.0
  {
    Shift(a, k).Floor
  }

  /** `n` with its last `k` decimal digits dropped. */
  function WholePart(n: nat, k: nat): nat
    decreases k
  {
    if k == 0 then n else WholePart(n / 10, k - 1)
  }

  /** Digits of a non-negative number `a` with `k` fractional places: the
      point sits `k` places from the end, the last digit is the last digit
      of `a * 10^k`. */
  function UnsignedText(a: real, k: nat): (r: string)
    requires a >= 0.0
    ensures |r| > k
    ensures k > 0 ==> r[|r| - k - 1] == '.' && r[|r| - 1] == DigitChar(Scaled(a, k) % 10)
    ensures k == 0 ==> '.' !in r
  {
    var scaled := Scaled(a, k);
    NatText(WholePart(scaled, k)) + (if k == 0 then "" else "." + PaddedDigits(scaled, k))
  }

  /** `${x}` for a number `x`: integers print without a fraction, other
      numbers print their decimal digits with no trailing zeros.  Numbers
      with more than 20 fractional digits are cut after the 20th. */
  function NumberText(x: real): (r: string)
    ensures |r| > 0
    ensures IsWhole(x) ==> r == IntText(x.Floor)
    ensures IsWhole(x) <==> '.' !in r
  {
    if IsWhole(x) then IntText(x.Floor)
    else
      var a := if x < 0.0 then -x else x;
      WholeNegate(x);
      var k := DecimalPlaces(a, 0);
      var digits := UnsignedText(a, k);
      var r := if x < 0.0 then "-" + digits else digits;
      assert r[|r| - k - 1] == '.';
      r
  }

  lemma {:induction false} ShiftNegate(x: real, k: nat)
    ensures Shift(-x, k) == -Shift(x, k)
  {
    if k > 0 {
      ShiftNegate(x, k - 1);
    }
  }

  lemma WholeNegate(y: real)
    ensures IsWhole(-y) <==> IsWhole(y)
  {
    if IsWhole(y) {
      assert -y == (-y.Floor) as real;
    }
    if IsWhole(-y) {
      assert y == (-(-y).Floor) as real;
    }
  }

  /** A whole multiple of ten, divided by ten, is whole. */
  lemma WholeTenth(y: real)
    requires IsWhole(10.0 * y)
    ensures (10.0 * y).Floor % 10 == 0 ==> IsWhole(y)
  {
    var n := (10.0 * y).Floor;
    if n % 10 == 0 {
      assert y == (n / 10) as real;
    }
  }

  /** A number that is not whole but has at most 20 fractional digits
      prints without a trailing zero. */
  lemma NoTrailingZero(x: real)
    requires !IsWhole(x) && IsWhole(Shift(x, 20))
    ensures var r := NumberText(x); '1' <= r[|r| - 1] <= '9'
  {
    var a := if x < 0.0 then -x else x;
    if x < 0.0 {
      ShiftNegate(x, 20);
      WholeNegate(x);
      WholeNegate(Shift(x, 20));
    }
    var k := DecimalPlaces(a, 0);
    assert k >= 1;
    assert IsWhole(Shift(a, k));
    var scaled := Scaled(a, k);
    assert Shift(a, k) == 10.0 * Shift(a, k - 1);
    WholeTenth(Shift(a, k - 1));
    var digits := UnsignedText(a, k);
    var r := NumberText(x);
    assert r == (if x < 0.0 then "-" + digits else digits);
    assert r[|r| - 1] == digits[|digits| - 1] == DigitChar(scaled % 10);
  }

  lemma NumberTextFractionExample()
    ensures NumberText(2.5) == "2.5"
  {
    assert DigitChar(2) == '2' && DigitChar(5) == '5';
    assert Shift(2.5, 1) == 25.0;
    assert !IsWhole(2.5) && IsWhole(25.0);
    assert DecimalPlaces(2.5, 0) == 1;
    assert Scaled(2.5, 1) == 25;
  }

  lemma NumberTextNegativeExample()
    ensures NumberText(-0.25) == "-0.25"
  {
    assert DigitChar(0) == '0' && DigitChar(2) == '2' && DigitChar(5) == '5';
    assert Shift(0.25, 1) == 2.5 && Shift(0.25, 2) == 25.0;
    assert !IsWhole(-0.25) && !IsWhole(0.25) && !IsWhole(2.5) && IsWhole(25.0);
    assert DecimalPlaces(0.25, 0) == 2;
    assert Scaled(0.25, 2) == 25;
    assert PaddedDigits(25, 2) == "25";
  }
}
