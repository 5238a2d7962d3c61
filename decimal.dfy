/** The amount text as a number: Kotlin's `toDoubleOrNull`, read as an exact decimal on the
    plain decimal notation (an optional sign, digits, at most one '.'), returning `None`
    where the text is not a number. */
module DecimalAmount {
  import opened Base
  import opened AmountPatterns

  /** The number `mantissa / 10^scale`, kept exact. */
  datatype Decimal = Decimal(mantissa: int, scale: nat)

  /** `0.0`, the amount saved when the text is missing or not a number. */
  const Zero: Decimal := Decimal(0, 0)

  predicate AllDigits(d: string) {
    forall i :: 0 <= i < |d| ==> IsDigit(d[i])
  }

  predicate HasNonzeroDigit(g: string) {
    exists i :: 0 <= i < |g| && IsDigit(g[i]) && g[i] != '0'
  }

  function DigitValue(c: char): nat
    requires IsDigit(c)
  {
    c as int - '0' as int
  }

  /** The value of a string of decimal digits. */
  function DigitsValue(d: string): nat
    requires AllDigits(d)
    decreases |d|
  {
    if d == [] then 0 else 10 * DigitsValue(d[..|d| - 1]) + DigitValue(d[|d| - 1])
  }

  function Pow10(n: nat): (r: nat)
    ensures r > 0
  {
    if n == 0 then 1 else 10 * Pow10(n - 1)
  }

  /** One more digit on the right: ten times the value, plus the digit. */
  lemma DigitsValueSnoc(d: string, c: char)
    requires AllDigits(d) && IsDigit(c)
    ensures AllDigits(d + [c])
    ensures DigitsValue(d + [c]) == 10 * DigitsValue(d) + DigitValue(c)
  {
    assert (d + [c])[..|d|] == d;
  }

  lemma ShiftArithmetic(x: int, p: int, y: int, e: int)
    ensures 10 * (x * p + y) + e == x * (10 * p) + (10 * y + e)
  {
  }

  /** Writing the digits `b` after the digits `a` shifts `a` by `|b|` places. */
  lemma {:induction false} DigitsValueAppend(a: string, b: string)
    requires AllDigits(a) && AllDigits(b)
    ensures AllDigits(a + b)
    ensures DigitsValue(a + b) == DigitsValue(a) * Pow10(|b|) + DigitsValue(b)
    decreases |b|
  {
    if b == [] {
      assert a + b == a;
    } else {
      var init, last := b[..|b| - 1], b[|b| - 1];
      assert b == init + [last];
      assert a + b == (a + init) + [last];
      DigitsValueAppend(a, init);
      DigitsValueSnoc(a + init, last);
      DigitsValueSnoc(init, last);
      ShiftArithmetic(DigitsValue(a), Pow10(|init|), DigitsValue(init), DigitValue(last));
    }
  }

  /** A digit string stands for a positive number exactly when one of its digits is not 0. */
  lemma {:induction false} DigitsValuePositive(d: string)
    requires AllDigits(d)
    ensures DigitsValue(d) > 0 <==> HasNonzeroDigit(d)
    decreases |d|
  {
    if d != [] {
      var init := d[..|d| - 1];
      DigitsValuePositive(init);
      if HasNonzeroDigit(init) {
        var i :| 0 <= i < |init| && IsDigit(init[i]) && init[i] != '0';
        assert d[i] == init[i];
      }
      if HasNonzeroDigit(d) {
        var i :| 0 <= i < |d| && IsDigit(d[i]) && d[i] != '0';
        if i < |d| - 1 {
          assert init[i] == d[i];
        }
      }
    }
  }

  /** The index of the first '.' at or after `k`, or the length of `b` if there is none. */
  function FirstDot(b: string, k: nat): (r: nat)
    requires k <= |b|
    ensures k <= r <= |b|
    ensures r < |b| ==> b[r] == '.'
    ensures forall i :: k <= i < r ==> b[i] != '.'
    decreases |b| - k
  {
    if k == |b| || b[k] == '.' then k else FirstDot(b, k + 1)
  }

  /** The digits before the first '.', and those after it. */
  function WholePart(b: string): string {
    b[..FirstDot(b, 0)]
  }

  function FractionPart(b: string): string {
    var k := FirstDot(b, 0);
    if k < |b| then b[k + 1..] else ""
  }

  /** Unsigned decimal notation: digits, optionally a '.' and more digits, at least one
      digit in all. */
  function ParseUnsigned(b: string): (r: Option<Decimal>)
    ensures r.Some? ==> r.value.mantissa >= 0
  {
    var whole, frac := WholePart(b), FractionPart(b);
    if AllDigits(whole) && AllDigits(frac) && |whole| + |frac| > 0
    then Some(Decimal(DigitsValue(whole + frac), |frac|))
    else None
  }

  /** What unsigned notation converts to: the whole digits shifted past the fraction digits,
      plus the fraction digits, over ten to the number of fraction digits. */
  lemma ParseUnsignedValue(b: string)
    ensures ParseUnsigned(b).Some? ==>
              && AllDigits(WholePart(b)) && AllDigits(FractionPart(b))
              && ParseUnsigned(b).value ==
                   Decimal(DigitsValue(WholePart(b)) * Pow10(|FractionPart(b)|) +
                           DigitsValue(FractionPart(b)), |FractionPart(b)|)
  {
    if ParseUnsigned(b).Some? {
      DigitsValueAppend(WholePart(b), FractionPart(b));
    }
  }

  /** `toDoubleOrNull` on plain decimal notation with an optional leading sign. */
  function ParseAmount(s: string): (r: Option<Decimal>)
    ensures s == "" ==> r.None?
    ensures r.Some? && r.value.mantissa < 0 ==> s[0] == '-'
  {
    if |s| > 0 && (s[0] == '+' || s[0] == '-') then
      match ParseUnsigned(s[1..])
      case None => None
      case Some(d) => Some(if s[0] == '-' then Decimal(-d.mantissa, d.scale) else d)
    else
      ParseUnsigned(s)
  }

  /** An amount-shaped text splits at its '.' into two digit strings, the first not empty. */
  lemma ShapeParts(g: string)
    requires AmountShape(g)
    ensures AllDigits(WholePart(g)) && AllDigits(FractionPart(g)) && |WholePart(g)| > 0
  {
    var k := FirstDot(g, 0);
    assert forall i :: 0 <= i < k ==> WholePart(g)[i] == g[i];
    if k < |g| {
      assert forall i :: 0 <= i < |FractionPart(g)| ==> FractionPart(g)[i] == g[k + 1 + i];
    }
  }

  /** Dropping the '.' keeps exactly the digits. */
  lemma ShapeDigits(g: string)
    requires AmountShape(g)
    ensures HasNonzeroDigit(WholePart(g) + FractionPart(g)) <==> HasNonzeroDigit(g)
  {
    var k := FirstDot(g, 0);
    var digits := WholePart(g) + FractionPart(g);
    assert forall i :: 0 <= i < k ==> digits[i] == g[i];
    assert forall i :: k <= i < |digits| ==> digits[i] == g[i + 1];
    if HasNonzeroDigit(g) {
      var i :| 0 <= i < |g| && IsDigit(g[i]) && g[i] != '0';
      if i < k {
        assert digits[i] == g[i];
      } else {
        assert digits[i - 1] == g[i];
      }
    }
    if HasNonzeroDigit(digits) {
      var i :| 0 <= i < |digits| && IsDigit(digits[i]) && digits[i] != '0';
      if i < k {
        assert g[i] == digits[i];
      } else {
        assert g[i + 1] == digits[i];
      }
    }
  }

  /** Text that the amount patterns capture always converts: the result is never negative,
      it is positive exactly when some digit is not 0, and its scale is the number of
      digits after the '.'. */
  lemma ParseAmountShape(g: string)
    requires AmountShape(g)
    ensures ParseAmount(g).Some?
    ensures ParseAmount(g).value.mantissa >= 0
    ensures ParseAmount(g).value.mantissa > 0 <==> HasNonzeroDigit(g)
    ensures ParseAmount(g).value.scale == |FractionPart(g)|
    ensures ParseAmount(g).value.mantissa ==
              DigitsValue(WholePart(g)) * Pow10(|FractionPart(g)|) + DigitsValue(FractionPart(g))
  {
    ShapeParts(g);
    ParseUnsignedValue(g);
    ShapeDigits(g);
    DigitsValuePositive(WholePart(g) + FractionPart(g));
  }

  lemma ParseAmountExamples()
    ensures ParseAmount("88.00") == Some(Decimal(8800, 2))
    ensures ParseAmount("-3.5") == Some(Decimal(-35, 1))
  {
    assert FirstDot("88.00", 0) == 2;
    assert WholePart("88.00") == "88" && FractionPart("88.00") == "00";
    assert DigitsValue("88") == 88;
    assert DigitsValue("8800") == 8800 by {
      assert "8800"[..3] == "880" && "880"[..2] == "88";
    }
    assert "88" + "00" == "8800";
    assert "-3.5"[1..] == "3.5";
    assert FirstDot("3.5", 0) == 1;
    assert WholePart("3.5") == "3" && FractionPart("3.5") == "5";
    assert "3" + "5" == "35";
    assert DigitsValue("35") == 35 by { assert "35"[..1] == "3"; }
  }

  /** A lone '.' and a trailing letter are not numbers. */
  lemma ParseAmountRejects()
    ensures ParseAmount(".") == None
    ensures ParseAmount("12a") == None
  {
    assert FirstDot(".", 0) == 0;
    assert WholePart(".") == "" && FractionPart(".") == "";
    assert FirstDot("12a", 0) == 3;
    assert !AllDigits(WholePart("12a")) by { assert WholePart("12a")[2] == 'a'; }
  }
}
