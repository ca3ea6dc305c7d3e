/** Money as the checkout handles it: `to_money` quantizes a decimal value to
    cents with ROUND_HALF_UP, and `money_as_text` renders cents with two
    decimals. Amounts that are already cents are plain integers. */
module Money {
  import opened Wrappers
  import opened Text

  /** The decimal number units / 10^scale (a Python Decimal). */
  datatype Decimal = Decimal(units: int, scale: nat)

  function Pow10(n: nat): (r: nat)
    ensures r >= 1
  {
    if n == 0 then 1 else 10 * Pow10(n - 1)
  }

  function Abs(x: int): nat
  {
    if x < 0 then -x else x
  }

  /** `c * q` is a nearest multiple of `q` to `units`, and on a tie the one
      farther from zero: the meaning of ROUND_HALF_UP. */
  predicate RoundsHalfUp(units: int, q: nat, c: int)
  {
    2 * Abs(units - c * q) < q
    || (2 * Abs(units - c * q) == q && Abs(c * q) > Abs(units))
  }

  /** Python's to_money: Decimal(value).quantize(Decimal("0.01"), ROUND_HALF_UP),
      giving the result in cents. */
  function ToMoney(d: Decimal): (cents: int)
    ensures d.scale <= 2 ==> cents == d.units * Pow10(2 - d.scale)
    ensures d.scale > 2 ==> RoundsHalfUp(d.units, Pow10(d.scale - 2), cents)
  {
    if d.scale <= 2 then d.units * Pow10(2 - d.scale)
    else
      var q := Pow10(d.scale - 2);
      var a := Abs(d.units);
      var c := a / q + (if 2 * (a % q) >= q then 1 else 0);
      HalfUpMagnitude(a, q);
      NegatedRounding(a, q, c);
      if d.units < 0 then -c else c
  }

  lemma HalfUpMagnitude(a: nat, q: nat)
    requires q >= 1
    ensures RoundsHalfUp(a, q, a / q + (if 2 * (a % q) >= q then 1 else 0))
  {
    var k, r := a / q, a % q;
    assert a == k * q + r && 0 <= r < q;
    assert k >= 0;
    if 2 * r >= q {
      assert (k + 1) * q == k * q + q;
      assert a - (k + 1) * q == r - q;
      assert (k + 1) * q >= 0;
    } else {
      assert a - k * q == r;
    }
  }

  lemma NegatedRounding(a: nat, q: nat, c: int)
    requires RoundsHalfUp(a, q, c)
    ensures RoundsHalfUp(-(a as int), q, -c)
  {
    assert (-c) * q == -(c * q);
  }

  /** A non-zero multiple of q is at least q away from zero. */
  lemma MultipleSize(d: int, q: int)
    requires q >= 1
    ensures d >= 1 ==> d * q >= q
    ensures d <= -1 ==> d * q <= -q
  {
    if d >= 1 {
      assert d * q == (d - 1) * q + q;
    } else if d <= -1 {
      assert d * q == (d + 1) * q - q;
    }
  }

  /** ROUND_HALF_UP picks exactly one multiple: ToMoney is the only rounding
      with the property its contract states. */
  lemma RoundsHalfUpUnique(units: int, q: nat, c1: int, c2: int)
    requires q >= 1
    requires RoundsHalfUp(units, q, c1) && RoundsHalfUp(units, q, c2)
    ensures c1 == c2
  {
    MultipleSize(c2 - c1, q);
    MultipleSize(c1, q);
    MultipleSize(c2, q);
    assert (c2 - c1) * q == c2 * q - c1 * q;
  }

  /** A value that is already in cents is unchanged by to_money. */
  lemma ToMoneyOfCents(c: int)
    ensures ToMoney(Decimal(c, 2)) == c
  {
  }

  /** The order total: to_money(to_money(subtotal) + to_money(shipping)) is the
      sum of the two rounded amounts, since a sum of cents needs no rounding. */
  function OrderTotal(subtotalCents: int, shippingFee: Decimal): (total: int)
    ensures total == subtotalCents + ToMoney(shippingFee)
  {
    ToMoney(Decimal(ToMoney(Decimal(subtotalCents, 2)) + ToMoney(shippingFee), 2))
  }

  /** Python's format(value, ".2f") for a value in cents: a minus sign
      exactly for a negative amount, then digits, a point and two digits. */
  function MoneyText(cents: int): (s: string)
    ensures |s| >= 4
    ensures s[0] == '-' <==> cents < 0
    ensures s[|s| - 3] == '.' && IsDigits(s[|s| - 2..])
  {
    var a := Abs(cents);
    PointShape(NatToStr(a / 100), Digit(a % 100 / 10), Digit(a % 10));
    (if cents < 0 then "-" else "") + CentsText(a)
  }

  /** digits "." d d: at least four characters, no leading minus, a point
      third from the end and two digits after it. */
  lemma PointShape(whole: string, tens: char, ones: char)
    requires IsDigits(whole) && IsDigit(tens) && IsDigit(ones)
    ensures var t := whole + "." + [tens, ones];
      |t| >= 4 && t[0] != '-' && t[|t| - 3] == '.' && t[|t| - 2..] == [tens, ones]
  {
  }

  /** Reads back the text MoneyText writes: [-]digits.dd in cents. */
  function ParseMoneyText(s: string): Option<int>
  {
    if |s| > 0 && s[0] == '-' then
      match ParseAmount(s[1..])
      case None => None
      case Some(magnitude) => Some(-(magnitude as int))
    else ParseAmount(s)
  }

  /** digits.dd, without a sign, in cents. */
  function ParseAmount(body: string): Option<nat>
  {
    match SplitOnce(body, '.')
    case None => None
    case Some(parts) =>
      if IsDigits(parts.0) && |parts.1| == 2 && IsDigits(parts.1) then
        Some(100 * DigitsValue(parts.0) + DigitsValue(parts.1))
      else None
  }

  function CentsText(a: nat): string
  {
    NatToStr(a / 100) + "." + [Digit(a % 100 / 10), Digit(a % 10)]
  }

  lemma CentsTextSplits(a: nat)
    ensures SplitOnce(CentsText(a), '.') == Some((NatToStr(a / 100), [Digit(a % 100 / 10), Digit(a % 10)]))
    ensures CentsText(a)[0] != '-'
  {
    var whole, frac := NatToStr(a / 100), [Digit(a % 100 / 10), Digit(a % 10)];
    IntToStrAvoids(a / 100, '.');
    SplitOnceAt(whole, '.', frac);
    assert CentsText(a) == whole + ['.'] + frac;
  }

  lemma CentsDigits(a: nat)
    ensures DigitsValue([Digit(a % 100 / 10), Digit(a % 10)]) == a % 100
  {
    var frac := [Digit(a % 100 / 10), Digit(a % 10)];
    assert frac[..1] == [Digit(a % 100 / 10)];
    assert DigitsValue(frac[..1]) == a % 100 / 10;
  }

  lemma CentsTextParses(a: nat)
    ensures ParseAmount(CentsText(a)) == Some(a)
  {
    CentsTextSplits(a);
    CentsDigits(a);
    NatToStrValue(a / 100);
  }

  /** The amount text sent to the gateway denotes the amount exactly. */
  lemma MoneyTextRoundTrip(cents: int)
    ensures ParseMoneyText(MoneyText(cents)) == Some(cents)
  {
    var a := Abs(cents);
    CentsTextParses(a);
    CentsTextSplits(a);
    var s := MoneyText(cents);
    if cents < 0 {
      assert s[1..] == CentsText(a);
    } else {
      assert s == CentsText(a);
    }
  }

  /** Worked example: two units at 19.99 with a 9.99 shipping fee. */
  lemma TotalExample()
    ensures OrderTotal(2 * 1999, Decimal(999, 2)) == 4997
    ensures ToMoney(Decimal(9995, 3)) == 1000
    ensures ToMoney(Decimal(-9995, 3)) == -1000
    ensures ToMoney(Decimal(9994, 3)) == 999
  {
  }
}
