/** Amounts: exact decimal text to integer paise, as reconcile_tool/parse.py computes it in
28-digit decimal arithmetic, and the printer of dashboard/assets/tool.js. */
module Money {
  import opened Models
  import opened Digits

  /** A finite decimal: coefficient times ten to the exponent. */
  datatype Dec = Dec(negative: bool, coef: nat, exp: int)

  /** An amount cell. `Written` is text with currency signs and spaces already taken off. */
  datatype Amount = Flag | NotFinite | Number(dec: Dec) | Written(text: string)

  datatype AmountUnit = Rupees | Paise

  datatype AmountError = NotANumber | NotAFiniteNumber | Negative | NotWholePaise

  datatype Converted = Exactly(paise: nat) | Refused(error: AmountError)

  const PRECISION := 28

  // ------------------------------------------------------------------
  // Powers of ten
  // ------------------------------------------------------------------

  function Pow10(n: nat): (p: nat)
    ensures p >= 1
  {
    if n == 0 then 1 else 10 * Pow10(n - 1)
  }

  lemma {:induction false} Pow10Add(a: nat, b: nat)
    ensures Pow10(a + b) == Pow10(a) * Pow10(b)
  {
    if a > 0 {
      Pow10Add(a - 1, b);
      MulAssoc(10, Pow10(a - 1), Pow10(b));
    }
  }

  lemma MulAssoc(a: int, b: int, c: int)
    ensures (a * b) * c == a * (b * c)
  {
  }

  lemma MulCancel(a: int, b: int, u: nat)
    requires u >= 1 && a * u == b * u
    ensures a == b
  {
  }

  function Width(c: nat): (n: nat)
    ensures n >= 1
  {
    if c < 10 then 1 else 1 + Width(c / 10)
  }

  lemma SmallPowers()
    ensures Pow10(1) == 10 && Pow10(2) == 100 && Pow10(3) == 1000 && Pow10(4) == 10000
  {
    assert Pow10(1) == 10 * Pow10(0);
    assert Pow10(2) == 10 * Pow10(1);
    assert Pow10(3) == 10 * Pow10(2);
  }

  lemma LargePowers()
    ensures Pow10(28) == 10000000000000000000000000000
    ensures Pow10(31) == 10000000000000000000000000000000
    ensures Pow10(32) == 100000000000000000000000000000000
  {
    SmallPowers();
    Pow10Add(4, 4);
    Pow10Add(8, 8);
    Pow10Add(16, 8);
    Pow10Add(24, 4);
    Pow10Add(28, 3);
    Pow10Add(28, 4);
  }

  lemma {:induction false} WidthAtLeast(c: nat, n: nat)
    requires c >= Pow10(n)
    ensures Width(c) > n
  {
    if n > 0 {
      WidthAtLeast(c / 10, n - 1);
    }
  }

  lemma {:induction false} WidthAtMost(c: nat, n: nat)
    requires n >= 1 && c < Pow10(n)
    ensures Width(c) <= n
  {
    SmallPowers();
    if c >= 10 {
      WidthAtMost(c / 10, n - 1);
    }
  }

  // ------------------------------------------------------------------
  // Decimal arithmetic
  // ------------------------------------------------------------------

  /** `c` times ten to the `e` is the integer `v`. */
  predicate Denotes(c: nat, e: int, v: nat) {
    if e >= 0 then c * Pow10(e) == v else c == v * Pow10(-e)
  }

  /** The integer `c` times ten to the `e` is, if it is one. */
  function Integral(c: nat, e: int): Option<nat> {
    if e >= 0 then Some(c * Pow10(e))
    else if c % Pow10(-e) == 0 then Some(c / Pow10(-e))
    else None
  }

  function HalfEven(c: nat, unit: nat): nat
    requires unit >= 1
  {
    var q, r := c / unit, c % unit;
    if 2 * r > unit || (2 * r == unit && q % 2 == 1) then q + 1 else q
  }

  /** Rounding goes to the nearest multiple, and from halfway to the even one. */
  lemma HalfEvenIsNearest(c: nat, unit: nat)
    requires unit >= 1
    ensures var h := HalfEven(c, unit);
            && 2 * (h * unit - c) <= unit && 2 * (c - h * unit) <= unit
            && ((2 * (h * unit - c) == unit || 2 * (c - h * unit) == unit) ==> h % 2 == 0)
  {
    var q := c / unit;
    assert c == q * unit + c % unit;
    assert (q + 1) * unit == q * unit + unit;
    assert (q + 1) % 2 == 0 || q % 2 == 0;
  }

  /** How many digits a coefficient loses to the context's precision. */
  function Dropped(c: nat): nat {
    if Width(c) <= PRECISION then 0 else Width(c) - PRECISION
  }

  /** The product rounded to the precision, if it is a whole number. */
  function RoundedIntegral(c: nat, e: int): Option<nat> {
    Integral(HalfEven(c, Pow10(Dropped(c))), e + Dropped(c))
  }

  function Scaled(d: Dec, unit: AmountUnit): nat {
    if unit == Rupees then d.coef * 100 else d.coef
  }

  /** In paise no arithmetic is done, so nothing is rounded. */
  function Convert(d: Dec, unit: AmountUnit): Converted {
    var paise := if unit == Rupees then RoundedIntegral(d.coef * 100, d.exp) else Integral(d.coef, d.exp);
    if d.negative && d.coef > 0 then Refused(Negative)
    else if paise.Some? then Exactly(paise.value)
    else Refused(NotWholePaise)
  }

  /** What conversion is meant to be: the exact amount, or a refusal. */
  function ExactPaise(d: Dec, unit: AmountUnit): Converted {
    var paise := Integral(Scaled(d, unit), d.exp);
    if d.negative && d.coef > 0 then Refused(Negative)
    else if paise.Some? then Exactly(paise.value)
    else Refused(NotWholePaise)
  }

  lemma IntegralIff(c: nat, e: int, v: nat)
    ensures Integral(c, e) == Some(v) <==> Denotes(c, e, v)
  {
    if e < 0 {
      var u := Pow10(-e);
      if c == v * u { DivMul(v, u); }
      if c % u == 0 { assert c == (c / u) * u; }
    }
  }

  lemma MulAtLeast(x: int, u: int)
    requires x >= 1 && u >= 1
    ensures x * u >= u
  {
  }

  lemma DivMul(v: nat, u: nat)
    requires u >= 1
    ensures (v * u) / u == v && (v * u) % u == 0
  {
    var a := v * u;
    var q, r := a / u, a % u;
    assert a == q * u + r;
    Distribute(v, q, u);
    if v - q >= 1 {
      MulAtLeast(v - q, u);
    }
    if q - v >= 1 {
      MulAtLeast(q - v, u);
    }
  }

  lemma Distribute(v: int, q: int, u: int)
    ensures (v - q) * u == v * u - q * u && (q - v) * u == q * u - v * u
  {
  }

  /** Moving zeros between the coefficient and the exponent changes nothing. */
  lemma Shift(m: nat, k: nat, e: int, v: nat)
    ensures Denotes(m * Pow10(k), e, v) <==> Denotes(m, e + k, v)
  {
    if e >= 0 {
      Pow10Add(k, e);
      MulAssoc(m, Pow10(k), Pow10(e));
    } else if e + k >= 0 {
      Pow10Add(e + k, -e);
      MulAssoc(m, Pow10(e + k), Pow10(-e));
      if m * Pow10(e + k) * Pow10(-e) == v * Pow10(-e) { MulCancel(m * Pow10(e + k), v, Pow10(-e)); }
    } else {
      Pow10Add(-e - k, k);
      MulAssoc(v, Pow10(-e - k), Pow10(k));
      if m * Pow10(k) == v * Pow10(-e - k) * Pow10(k) { MulCancel(m, v * Pow10(-e - k), Pow10(k)); }
    }
  }

  predicate RoundsExactly(c: nat) {
    c % Pow10(Dropped(c)) == 0
  }

  lemma ExactRounding(c: nat, e: int)
    requires RoundsExactly(c)
    ensures RoundedIntegral(c, e) == Integral(c, e)
  {
    var u := Pow10(Dropped(c));
    var m := c / u;
    assert c == m * u && HalfEven(c, u) == m;
    var r, x := RoundedIntegral(c, e), Integral(c, e);
    if r.Some? {
      IntegralIff(m, e + Dropped(c), r.value);
      Shift(m, Dropped(c), e, r.value);
      IntegralIff(c, e, r.value);
    }
    if x.Some? {
      IntegralIff(c, e, x.value);
      Shift(m, Dropped(c), e, x.value);
      IntegralIff(m, e + Dropped(c), x.value);
    }
  }

  /** If the rounded product is the whole number the exact one is, nothing was rounded. */
  lemma SameIntegralIsExact(c: nat, e: int)
    requires RoundedIntegral(c, e).Some? && RoundedIntegral(c, e) == Integral(c, e)
    ensures RoundsExactly(c)
  {
    var u, v := Pow10(Dropped(c)), Integral(c, e).value;
    var h := HalfEven(c, u);
    IntegralIff(h, e + Dropped(c), v);
    Shift(h, Dropped(c), e, v);
    IntegralIff(c, e, v);
    assert c == h * u by {
      if e >= 0 { MulCancel(c, h * u, Pow10(e)); }
    }
    DivMul(h, u);
  }

  /** An exact whole amount whose rounding is not whole would have been rounded exactly. */
  lemma WholeRoundsWhole(c: nat, e: int)
    requires RoundedIntegral(c, e).None?
    ensures Integral(c, e).None?
  {
    if Integral(c, e).Some? {
      var v, k := Integral(c, e).value, Dropped(c);
      assert e + k < 0;
      IntegralIff(c, e, v);
      Pow10Add(-e - k, k);
      MulAssoc(v, Pow10(-e - k), Pow10(k));
      DivMul(v * Pow10(-e - k), Pow10(k));
      ExactRounding(c, e);
    }
  }

  /** What conversion refuses, exact arithmetic refuses too, and for the same reason. */
  lemma RefusalIsRightful(d: Dec, unit: AmountUnit)
    requires Convert(d, unit).Refused?
    ensures Convert(d, unit) == ExactPaise(d, unit)
  {
    if unit == Rupees && !(d.negative && d.coef > 0) {
      WholeRoundsWhole(d.coef * 100, d.exp);
    }
  }

  /** What conversion accepts is the exact amount if and only if it was given in paise or the
      product by 100 has nothing but zeros beyond its 28th digit. */
  lemma AcceptedIsExactIff(d: Dec, unit: AmountUnit)
    requires Convert(d, unit).Exactly?
    ensures Convert(d, unit) == ExactPaise(d, unit) <==> unit == Paise || RoundsExactly(d.coef * 100)
  {
    if unit == Rupees {
      var c := d.coef * 100;
      if RoundsExactly(c) {
        ExactRounding(c, d.exp);
      } else if RoundedIntegral(c, d.exp) == Integral(c, d.exp) {
        SameIntegralIsExact(c, d.exp);
      }
    }
  }

  /** An amount of at most 28 significant digits is converted exactly or refused. */
  lemma AtMost28DigitsIsExact(d: Dec, unit: AmountUnit)
    requires d.coef < Pow10(PRECISION)
    ensures Convert(d, unit) == ExactPaise(d, unit)
  {
    var c := d.coef * 100;
    SmallPowers();
    Pow10Add(PRECISION, 2);
    WidthAtMost(c, PRECISION + 2);
    HundredfoldRounds(d.coef);
    if Convert(d, unit).Exactly? {
      AcceptedIsExactIff(d, unit);
    } else {
      RefusalIsRightful(d, unit);
    }
  }

  lemma HundredfoldRounds(n: nat)
    requires Width(n * 100) <= PRECISION + 2
    ensures RoundsExactly(n * 100)
  {
    hide Width;
    SmallPowers();
    if Dropped(n * 100) == 1 {
      assert n * 100 % 10 == 0;
    }
  }

  // ------------------------------------------------------------------
  // Text
  // ------------------------------------------------------------------

  /** How many digits `text` begins with. */
  function LeadingDigits(text: string): (n: nat)
    ensures n <= |text| && AllDigits(text[..n])
    ensures n < |text| ==> !IsDigit(text[n])
  {
    if text == "" || !IsDigit(text[0]) then 0
    else
      var n := 1 + LeadingDigits(text[1..]);
      assert text[..n] == [text[0]] + text[1..][..n - 1];
      n
  }

  /** `^\d+(\.\d+)?$` */
  function ParsePlain(text: string): Option<Dec> {
    var n := LeadingDigits(text);
    if n == 0 then None
    else if n == |text| then Some(Dec(false, Value(text[..n]), 0))
    else if text[n] == '.' && n + 1 < |text| && AllDigits(text[n + 1..]) then
      Some(Dec(false, Value(text[..n] + text[n + 1..]), -(|text| - n - 1)))
    else None
  }

  /** How many groups of a comma and three digits `text` begins with. */
  function CommaGroups(text: string): (k: nat)
    ensures 4 * k <= |text|
  {
    if |text| >= 4 && text[0] == ',' && AllDigits(text[1..4]) then 1 + CommaGroups(text[4..]) else 0
  }

  /** `^\d{1,3}(,\d{3})+(\.\d+)?$` */
  predicate HasThousands(text: string) {
    var n := LeadingDigits(text);
    var k := CommaGroups(text[n..]);
    var rest := text[n + 4 * k..];
    1 <= n <= 3 && k >= 1 && (rest == "" || (rest[0] == '.' && |rest| > 1 && AllDigits(rest[1..])))
  }

  function WithoutCommas(text: string): string {
    if text == "" then ""
    else if text[0] == ',' then WithoutCommas(text[1..])
    else [text[0]] + WithoutCommas(text[1..])
  }

  /** The number an amount cell holds, if it holds one. */
  function NumberIn(amount: Amount): Option<Dec> {
    match amount
    case Flag => None
    case NotFinite => None
    case Number(dec) => Some(dec)
    case Written(text) => ParsePlain(if HasThousands(text) then WithoutCommas(text) else text)
  }

  function ToPaise(amount: Amount, unit: AmountUnit): Converted {
    var number := NumberIn(amount);
    if number.Some? then Convert(number.value, unit)
    else Refused(if amount.NotFinite? then NotAFiniteNumber else NotANumber)
  }

  /** Exact conversion of a cell: what `ToPaise` is documented to be. */
  function ExactlyToPaise(amount: Amount, unit: AmountUnit): Converted {
    var number := NumberIn(amount);
    if number.Some? then ExactPaise(number.value, unit)
    else Refused(if amount.NotFinite? then NotAFiniteNumber else NotANumber)
  }

  /** Every refusal of a cell is rightful. */
  lemma RefusedCellIsRightful(amount: Amount, unit: AmountUnit)
    requires ToPaise(amount, unit).Refused?
    ensures ToPaise(amount, unit) == ExactlyToPaise(amount, unit)
  {
    hide ParsePlain, HasThousands, WithoutCommas, Convert, ExactPaise;
    if NumberIn(amount).Some? {
      RefusalIsRightful(NumberIn(amount).value, unit);
    }
  }

  /** An accepted cell is exact if and only if it is in paise or its number times 100 has
      nothing but zeros beyond the 28th digit. */
  lemma AcceptedCellIsExactIff(amount: Amount, unit: AmountUnit)
    requires ToPaise(amount, unit).Exactly?
    ensures ToPaise(amount, unit) == ExactlyToPaise(amount, unit) <==>
            unit == Paise || RoundsExactly(NumberIn(amount).value.coef * 100)
  {
    hide ParsePlain, HasThousands, WithoutCommas, Convert, ExactPaise, RoundsExactly;
    AcceptedIsExactIff(NumberIn(amount).value, unit);
  }

  function Pad2(n: nat): string
    requires n < 100
  {
    [DigitChar(n / 10), DigitChar(n % 10)]
  }

  /** The money printer: whole rupees, a point, two digits of paise. */
  function ExactRupees(p: nat): string {
    Print(p / 100) + "." + Pad2(p % 100)
  }

  lemma {:induction false} LeadingDigitsOf(digits: string, rest: string)
    requires AllDigits(digits) && (rest != "" ==> !IsDigit(rest[0]))
    ensures LeadingDigits(digits + rest) == |digits|
  {
    if digits == "" {
      assert digits + rest == rest;
    } else {
      assert (digits + rest)[1..] == digits[1..] + rest;
      LeadingDigitsOf(digits[1..], rest);
    }
  }

  lemma ValueOfTwoMore(digits: string, n: nat)
    requires AllDigits(digits) && n < 100
    ensures Value(digits + Pad2(n)) == 100 * Value(digits) + n
  {
    var one := digits + [DigitChar(n / 10)];
    assert (digits + Pad2(n))[..|digits| + 1] == one && one[..|digits|] == digits;
    assert (digits + Pad2(n))[|digits| + 1] == DigitChar(n % 10);
  }

  /** A hundred septillion rupees and a tenth of a paisa. */
  const TOO_LONG := "100000000000000000000000000.001"

  function Zeros(n: nat): (text: string)
    ensures |text| == n && AllDigits(text) && forall i | 0 <= i < n :: text[i] == '0'
  {
    seq(n, i => '0')
  }

  lemma {:induction false} ValueOfZeros(digits: string, n: nat)
    requires AllDigits(digits)
    ensures Value(digits + Zeros(n)) == Value(digits) * Pow10(n)
  {
    if n == 0 {
      assert digits + Zeros(0) == digits;
    } else {
      ValueOfZeros(digits, n - 1);
      assert (digits + Zeros(n))[..|digits| + n - 1] == digits + Zeros(n - 1);
    }
  }

  /** Digits, a point, digits: read as one number, shifted. */
  lemma PlainParts(whole: string, frac: string)
    requires AllDigits(whole) && whole != "" && AllDigits(frac) && frac != ""
    ensures !HasThousands(whole + "." + frac)
    ensures ParsePlain(whole + "." + frac) == Some(Dec(false, Value(whole + frac), -|frac|))
  {
    var text, rest := whole + "." + frac, "." + frac;
    assert text == whole + rest;
    LeadingDigitsOf(whole, rest);
    assert text[|whole|..] == rest && text[|whole| + 1..] == frac && text[..|whole|] == whole;
  }

  lemma TooLongValue()
    ensures Value("1" + Zeros(26) + "001") == 100000000000000000000000000001
  {
    var head := "1" + Zeros(28);
    assert "1" + Zeros(26) + "001" == head + "1";
    ValueOfZeros("1", 28);
    LargePowers();
    OneDigit("", 1);
    OneDigit(head, 1);
    assert "" + [DigitChar(1)] == "1";
  }

  lemma OneDigit(digits: string, d: nat)
    requires AllDigits(digits) && d < 10
    ensures Value(digits + [DigitChar(d)]) == 10 * Value(digits) + d
  {
    assert (digits + [DigitChar(d)])[..|digits|] == digits;
  }

  lemma TooLongNumber()
    ensures NumberIn(Written(TOO_LONG)) == Some(Dec(false, 100000000000000000000000000001, -3))
  {
    hide Value, ParsePlain, HasThousands;
    assert TOO_LONG == "1" + Zeros(26) + "." + "001";
    PlainParts("1" + Zeros(26), "001");
    TooLongValue();
  }

  /** With 30 digits the tenth of a paisa vanishes: the text is accepted, though it is no
      whole number of paise. */
  lemma LongAmountIsRounded()
    ensures ToPaise(Written(TOO_LONG), Rupees) == Exactly(10000000000000000000000000000)
    ensures ExactlyToPaise(Written(TOO_LONG), Rupees) == Refused(NotWholePaise)
  {
    TooLongNumber();
    hide NumberIn;
    var c := 10000000000000000000000000000100;
    LargePowers();
    SmallPowers();
    WidthAtLeast(c, 31);
    WidthAtMost(c, 32);
    hide Width;
    assert Dropped(c) == 4;
    assert HalfEven(c, 10000) == 1000000000000000000000000000;
  }

  /** The printed text reads back as the amount, two decimal places down. */
  lemma PrintedRupeesParse(p: nat)
    ensures !HasThousands(ExactRupees(p))
    ensures ParsePlain(ExactRupees(p)) == Some(Dec(false, p, -2))
  {
    PlainParts(Print(p / 100), Pad2(p % 100));
    ValueOfTwoMore(Print(p / 100), p % 100);
    PrintValue(p / 100);
  }

  /** What the dashboard prints, the parser reads back to the same paise. */
  lemma RupeesRoundTrip(p: nat)
    requires p < Pow10(PRECISION)
    ensures ToPaise(Written(ExactRupees(p)), Rupees) == Exactly(p)
  {
    PrintedRupeesParse(p);
    hide ParsePlain, HasThousands, ExactRupees, Convert;
    AtMost28DigitsIsExact(Dec(false, p, -2), Rupees);
    SmallPowers();
    DivMul(p, 100);
  }

  /** Every integer a double holds exactly is small enough. */
  lemma SafeIntegersFit(p: nat)
    requires p < 0x20_0000_0000_0000
    ensures p < Pow10(PRECISION)
  {
    SmallPowers();
    Pow10Add(4, 4);
    Pow10Add(8, 8);
    Pow10Add(16, 8);
    Pow10Add(24, 4);
  }

  function Distance(a: real, b: real): real {
    if a >= b then a - b else b - a
  }

  function ToInteger(k: int, x: real): real {
    Distance(k as real, x)
  }

  /** `Math.floor(p / 100)` on doubles is the integer quotient: the rounded quotient `q` is
      within half an ulp of the true one (quotients here are below 2^47, so half an ulp is at
      most 1/128) and no farther from it than any integer is. */
  lemma FloatingFloorIsExact(p: nat, x: real, q: real)
    requires p < 0x20_0000_0000_0000 && x == p as real / 100.0
    requires Distance(q, x) <= 1.0 / 128.0
    requires forall k: int :: Distance(q, x) <= ToInteger(k, x)
    ensures q.Floor == p / 100
  {
    var k := p / 100;
    assert p == 100 * k + p % 100;
    assert x == k as real + (p % 100) as real / 100.0;
    assert Distance(q, x) <= ToInteger(k, x);
  }
}
