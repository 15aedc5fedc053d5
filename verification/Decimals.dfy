/**
 * Exact nonnegative decimals as strings: `Decimal`, `format`, `sum` and `multiply` of
 * `internal/accounting/accounting.go`.
 *
 * Every accepted value is a multiple of 10^-36, so amounts are counted in these units. The
 * source's arbitrary-precision rationals become integers here.
 */
module Decimals {
  import opened Deployments

  const PLACES := 36
  /** 10^36 units make one. */
  const ONE := 1000000000000000000000000000000000000
  const MAX_LENGTH := 128
  const MAX_EXPONENT := 36
  /** 2^256: numerators and denominators may have at most 256 bits. */
  const NUMERATOR_LIMIT := 115792089237316195423570985008687907853269984665640564039457584007913129639936

  // ---------- Digits ----------

  predicate IsDigit(c: char)
  {
    '0' <= c <= '9'
  }

  predicate AllDigits(s: string)
  {
    forall c | c in s :: IsDigit(c)
  }

  function DigitOf(d: nat): (c: char)
    requires d < 10
    ensures IsDigit(c) && c as int - '0' as int == d
  {
    '0' + d as char
  }

  function Pow10(n: nat): (p: nat)
    ensures p >= 1
  {
    if n == 0 then 1 else 10 * Pow10(n - 1)
  }

  /** The number that a digit string spells. */
  function Number(s: string): nat
    requires AllDigits(s)
  {
    if s == "" then 0
    else
      assert s[|s| - 1] in s;
      assert forall c | c in s[..|s| - 1] :: c in s;
      10 * Number(s[..|s| - 1]) + (s[|s| - 1] as int - '0' as int)
  }

  /** Decimal digits without leading zeros. */
  function Digits(n: nat): (s: string)
    ensures s != "" && AllDigits(s)
  {
    if n < 10 then [DigitOf(n)] else Digits(n / 10) + [DigitOf(n % 10)]
  }

  /** The last `width` decimal digits. */
  function Padded(n: nat, width: nat): (s: string)
    ensures |s| == width && AllDigits(s)
  {
    if width == 0 then "" else Padded(n / 10, width - 1) + [DigitOf(n % 10)]
  }

  function TrimRight(s: string, c: char): (t: string)
    ensures |t| <= |s| && t == s[..|t|]
  {
    if s != "" && s[|s| - 1] == c then TrimRight(s[..|s| - 1], c) else s
  }

  // ---------- Parsing ----------

  /** The number of digits at the front. */
  function DigitRun(s: string): (n: nat)
    ensures n <= |s| && AllDigits(s[..n])
    ensures n < |s| ==> !IsDigit(s[n])
  {
    if s != "" && IsDigit(s[0]) then
      var n := DigitRun(s[1..]);
      assert s[..n + 1] == [s[0]] + s[1..][..n];
      n + 1
    else 0
  }

  /** `whole.fraction` times ten to the `exponent`. */
  datatype Literal = Literal(whole: string, fraction: string, exponent: int)

  predicate WellFormed(l: Literal)
  {
    AllDigits(l.whole) && AllDigits(l.fraction)
  }

  /** The part after an `e` or `E`: an optional sign and digits. */
  function ParseExponent(s: string): Option<int>
  {
    var signed := s != "" && (s[0] == '+' || s[0] == '-');
    var digits := if signed then s[1..] else s;
    if digits == "" || DigitRun(digits) != |digits| then None
    else
      assert digits[..|digits|] == digits;
      var n: int := Number(digits);
      var e: int := if signed && s[0] == '-' then -1 * n else n;
      Some(e)
  }

  /** A literal from its digits and what follows them: nothing, or an exponent. */
  function ParseFrom(whole: string, fraction: string, tail: string): Option<Literal>
  {
    if whole == "" && fraction == "" then None
    else if tail == "" then Some(Literal(whole, fraction, 0))
    else if tail[0] == 'e' || tail[0] == 'E' then
      match ParseExponent(tail[1..])
      case None => None
      case Some(e) => Some(Literal(whole, fraction, e))
    else None
  }

  /** The syntax of decimals: digits with at most one point, and an optional exponent. */
  function Parse(s: string): (l: Option<Literal>)
    ensures l.Some? ==> WellFormed(l.value)
  {
    var n := DigitRun(s);
    var rest := s[n..];
    if rest != "" && rest[0] == '.' then
      var m := DigitRun(rest[1..]);
      ParseFrom(s[..n], rest[1..][..m], rest[1..][m..])
    else ParseFrom(s[..n], "", rest)
  }

  // ---------- Values ----------

  lemma DigitsJoin(l: Literal)
    requires WellFormed(l)
    ensures AllDigits(l.whole + l.fraction)
  {
  }

  function Mantissa(l: Literal): nat
    requires WellFormed(l)
  {
    DigitsJoin(l);
    Number(l.whole + l.fraction)
  }

  /** Ten to any integer power. */
  ghost function Ten(k: int): real
  {
    if k >= 0 then Pow10(k) as real else 1.0 / Pow10(-k) as real
  }

  /** The rational number that a literal denotes. */
  ghost function Value(l: Literal): real
    requires WellFormed(l)
  {
    Mantissa(l) as real * Ten(l.exponent - |l.fraction|)
  }

  /** The value in units of 10^-36, when it is a whole number of them. */
  function Units(l: Literal): Option<nat>
    requires WellFormed(l)
  {
    var k := l.exponent - |l.fraction| + PLACES;
    if k >= 0 then Some(Mantissa(l) * Pow10(k))
    else if Mantissa(l) % Pow10(-k) == 0 then Some(Mantissa(l) / Pow10(-k))
    else None
  }

  function Gcd(a: nat, b: nat): nat
    decreases b
  {
    if b == 0 then a else Gcd(b, a % b)
  }

  /** The numerator of `a / b` in lowest terms. */
  function LowestNumerator(a: nat, b: nat): nat
    requires b > 0
  {
    GcdBounds(a, b);
    a / Gcd(a, b)
  }

  /** The numerator of `units / 10^36` in lowest terms. */
  function ReducedNumerator(units: nat): nat
  {
    LowestNumerator(units, ONE)
  }

  // ---------- Decimal, format, sum, multiply ----------

  /** `big.Rat.FloatString(36)` of a value that needs no rounding. */
  function FloatString(units: nat): string
  {
    Digits(units / ONE) + "." + Padded(units % ONE, PLACES)
  }

  function Format(units: nat): string
  {
    var s := TrimRight(TrimRight(FloatString(units), '0'), '.');
    if s == "" then "0" else s
  }

  /** The units of a string that denotes a representable value. */
  function ParseUnits(s: string): Option<nat>
  {
    match Parse(s)
    case None => None
    case Some(l) => Units(l)
  }

  /**
   * The canonical form of an acceptable decimal. The source formats the value with 36 places and
   * rejects it when that lost precision, which is when it is not a whole number of units.
   */
  function Decimal(s: string): Option<string>
  {
    if |s| > MAX_LENGTH then None
    else
      match Parse(s)
      case None => None
      case Some(l) =>
        if l.exponent < -MAX_EXPONENT || l.exponent > MAX_EXPONENT then None
        else
          match Units(l)
          case None => None
          case Some(u) => if ReducedNumerator(u) >= NUMERATOR_LIMIT then None else Some(Format(u))
  }

  function SumOfUnits(values: seq<string>): nat
  {
    if values == [] then 0
    else
      SumOfUnits(values[..|values| - 1]) +
      match ParseUnits(values[|values| - 1]) { case None => 0 case Some(u) => u }
  }

  method Sum(values: seq<string>) returns (s: string)
    ensures s == Format(SumOfUnits(values))
  {
    var r: nat := 0;
    for n := 0 to |values|
      invariant r == SumOfUnits(values[..n])
    {
      assert values[..n + 1][..n] == values[..n];
      var v := ParseUnits(values[n]);
      if v.Some? {
        r := r + v.value;
      }
    }
    assert values[..|values|] == values;
    s := Format(r);
  }

  function Multiply(rate: string, n: nat): string
    requires ParseUnits(rate).Some?
  {
    NotNegative(ParseUnits(rate).value, n);
    Format(ParseUnits(rate).value * n)
  }

  lemma NotNegative(a: nat, b: nat)
    ensures a * b >= 0
  {
  }

  // ---------- Facts about digits ----------

  lemma {:induction false} GcdBounds(a: nat, b: nat)
    requires b > 0
    ensures 1 <= Gcd(a, b) <= b
    decreases b
  {
    if a % b > 0 {
      GcdBounds(b, a % b);
    }
  }

  lemma NumberSnoc(s: string, c: char)
    requires AllDigits(s) && IsDigit(c)
    ensures AllDigits(s + [c]) && Number(s + [c]) == 10 * Number(s) + (c as int - '0' as int)
  {
    assert (s + [c])[..|s|] == s;
  }

  lemma {:induction false} NumberOfDigits(n: nat)
    ensures Number(Digits(n)) == n
  {
    if n < 10 {
      NumberSnoc("", DigitOf(n));
      assert "" + [DigitOf(n)] == [DigitOf(n)];
    } else {
      NumberOfDigits(n / 10);
      NumberSnoc(Digits(n / 10), DigitOf(n % 10));
    }
  }

  lemma {:induction false} NumberOfPadded(n: nat, width: nat)
    requires n < Pow10(width)
    ensures Number(Padded(n, width)) == n
  {
    if width > 0 {
      NumberOfPadded(n / 10, width - 1);
      NumberSnoc(Padded(n / 10, width - 1), DigitOf(n % 10));
    }
  }

  lemma {:induction false} NumberJoin(a: string, b: string)
    requires AllDigits(a) && AllDigits(b)
    ensures AllDigits(a + b) && Number(a + b) == Number(a) * Pow10(|b|) + Number(b)
  {
    if b == "" {
      assert a + b == a;
    } else {
      var front, c := b[..|b| - 1], b[|b| - 1];
      assert c in b && forall d | d in front :: d in b;
      NumberJoin(a, front);
      NumberSnoc(a + front, c);
      NumberSnoc(front, c);
      assert b == front + [c] && a + b == a + front + [c];
      TenTimes(Number(a), Pow10(|front|), Number(front));
    }
  }

  lemma TenTimes(a: nat, p: nat, b: nat)
    ensures 10 * (a * p + b) == a * (10 * p) + 10 * b
  {
  }

  /** Trailing zeros of a digit string only scale the number it spells. */
  lemma {:induction false} NumberTrimmed(s: string)
    requires AllDigits(s)
    ensures var t := TrimRight(s, '0');
            AllDigits(t) && Number(s) == Number(t) * Pow10(|s| - |t|)
  {
    if s != "" && s[|s| - 1] == '0' {
      var front := s[..|s| - 1];
      assert forall d | d in front :: d in s;
      NumberTrimmed(front);
      var t := TrimRight(front, '0');
      TenTimes(Number(t), Pow10(|front| - |t|), 0);
    }
  }

  lemma {:induction false} TrimDigits(head: string, s: string)
    requires AllDigits(s) && head != "" && head[|head| - 1] == '.'
    ensures TrimRight(head + s, '0') == head + TrimRight(s, '0')
  {
    if s != "" && s[|s| - 1] == '0' {
      var front := s[..|s| - 1];
      assert forall d | d in front :: d in s;
      assert (head + s)[..|head + s| - 1] == head + front;
      TrimDigits(head, front);
    } else if s == "" {
      assert head + s == head;
    }
  }

  lemma {:induction false} RunOfDigits(a: string, rest: string)
    requires AllDigits(a)
    requires rest == "" || !IsDigit(rest[0])
    ensures DigitRun(a + rest) == |a|
  {
    if a == "" {
      assert a + rest == rest;
    } else {
      assert a[0] in a;
      assert forall d | d in a[1..] :: d in a;
      assert (a + rest)[1..] == a[1..] + rest;
      RunOfDigits(a[1..], rest);
    }
  }

  lemma {:induction false} Pow10Add(a: nat, b: nat)
    ensures Pow10(a + b) == Pow10(a) * Pow10(b)
  {
    if a > 0 {
      Pow10Add(a - 1, b);
      Assoc(10, Pow10(a - 1), Pow10(b));
    }
  }

  lemma Assoc(a: nat, b: nat, c: nat)
    ensures a * b * c == a * (b * c)
  {
  }

  lemma PowerOfTwelve(n: nat)
    requires n == 12
    ensures Pow10(n) == 1000000000000 && Pow10(n - 6) == 1000000
  {
    assert Pow10(n - 11) == 10;
    assert Pow10(n - 9) == 1000;
    assert Pow10(n - 7) == 100000;
    assert Pow10(n - 5) == 10000000;
    assert Pow10(n - 3) == 1000000000;
    assert Pow10(n - 1) == 100000000000;
  }

  /** ONE is 10^36, and 2^256 has at most 78 digits. */
  lemma Powers(twelve: nat, six: nat)
    requires twelve == 12 && six == 6
    ensures Pow10(3 * twelve) == ONE
    ensures Pow10(6 * twelve + six) > NUMERATOR_LIMIT
  {
    PowerOfTwelve(twelve);
    Pow10Add(twelve, twelve);
    Pow10Add(2 * twelve, twelve);
    Pow10Add(3 * twelve, 3 * twelve);
    Pow10Add(6 * twelve, six);
  }

  lemma OneIs(n: nat)
    requires n == PLACES
    ensures Pow10(n) == ONE
  {
    Powers(n / 3, n / 6);
  }

  // ---------- The canonical form ----------

  /** The fraction digits of a formatted value. */
  ghost function Fraction(units: nat): string
  {
    TrimRight(Padded(units % ONE, PLACES), '0')
  }

  lemma TrimPoint(whole: string, fraction: string)
    requires AllDigits(whole) && AllDigits(fraction) && whole != ""
    ensures TrimRight(whole + "." + fraction, '.') == if fraction == "" then whole else whole + "." + fraction
  {
    var s := whole + "." + fraction;
    if fraction == "" {
      assert s == whole + ".";
      assert s[..|s| - 1] == whole;
      assert whole[|whole| - 1] in whole;
    } else {
      assert s[|s| - 1] == fraction[|fraction| - 1] && fraction[|fraction| - 1] in fraction;
    }
  }

  lemma FormatShape(units: nat)
    ensures Format(units) == if Fraction(units) == "" then Digits(units / ONE)
                             else Digits(units / ONE) + "." + Fraction(units)
    ensures AllDigits(Fraction(units)) && |Fraction(units)| <= PLACES
  {
    hide Digits, Padded, TrimRight;
    var whole := Digits(units / ONE);
    var padded := Padded(units % ONE, PLACES);
    TrimDigits(whole + ".", padded);
    NumberTrimmed(padded);
    TrimPoint(whole, Fraction(units));
  }

  lemma ParsePlain(whole: string, fraction: string)
    requires AllDigits(whole) && AllDigits(fraction) && whole != ""
    ensures Parse(whole) == Some(Literal(whole, "", 0))
    ensures Parse(whole + "." + fraction) == Some(Literal(whole, fraction, 0))
  {
    RunOfDigits(whole, "");
    assert whole + "" == whole;
    var s := whole + "." + fraction;
    assert s == whole + ("." + fraction);
    RunOfDigits(whole, "." + fraction);
    RunOfDigits(fraction, "");
    assert fraction + "" == fraction;
    assert s[..|whole|] == whole && s[|whole|..] == "." + fraction && ("." + fraction)[1..] == fraction;
  }

  lemma UnitsOfPlain(whole: string, fraction: string)
    requires AllDigits(whole) && AllDigits(fraction) && |fraction| <= PLACES
    ensures Units(Literal(whole, fraction, 0)) ==
            Some(Number(whole) * ONE + Number(fraction) * Pow10(PLACES - |fraction|))
  {
    hide Pow10, Number;
    DigitsJoin(Literal(whole, fraction, 0));
    assert Units(Literal(whole, fraction, 0)) == Some(Number(whole + fraction) * Pow10(PLACES - |fraction|));
    ScaledDigits(whole, fraction);
  }

  lemma ScaledDigits(whole: string, fraction: string)
    requires AllDigits(whole) && AllDigits(fraction) && |fraction| <= PLACES
    ensures AllDigits(whole + fraction)
    ensures Number(whole + fraction) * Pow10(PLACES - |fraction|) ==
            Number(whole) * ONE + Number(fraction) * Pow10(PLACES - |fraction|)
  {
    hide Pow10, Number;
    NumberJoin(whole, fraction);
    PowerSplit(|fraction|);
    Reassemble(Number(whole), Number(fraction), Pow10(|fraction|), Pow10(PLACES - |fraction|));
  }

  lemma FractionValue(units: nat)
    ensures AllDigits(Fraction(units)) && |Fraction(units)| <= PLACES
    ensures Number(Fraction(units)) * Pow10(PLACES - |Fraction(units)|) == units % ONE
  {
    hide Number, Padded, TrimRight, Pow10;
    PaddedIsRemainder(units);
    NumberTrimmed(Padded(units % ONE, PLACES));
  }

  lemma DivMod(units: nat)
    ensures units / ONE * ONE + units % ONE == units
  {
  }

  /** A formatted value reads back as itself, for any number of units: formatting loses nothing. */
  lemma {:induction false} FormatReadsBack(units: nat)
    ensures ParseUnits(Format(units)) == Some(units)
    ensures Parse(Format(units)).Some? && Parse(Format(units)).value.exponent == 0
  {
    hide Digits, Parse, Units, Number, Format, Pow10, Fraction;
    var whole, fraction := Digits(units / ONE), Fraction(units);
    FormatShape(units);
    FractionValue(units);
    ParsePlain(whole, fraction);
    NumberOfDigits(units / ONE);
    UnitsOfPlain(whole, fraction);
    DivMod(units);
    assert fraction == "" ==> Literal(whole, fraction, 0) == Literal(whole, "", 0);
  }

  lemma PaddedIsRemainder(units: nat)
    ensures Number(Padded(units % ONE, PLACES)) == units % ONE
  {
    OneIs(PLACES);
    NumberOfPadded(units % ONE, PLACES);
  }

  lemma PowerSplit(f: nat)
    requires f <= PLACES
    ensures Pow10(f) * Pow10(PLACES - f) == ONE
  {
    hide Pow10;
    OneIs(f + (PLACES - f));
    Pow10Add(f, PLACES - f);
  }

  lemma Reassemble(whole: nat, fraction: nat, p: nat, q: nat)
    ensures (whole * p + fraction) * q == whole * (p * q) + fraction * q
  {
  }

  lemma {:induction false} DigitCount(n: nat, width: nat)
    requires width >= 1 && n < Pow10(width)
    ensures |Digits(n)| <= width
  {
    assert Pow10(1) == 10;
    if n >= 10 {
      DigitCount(n / 10, width - 1);
    }
  }

  lemma WholePartBelowNumerator(units: nat)
    ensures units / ONE <= ReducedNumerator(units)
  {
    GcdBounds(units, ONE);
    QuotientGrows(units, Gcd(units, ONE), ONE);
  }

  lemma QuotientGrows(n: nat, small: nat, large: nat)
    requires 0 < small <= large
    ensures n / large <= n / small
  {
    Quotients(n / large, n % large, large, n / small, n % small, small);
  }

  lemma Quotients(q: nat, r: nat, large: nat, p: nat, s: nat, small: nat)
    requires 0 < small <= large && s < small
    requires q * large + r == p * small + s
    ensures q <= p
  {
    if q > p {
      ProductGrows(q, small, large);
      Multiples(q - p, small);
    }
  }

  lemma ProductGrows(q: nat, small: nat, large: nat)
    requires small <= large
    ensures q * small <= q * large
  {
  }

  lemma Multiples(x: int, p: nat)
    ensures x >= 1 ==> x * p >= p
    ensures x <= -1 ==> x * p <= -1 * p
  {
  }

  lemma FormatIsShort(units: nat)
    requires ReducedNumerator(units) < NUMERATOR_LIMIT
    ensures |Format(units)| <= 115
  {
    hide ReducedNumerator, Format, Digits, Fraction;
    FormatShape(units);
    WholePartBelowNumerator(units);
    Powers(12, 6);
    DigitCount(units / ONE, 78);
  }

  /** Normalizing twice is normalizing once; in particular the result is accepted again. */
  lemma DecimalIsIdempotent(s: string)
    requires Decimal(s).Some?
    ensures Decimal(Decimal(s).value) == Decimal(s)
  {
    var u := ParseUnits(s).value;
    FormatReadsBack(u);
    FormatIsShort(u);
  }

  // ---------- The rational number behind a string ----------

  lemma TenShift(k: int)
    ensures Ten(k - PLACES) * ONE as real == Ten(k)
  {
    if k >= PLACES {
      PowerProduct(k - PLACES, PLACES, k);
    } else if k >= 0 {
      PowerSplit(PLACES - k);
      Reciprocal(Pow10(PLACES - k), Pow10(k), ONE);
    } else {
      PowerProduct(PLACES, -k, PLACES - k);
      ReciprocalOfProduct(ONE, Pow10(-k), Pow10(PLACES - k));
    }
  }

  lemma PowerProduct(a: nat, b: nat, c: nat)
    requires a + b == c && (a == PLACES || b == PLACES)
    ensures a == PLACES ==> ONE * Pow10(b) == Pow10(c)
    ensures b == PLACES ==> Pow10(a) as real * ONE as real == Pow10(c) as real
  {
    hide Pow10;
    OneIs(if a == PLACES then a else b);
    Pow10Add(a, b);
    CastProduct(Pow10(a), ONE);
  }

  lemma CastProduct(a: nat, b: nat)
    ensures (a * b) as real == a as real * b as real
  {
  }

  lemma Reciprocal(a: nat, b: nat, c: nat)
    requires a >= 1 && a * b == c
    ensures 1.0 / a as real * c as real == b as real
  {
    CastProduct(a, b);
    var u := 1.0 / a as real;
    assert u * a as real == 1.0;
    assert u * (a as real * b as real) == (u * a as real) * b as real;
  }

  lemma ReciprocalOfProduct(a: nat, b: nat, c: nat)
    requires a >= 1 && b >= 1 && a * b == c
    ensures c >= 1 && 1.0 / c as real * a as real == 1.0 / b as real
  {
    CastProduct(a, b);
    var u := 1.0 / c as real;
    assert u * c as real == 1.0;
    assert (u * a as real) * b as real == 1.0;
  }

  /** A literal is a whole number of units exactly when its value is, and then it is that number. */
  lemma UnitsAreTheValue(l: Literal, u: nat)
    requires WellFormed(l)
    ensures Units(l) == Some(u) <==> u as real == Value(l) * ONE as real
  {
    hide Mantissa, Pow10, Ten, Value;
    var k := l.exponent - |l.fraction| + PLACES;
    ValueInUnits(l);
    TenOf(k);
    if k >= 0 {
      Product(Mantissa(l), Pow10(k), u);
    } else {
      Divides(Mantissa(l), Pow10(-k), u);
    }
  }

  lemma Product(m: nat, p: nat, u: nat)
    ensures m * p == u <==> u as real == m as real * p as real
  {
    CastProduct(m, p);
  }

  lemma ValueInUnits(l: Literal)
    requires WellFormed(l)
    ensures Value(l) * ONE as real == Mantissa(l) as real * Ten(l.exponent - |l.fraction| + PLACES)
  {
    hide Mantissa, Ten;
    var k := l.exponent - |l.fraction| + PLACES;
    TenShift(k);
    ScaledValue(Mantissa(l), Ten(k - PLACES), ONE as real, Ten(k));
  }

  lemma TenOf(k: int)
    ensures Ten(k) == if k >= 0 then Pow10(k) as real else 1.0 / Pow10(-k) as real
  {
  }

  lemma ScaledValue(m: nat, t: real, one: real, s: real)
    requires t * one == s
    ensures m as real * t * one == m as real * s
  {
  }

  lemma Divides(m: nat, p: nat, u: nat)
    requires p >= 1
    ensures (m % p == 0 && m / p == u) <==> u as real == m as real * (1.0 / p as real)
  {
    var r := 1.0 / p as real;
    assert r * p as real == 1.0;
    if m % p == 0 && m / p == u {
      assert m == u * p;
      CastProduct(u, p);
      assert m as real * r == u as real * (r * p as real);
    }
    if u as real == m as real * r {
      assert u as real * p as real == m as real * (r * p as real);
      CastProduct(u, p);
      assert m == u * p;
      ExactQuotient(u, p);
    }
  }

  lemma ExactQuotient(u: nat, p: nat)
    requires p >= 1
    ensures (u * p) % p == 0 && (u * p) / p == u
  {
    var q, r := (u * p) / p, (u * p) % p;
    assert u * p == q * p + r;
    assert (u - q) * p == r;
    Multiples(u - q, p);
  }

  /** Two accepted strings denote the same number if and only if they have the same canonical form. */
  lemma CanonicalFormsDecideEquality(s: string, t: string)
    requires Decimal(s).Some? && Decimal(t).Some?
    ensures Decimal(s) == Decimal(t) <==> Value(Parse(s).value) == Value(Parse(t).value)
  {
    var a, b := Parse(s).value, Parse(t).value;
    var u, v := Units(a).value, Units(b).value;
    UnitsAreTheValue(a, u);
    UnitsAreTheValue(b, v);
    UnitsAreTheValue(a, v);
    FormatReadsBack(u);
    FormatReadsBack(v);
    SameScaled(Value(a), Value(b), ONE as real);
  }

  lemma SameScaled(x: real, y: real, one: real)
    requires one > 0.0
    ensures x * one == y * one <==> x == y
  {
    if x * one == y * one {
      assert (x - y) * one == 0.0;
    }
  }

  /** A string that denotes a whole number of units. */
  ghost predicate Representable(s: string)
  {
    ParseUnits(s).Some?
  }

  ghost function Denoted(s: string): real
    requires Representable(s)
  {
    Value(Parse(s).value)
  }

  ghost function SumOfValues(values: seq<string>): real
    requires forall v | v in values :: Representable(v)
  {
    if values == [] then 0.0
    else
      assert values[|values| - 1] in values;
      assert forall v | v in values[..|values| - 1] :: v in values;
      SumOfValues(values[..|values| - 1]) + Denoted(values[|values| - 1])
  }

  lemma FormatDenotes(units: nat)
    ensures Representable(Format(units)) && Denoted(Format(units)) * ONE as real == units as real
  {
    FormatReadsBack(units);
    UnitsAreTheValue(Parse(Format(units)).value, units);
  }

  lemma {:induction false} SumsMatch(values: seq<string>)
    requires forall v | v in values :: Representable(v)
    ensures SumOfUnits(values) as real == SumOfValues(values) * ONE as real
  {
    if values != [] {
      var front, last := values[..|values| - 1], values[|values| - 1];
      assert last in values && forall v | v in front :: v in values;
      SumsMatch(front);
      UnitsAreTheValue(Parse(last).value, ParseUnits(last).value);
      Distribute(SumOfValues(front), Denoted(last), ONE as real);
    }
  }

  lemma Distribute(x: real, y: real, one: real)
    ensures (x + y) * one == x * one + y * one
  {
  }

  /** Adding decimals never rounds: the sum denotes the exact sum of the numbers denoted. */
  lemma SumIsExact(values: seq<string>)
    requires forall v | v in values :: Representable(v)
    ensures Representable(Format(SumOfUnits(values)))
    ensures Denoted(Format(SumOfUnits(values))) == SumOfValues(values)
  {
    SumsMatch(values);
    FormatDenotes(SumOfUnits(values));
    SameScaled(Denoted(Format(SumOfUnits(values))), SumOfValues(values), ONE as real);
  }

  lemma RateUnits(rate: string)
    requires Representable(rate)
    ensures Denoted(rate) * ONE as real == ParseUnits(rate).value as real
  {
    hide Units, Value, Parse;
    UnitsAreTheValue(Parse(rate).value, ParseUnits(rate).value);
  }

  /** Multiplying a rate by a token count never rounds. */
  lemma MultiplyIsExact(rate: string, n: nat)
    requires Representable(rate)
    ensures Representable(Multiply(rate, n)) && Denoted(Multiply(rate, n)) == Denoted(rate) * n as real
  {
    hide Format, ParseUnits, Denoted;
    var u := ParseUnits(rate).value;
    FormatDenotes(u * n);
    RateUnits(rate);
    ScaledProduct(Denoted(rate), u, n, ONE as real, Denoted(Format(u * n)));
  }

  lemma ScaledProduct(x: real, u: nat, n: nat, one: real, y: real)
    requires one > 0.0
    requires x * one == u as real && y * one == (u * n) as real
    ensures y == x * n as real
  {
    CastProduct(u, n);
    assert y * one == x * n as real * one;
    SameScaled(y, x * n as real, one);
  }

  // ---------- Which strings are decimals ----------

  /** How a power of ten is written: its mark, its sign and its digits. */
  datatype Power = Power(mark: char, sign: string, digits: string)

  /** A number as written: digits, perhaps a point and further digits, perhaps a power of ten. */
  datatype Numeral = Numeral(whole: string, point: bool, fraction: string, power: Option<Power>)

  predicate LegalPower(p: Power)
  {
    && p.mark in {'e', 'E'}
    && p.sign in {"", "+", "-"}
    && p.digits != ""
    && AllDigits(p.digits)
  }

  predicate Legal(w: Numeral)
  {
    && AllDigits(w.whole) && AllDigits(w.fraction)
    && w.whole + w.fraction != ""
    && (w.fraction != "" ==> w.point)
    && (w.power.Some? ==> LegalPower(w.power.value))
  }

  function WrittenPower(power: Option<Power>): string
  {
    match power case None => "" case Some(p) => [p.mark] + (p.sign + p.digits)
  }

  function WrittenFraction(w: Numeral): string
  {
    if w.point then "." + w.fraction else ""
  }

  function Written(w: Numeral): string
  {
    w.whole + (WrittenFraction(w) + WrittenPower(w.power))
  }

  function Exponent(power: Option<Power>): int
    requires power.Some? ==> LegalPower(power.value)
  {
    if power.None? then 0
    else if power.value.sign == "-" then -1 * Number(power.value.digits)
    else Number(power.value.digits)
  }

  function Meaning(w: Numeral): Literal
    requires Legal(w)
  {
    Literal(w.whole, w.fraction, Exponent(w.power))
  }

  lemma PowerIsParsed(p: Power)
    requires LegalPower(p)
    ensures ParseExponent(p.sign + p.digits) == Some(Exponent(Some(p)))
  {
    RunOfDigits(p.digits, "");
    assert p.digits + "" == p.digits;
    assert p.digits[0] in p.digits;
    if p.sign == "" {
      assert p.sign + p.digits == p.digits;
    } else {
      assert (p.sign + p.digits)[1..] == p.digits;
    }
  }

  lemma PowerStarts(power: Option<Power>)
    requires power.Some? ==> LegalPower(power.value)
    ensures var t := WrittenPower(power);
            && (t == "" ==> Exponent(power) == 0)
            && (t != "" ==> t[0] in {'e', 'E'} && !IsDigit(t[0]) && ParseExponent(t[1..]) == Some(Exponent(power)))
  {
    if power.Some? {
      PowerIsParsed(power.value);
      assert WrittenPower(power)[1..] == power.value.sign + power.value.digits;
    }
  }

  lemma TailIsParsed(w: Numeral)
    requires Legal(w)
    ensures ParseFrom(w.whole, w.fraction, WrittenPower(w.power)) == Some(Meaning(w))
  {
    hide ParseExponent, Exponent, WrittenPower;
    PowerStarts(w.power);
    assert w.whole == "" ==> w.whole + w.fraction == w.fraction;
  }

  lemma ParsesPlain(whole: string, tail: string)
    requires AllDigits(whole) && (tail != "" ==> !IsDigit(tail[0]) && tail[0] != '.')
    ensures Parse(whole + tail) == ParseFrom(whole, "", tail)
  {
    hide ParseFrom, AllDigits, IsDigit;
    RunOfDigits(whole, tail);
    Split(whole, tail);
  }

  lemma ParsesPoint(whole: string, fraction: string, tail: string)
    requires AllDigits(whole) && AllDigits(fraction) && (tail != "" ==> !IsDigit(tail[0]))
    ensures Parse(whole + ("." + fraction + tail)) == ParseFrom(whole, fraction, tail)
  {
    hide ParseFrom, AllDigits;
    var rest := "." + fraction + tail;
    RunOfDigits(whole, rest);
    Split(whole, rest);
    assert rest[1..] == fraction + tail;
    RunOfDigits(fraction, tail);
    Split(fraction, tail);
  }

  /** Everything so written is parsed, and as what it means. */
  lemma WrittenIsParsed(w: Numeral)
    requires Legal(w)
    ensures Parse(Written(w)) == Some(Meaning(w))
  {
    hide Parse, ParseFrom, ParseExponent, Exponent, WrittenPower, Meaning, AllDigits;
    var tail := WrittenPower(w.power);
    PowerStarts(w.power);
    TailIsParsed(w);
    if w.point {
      ParsesPoint(w.whole, w.fraction, tail);
    } else {
      ParsesPlain(w.whole, tail);
      assert "" + tail == tail;
    }
  }

  lemma Split(a: string, b: string)
    ensures (a + b)[..|a|] == a && (a + b)[|a|..] == b
  {
  }

  lemma ParsedPower(s: string) returns (p: Power)
    requires s != "" && s[0] in {'e', 'E'} && ParseExponent(s[1..]).Some?
    ensures LegalPower(p) && s == WrittenPower(Some(p))
  {
    var t := s[1..];
    var signed := t != "" && (t[0] == '+' || t[0] == '-');
    p := Power(s[0], if signed then t[..1] else "", if signed then t[1..] else t);
    assert p.digits[..|p.digits|] == p.digits;
    assert signed ==> p.sign == [t[0]];
    assert p.sign + p.digits == t;
    assert s == [s[0]] + t;
  }

  lemma ParsedTail(whole: string, fraction: string, tail: string) returns (power: Option<Power>)
    requires ParseFrom(whole, fraction, tail).Some?
    ensures (power.Some? ==> LegalPower(power.value)) && tail == WrittenPower(power) && whole + fraction != ""
  {
    hide ParseExponent, LegalPower, WrittenPower;
    power := None;
    assert whole != "" ==> whole + fraction != "";
    if tail != "" {
      var p := ParsedPower(tail);
      power := Some(p);
    } else {
      NoPower();
    }
  }

  lemma NoPower()
    ensures WrittenPower(None) == ""
  {
  }

  lemma Pieces(s: string, n: nat)
    requires n <= |s|
    ensures s == s[..n] + s[n..]
  {
  }

  /** Nothing else is parsed. */
  lemma ParsedIsWritten(s: string) returns (w: Numeral)
    requires Parse(s).Some?
    ensures Legal(w) && s == Written(w)
  {
    hide ParseFrom, LegalPower, WrittenPower;
    var n := DigitRun(s);
    var whole, rest := s[..n], s[n..];
    Pieces(s, n);
    if rest != "" && rest[0] == '.' {
      var m := DigitRun(rest[1..]);
      var power := ParsedTail(whole, rest[1..][..m], rest[1..][m..]);
      Pieces(rest[1..], m);
      w := Numeral(whole, true, rest[1..][..m], power);
      assert rest == "." + rest[1..];
      Pieces3(".", w.fraction, WrittenPower(power));
    } else {
      var power := ParsedTail(whole, "", rest);
      w := Numeral(whole, false, "", power);
      assert "" + rest == rest;
    }
  }

  lemma Pieces3(a: string, b: string, c: string)
    ensures a + (b + c) == a + b + c
  {
  }

  // ---------- Which decimals are accepted ----------

  /** `v` is `p / q`. */
  ghost predicate IsFraction(v: real, p: nat, q: nat)
  {
    q >= 1 && v * q as real == p as real
  }

  lemma {:induction false} GcdDivides(a: nat, b: nat) returns (m: nat, n: nat)
    requires b > 0
    ensures a == m * Gcd(a, b) && b == n * Gcd(a, b)
    decreases b
  {
    var g := Gcd(a, b);
    if a % b == 0 {
      m, n := a / b, 1;
    } else {
      var m1, n1 := GcdDivides(b, a % b);
      Regroup(a / b, m1, n1, g);
      m, n := a / b * m1 + n1, m1;
    }
  }

  lemma Regroup(k: int, m: int, n: int, g: int)
    ensures k * (m * g) + n * g == (k * m + n) * g
  {
  }

  lemma {:induction false} Bezout(a: nat, b: nat) returns (x: int, y: int)
    requires b > 0
    ensures x * a + y * b == Gcd(a, b)
    decreases b
  {
    if a % b == 0 {
      assert Gcd(b, a % b) == b;
      x, y := 0, 1;
    } else {
      var x1, y1 := Bezout(b, a % b);
      x, y := Rotate(a, b, a / b, a % b, x1, y1);
    }
  }

  lemma Rotate(a: int, b: int, k: int, r: int, x1: int, y1: int) returns (x: int, y: int)
    requires a == b * k + r
    ensures x * a + y * b == x1 * b + y1 * r
  {
    x, y := y1, x1 - y1 * k;
    assert y1 * (b * k) == y1 * k * b;
  }

  /** No fraction of the same value has a smaller numerator than the one in lowest terms. */
  lemma LowestIsLeast(a: nat, b: nat, p: nat, q: nat)
    requires b > 0 && q > 0 && p * b == a * q
    ensures LowestNumerator(a, b) <= p
  {
    GcdBounds(a, b);
    var g := Gcd(a, b);
    var m, n := GcdDivides(a, b);
    var x, y := Bezout(a, b);
    ExactQuotient(m, g);
    Scaled(x, y, a, b, p, q);
    assert g * q == g * (n * (x * p + y * q)) by {
      Assoc3(n, g, x * p + y * q);
    }
    Cancel(g, q, n * (x * p + y * q));
    AtLeast(n, x * p + y * q, q);
    Cross(p, n, m, q, g);
    if p < m {
      Smaller(p, m, n, q);
    }
  }

  lemma Scaled(x: int, y: int, a: int, b: int, p: int, q: int)
    requires p * b == a * q
    ensures (x * a + y * b) * q == b * (x * p + y * q)
  {
    calc {
      (x * a + y * b) * q;
      x * (a * q) + y * b * q;
      x * (p * b) + y * b * q;
      b * (x * p + y * q);
    }
  }

  lemma Assoc3(n: int, g: int, z: int)
    ensures n * g * z == g * (n * z)
  {
  }

  lemma Cancel(g: int, x: int, y: int)
    requires g >= 1 && g * x == g * y
    ensures x == y
  {
    assert g * (x - y) == 0;
  }

  lemma AtLeast(n: nat, z: int, q: nat)
    requires n * z == q && q > 0
    ensures n <= q
  {
    Multiples(z, n);
  }

  lemma Cross(p: nat, n: nat, m: nat, q: nat, g: nat)
    requires g >= 1 && p * (n * g) == m * g * q
    ensures p * n == m * q
  {
    assert g * (p * n) == g * (m * q);
    Cancel(g, p * n, m * q);
  }

  lemma Smaller(p: nat, m: nat, n: nat, q: nat)
    requires p < m && 0 <= n <= q && q > 0
    ensures p * n < m * q
  {
    assert p * n <= p * q;
    assert (m - p) * q >= 1;
  }

  lemma Reduces(v: real, m: nat, n: nat, g: nat)
    requires g >= 1 && v * (n * g) as real == (m * g) as real
    ensures v * n as real == m as real
  {
    CastProduct(n, g);
    CastProduct(m, g);
    assert v * n as real * g as real == v * (n as real * g as real);
    SameScaled(v * n as real, m as real, g as real);
  }

  lemma LowestIsFraction(v: real, u: nat)
    requires IsFraction(v, u, ONE)
    ensures exists q: nat :: IsFraction(v, ReducedNumerator(u), q)
  {
    hide Gcd;
    GcdBounds(u, ONE);
    var m, n := GcdDivides(u, ONE);
    ExactQuotient(m, Gcd(u, ONE));
    Reduces(v, m, n, Gcd(u, ONE));
    assert IsFraction(v, ReducedNumerator(u), n);
  }

  lemma FractionsCross(v: real, u: nat, p: nat, q: nat)
    requires IsFraction(v, u, ONE) && IsFraction(v, p, q)
    ensures p * ONE == u * q
  {
    CastProduct(p, ONE);
    CastProduct(u, q);
    assert v * q as real * ONE as real == v * ONE as real * q as real;
  }

  lemma NumeratorFits(v: real, u: nat)
    requires IsFraction(v, u, ONE)
    ensures ReducedNumerator(u) < NUMERATOR_LIMIT <==>
            exists p: nat, q: nat :: IsFraction(v, p, q) && p < NUMERATOR_LIMIT
  {
    LowestIsFraction(v, u);
    forall p: nat, q: nat | IsFraction(v, p, q)
      ensures ReducedNumerator(u) <= p
    {
      FractionsCross(v, u, p, q);
      LowestIsLeast(u, ONE, p, q);
    }
  }

  lemma UnitsAreAFraction(l: Literal)
    requires WellFormed(l)
    ensures Units(l).Some? <==> exists u: nat :: IsFraction(Value(l), u, ONE)
    ensures Units(l).Some? ==> IsFraction(Value(l), Units(l).value, ONE)
  {
    hide Units, Value;
    forall u: nat
      ensures Units(l) == Some(u) <==> IsFraction(Value(l), u, ONE)
    {
      UnitsAreTheValue(l, u);
    }
  }

  lemma FormatKeepsValue(l: Literal)
    requires WellFormed(l) && Units(l).Some?
    ensures var d := Format(Units(l).value); Representable(d) && Denoted(d) == Value(l)
  {
    hide Units, Value, Format, Denoted, Representable;
    var u := Units(l).value;
    UnitsAreTheValue(l, u);
    FormatDenotes(u);
    SameScaled(Denoted(Format(u)), Value(l), ONE as real);
  }

  /**
   * A written number is accepted exactly when it has at most 128 characters, its power of ten lies
   * within 36 either way, 36 decimal places suffice, and it is a fraction whose numerator has at most
   * 256 bits. Its canonical form then denotes the same number.
   */
  lemma DecimalIff(w: Numeral)
    requires Legal(w)
    ensures var v := Value(Meaning(w));
            Decimal(Written(w)).Some? <==>
            && |Written(w)| <= 128
            && -36 <= Exponent(w.power) <= 36
            && (exists u: nat :: IsFraction(v, u, 1000000000000000000000000000000000000))
            && exists p: nat, q: nat :: IsFraction(v, p, q) && p < NUMERATOR_LIMIT
    ensures Decimal(Written(w)).Some? ==>
              var d := Decimal(Written(w)).value;
              Representable(d) && Denoted(d) == Value(Meaning(w))
  {
    hide Written, Legal, Exponent, Parse, Units, Value, Format, Denoted, Representable, IsFraction, ReducedNumerator;
    WrittenIsParsed(w);
    var l := Meaning(w);
    UnitsAreAFraction(l);
    if Units(l).Some? {
      NumeratorFits(Value(l), Units(l).value);
      FormatKeepsValue(l);
    }
  }

  /** No other string is accepted. */
  lemma AcceptedIsWritten(s: string) returns (w: Numeral)
    requires Decimal(s).Some?
    ensures Legal(w) && s == Written(w)
  {
    w := ParsedIsWritten(s);
  }
}
