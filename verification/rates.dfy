/** What the text of a refresh rate is worth, in whole numbers (strategy/kwin/kscreen.rs). */
module Rates {
  import opened Outcomes
  import opened Proto
  import opened Text
  import opened KScreen
  import opened Listing

  function Tens(n: nat): nat { if n == 0 then 1 else 10 * Tens(n - 1) }

  /** Digits, or nothing. */
  predicate AreDigits(s: string) { forall i | 0 <= i < |s| :: IsDigit(s[i]) }

  predicate IsSign(s: string) { s == "" || s == "+" || s == "-" }

  function Signed(sign: string, n: nat): int { if sign == "-" then 0 - n else n }

  /** The letter, the sign and the digits of an exponent. */
  datatype Exponent = Exponent(letter: char, sign: string, digits: string) {
    predicate Valid() { (letter == 'e' || letter == 'E') && IsSign(sign) && AllDigits(digits) }

    function Text(): string { [letter] + sign + digits }

    function Value(): int
      requires Valid()
    {
      Signed(sign, DigitsValue(digits))
    }
  }

  /** A number as it is written: a sign, digits, perhaps a point and more digits, and perhaps an exponent. */
  datatype Numeral = Numeral(sign: string, whole: string, fraction: Option<string>, exponent: Option<Exponent>) {
    predicate Valid() {
      && IsSign(sign) && AreDigits(whole) && AllDigits(Digits()) && (exponent.Some? ==> exponent.value.Valid())
    }

    /** The digits on both sides of the point. */
    function Digits(): string { whole + if fraction.Some? then fraction.value else "" }

    function Mantissa(): string { whole + if fraction.Some? then "." + fraction.value else "" }

    function ExponentText(): string { if exponent.Some? then exponent.value.Text() else "" }

    function Text(): string { sign + (Mantissa() + ExponentText()) }

    /** How many digits there are after the point. */
    function Places(): nat { if fraction.Some? then |fraction.value| else 0 }

    /** The power of ten that the digits are to be multiplied by. */
    function Shift(): int
      requires Valid()
    {
      (if exponent.Some? then exponent.value.Value() else 0) - Places()
    }

    /** The number is this over `Denominator`. */
    function Numerator(): int
      requires Valid()
    {
      Signed(sign, DigitsValue(Digits()) * Tens(if Shift() > 0 then Shift() else 0))
    }

    function Denominator(): nat
      requires Valid()
    {
      Tens(if Shift() < 0 then 0 - Shift() else 0)
    }
  }

  // ---------------------------------------------------------------------------
  // Powers of ten
  // ---------------------------------------------------------------------------

  lemma {:induction false} PowerIsTens(n: nat)
    ensures PowerOfTen(n) == Tens(n) as real && Tens(n) > 0
  {
    if n > 0 {
      PowerIsTens(n - 1);
    }
  }

  lemma {:induction false} InversePower(n: nat)
    ensures PowerOfTen(0 - n) * Tens(n) as real == 1.0
  {
    if n > 0 {
      InversePower(n - 1);
      assert PowerOfTen(0 - n) == PowerOfTen(0 - (n - 1)) / 10.0;
      assert Tens(n) as real == 10.0 * Tens(n - 1) as real;
    }
  }

  // ---------------------------------------------------------------------------
  // A numeral is read
  // ---------------------------------------------------------------------------

  lemma DigitsHaveNo(s: string, c: char)
    requires AreDigits(s) && !IsDigit(c)
    ensures c !in s
  {
  }

  lemma PartsAreDigits(w: string, f: string)
    requires AreDigits(w + f)
    ensures AreDigits(w) && AreDigits(f)
  {
    assert forall i | 0 <= i < |w| :: (w + f)[i] == w[i];
    assert forall i | 0 <= i < |f| :: (w + f)[|w| + i] == f[i];
  }

  lemma PointedMantissa(w: string, f: string)
    requires AllDigits(w + f)
    ensures IsMantissa(w + "." + f) && 'e' !in w + "." + f
    ensures MantissaDigits(w + "." + f) == w + f && Places(w + "." + f) == |f|
  {
    var s := w + "." + f;
    PartsAreDigits(w, f);
    DigitsHaveNo(w, '.');
    DigitsHaveNo(w, 'e');
    DigitsHaveNo(f, 'e');
    IndexOfAfter(w, '.', f);
    assert s[..|w|] == w && s[|w| + 1..] == f;
  }

  lemma PlainMantissa(w: string)
    requires AllDigits(w)
    ensures IsMantissa(w) && 'e' !in w && MantissaDigits(w) == w && Places(w) == 0
  {
    DigitsHaveNo(w, '.');
    DigitsHaveNo(w, 'e');
    IndexOfAbsent(w, '.');
    assert w[..|w|] == w && w + "" == w;
  }

  lemma WithExponent(m: string, rest: string)
    requires IsMantissa(m) && 'e' !in m && AllDigits(Unsigned(rest))
    ensures IsNumber(m + "e" + rest)
    ensures DigitsOf(m + "e" + rest) == MantissaDigits(m)
    ensures PowerOf(m + "e" + rest) == ExponentValue(rest) - Places(m)
  {
    var body := m + "e" + rest;
    IndexOfAfter(m, 'e', rest);
    assert body[..|m|] == m && body[|m| + 1..] == rest;
  }

  lemma WithoutExponent(m: string)
    requires IsMantissa(m) && 'e' !in m
    ensures IsNumber(m) && DigitsOf(m) == MantissaDigits(m) && PowerOf(m) == 0 - Places(m)
  {
    IndexOfAbsent(m, 'e');
    assert m[..|m|] == m;
  }

  lemma ExponentIsRead(sign: string, digits: string)
    requires IsSign(sign) && AllDigits(digits)
    ensures AllDigits(Unsigned(sign + digits))
    ensures ExponentValue(sign + digits) == Signed(sign, DigitsValue(digits))
  {
    var s := sign + digits;
    assert IsDigit(digits[0]);
    if sign == "" {
      assert s == digits;
    } else {
      assert s[1..] == digits;
    }
  }

  lemma LowerJoined(a: string, b: string)
    ensures Lower(a + b) == Lower(a) + Lower(b)
  {
  }

  lemma DigitsAreLower(s: string)
    requires AreDigits(s)
    ensures Lower(s) == s
  {
  }

  lemma MantissaIsRead(n: Numeral)
    requires n.Valid()
    ensures IsMantissa(n.Mantissa()) && 'e' !in n.Mantissa()
    ensures MantissaDigits(n.Mantissa()) == n.Digits() && Places(n.Mantissa()) == n.Places()
  {
    if n.fraction.Some? {
      PointedMantissa(n.whole, n.fraction.value);
      assert n.Mantissa() == n.whole + "." + n.fraction.value;
    } else {
      assert n.Mantissa() == n.whole == n.Digits();
      PlainMantissa(n.whole);
    }
  }

  lemma MantissaIsLower(n: Numeral)
    requires n.Valid()
    ensures Lower(n.Mantissa()) == n.Mantissa()
    ensures n.Mantissa() != "" && (IsDigit(n.Mantissa()[0]) || n.Mantissa()[0] == '.')
  {
    assert IsDigit(n.Digits()[0]);
    if n.fraction.Some? {
      var w, f := n.whole, n.fraction.value;
      PartsAreDigits(w, f);
      LowerJoined(w + ".", f);
      LowerJoined(w, ".");
      DigitsAreLower(w);
      DigitsAreLower(f);
    } else {
      assert n.Mantissa() == n.whole == n.Digits();
      DigitsAreLower(n.whole);
    }
  }

  lemma ExponentIsLowered(e: Exponent)
    requires e.Valid()
    ensures Lower(e.Text()) == "e" + (e.sign + e.digits)
  {
    LowerJoined([e.letter], e.sign + e.digits);
    LowerJoined(e.sign, e.digits);
    DigitsAreLower(e.digits);
    assert e.Text() == [e.letter] + (e.sign + e.digits);
  }

  /** The numeral without its sign, and with a small letter for the exponent. */
  function Body(n: Numeral): string {
    if n.exponent.None? then n.Mantissa() else n.Mantissa() + "e" + (n.exponent.value.sign + n.exponent.value.digits)
  }

  lemma BodyIsLowered(n: Numeral)
    requires n.Valid()
    ensures Lower(n.Mantissa() + n.ExponentText()) == Body(n)
  {
    var m := n.Mantissa();
    MantissaIsLower(n);
    if n.exponent.Some? {
      var e := n.exponent.value;
      LowerJoined(m, e.Text());
      ExponentIsLowered(e);
      assert m + ("e" + (e.sign + e.digits)) == m + "e" + (e.sign + e.digits);
    } else {
      assert m + "" == m;
    }
  }

  lemma BodyIsRead(n: Numeral)
    requires n.Valid()
    ensures IsNumber(Body(n)) && DigitsOf(Body(n)) == n.Digits() && PowerOf(Body(n)) == n.Shift()
  {
    MantissaIsRead(n);
    if n.exponent.Some? {
      var e := n.exponent.value;
      ExponentIsRead(e.sign, e.digits);
      WithExponent(n.Mantissa(), e.sign + e.digits);
    } else {
      WithoutExponent(n.Mantissa());
    }
  }

  lemma BodyIsNotSpecial(n: Numeral)
    requires n.Valid()
    ensures !IsSpecial(Body(n))
  {
    MantissaIsLower(n);
    assert Body(n)[0] == n.Mantissa()[0];
  }

  lemma SignIsTakenOff(sign: string, rest: string)
    requires IsSign(sign) && rest != "" && rest[0] != '+' && rest[0] != '-'
    ensures Unsigned(sign + rest) == rest
    ensures "-" <= sign + rest <==> sign == "-"
  {
    var s := sign + rest;
    if sign == "" {
      assert s == rest;
    } else {
      assert s[1..] == rest;
    }
  }

  function WithSign(sign: string, v: real): real { if sign == "-" then 0.0 - v else v }

  lemma NumeralIsRead(n: Numeral)
    requires n.Valid()
    ensures IsRateText(n.Text()) && IsNumber(Body(n))
    ensures RateValue(n.Text()) == Finite(WithSign(n.sign, NumberValue(Body(n))))
  {
    TextIsLowered(n);
    BodyIsRead(n);
    BodyIsNotSpecial(n);
    ValueOfText(n.Text(), Body(n));
  }

  lemma TextIsLowered(n: Numeral)
    requires n.Valid()
    ensures Lower(Unsigned(n.Text())) == Body(n)
    ensures "-" <= n.Text() <==> n.sign == "-"
  {
    var rest := n.Mantissa() + n.ExponentText();
    MantissaIsLower(n);
    assert rest[0] == n.Mantissa()[0];
    SignIsTakenOff(n.sign, rest);
    BodyIsLowered(n);
  }

  lemma ValueOfText(s: string, body: string)
    requires body == Lower(Unsigned(s)) && IsNumber(body) && !IsSpecial(body)
    ensures IsRateText(s)
    ensures RateValue(s) == Finite(if "-" <= s then 0.0 - NumberValue(body) else NumberValue(body))
  {
  }

  /** A fraction of whole numbers is this number. */
  predicate IsWorth(hz: real, numerator: int, denominator: nat) {
    denominator > 0 && hz * denominator as real == numerator as real
  }

  lemma NumberIsWorth(n: Numeral, v: real)
    requires n.Valid() && v == Scaled(DigitsValue(n.Digits()), n.Shift())
    ensures IsWorth(WithSign(n.sign, v), n.Numerator(), n.Denominator())
  {
    var d, shift := DigitsValue(n.Digits()), n.Shift();
    Shifted(d, shift, v);
    SignedIsWorth(n.sign, v, d * Tens(if shift > 0 then shift else 0), n.Denominator());
  }

  lemma SignedIsWorth(sign: string, v: real, numerator: nat, denominator: nat)
    requires IsWorth(v, numerator, denominator)
    ensures IsWorth(WithSign(sign, v), Signed(sign, numerator), denominator)
  {
    var d := denominator as real;
    assert (0.0 - v) * d == 0.0 - v * d;
  }

  lemma ValueOfBody(n: Numeral)
    requires n.Valid() && IsNumber(Body(n))
    ensures NumberValue(Body(n)) == Scaled(DigitsValue(n.Digits()), n.Shift())
  {
    BodyIsRead(n);
  }

  lemma Shifted(d: nat, shift: int, v: real)
    requires v == Scaled(d, shift)
    ensures var up: nat, down: nat := if shift > 0 then shift else 0, if shift < 0 then 0 - shift else 0;
            IsWorth(v, d * Tens(up), Tens(down))
  {
    if shift < 0 {
      ShiftedDown(d, 0 - shift);
    } else {
      ShiftedUp(d, shift);
    }
  }

  lemma ShiftedUp(d: nat, n: nat)
    ensures IsWorth(Scaled(d, n), d * Tens(n), Tens(0))
  {
    PowerIsTens(n);
    Regroup(d, PowerOfTen(n), Tens(n), 1);
  }

  lemma ShiftedDown(d: nat, n: nat)
    ensures IsWorth(Scaled(d, 0 - n), d * Tens(0), Tens(n))
  {
    PowerIsTens(n);
    InversePower(n);
    Regroup(d, PowerOfTen(0 - n), 1, Tens(n));
  }

  lemma Regroup(d: nat, p: real, u: nat, t: nat)
    requires p * t as real == u as real
    ensures d as real * p * t as real == (d * u) as real
  {
    assert d as real * p * t as real == d as real * (p * t as real);
  }

  /** What a numeral is worth: a fraction of whole numbers. */
  lemma RateOfNumeral(n: Numeral)
    requires n.Valid()
    ensures IsRateText(n.Text()) && RateValue(n.Text()).Finite?
    ensures IsWorth(RateValue(n.Text()).hz, n.Numerator(), n.Denominator())
  {
    NumeralIsRead(n);
    ValueOfBody(n);
    NumberIsWorth(n, NumberValue(Body(n)));
  }

  // ---------------------------------------------------------------------------
  // Every rate that is accepted is a numeral
  // ---------------------------------------------------------------------------

  /** Only letters are changed by lowering, and only to letters. */
  lemma LoweringKeeps(s: string)
    requires forall i | 0 <= i < |s| :: LowerChar(s[i]) < 'a'
    ensures Lower(s) == s
  {
  }

  lemma MantissaIsPlain(t: string)
    requires IsMantissa(t)
    ensures forall k | 0 <= k < |t| :: IsDigit(t[k]) || t[k] == '.'
  {
    var i := IndexOf(t, '.');
    PartsAreDigits(t[..i], if i < |t| then t[i + 1..] else "");
    assert i < |t| ==> t == t[..i] + "." + t[i + 1..];
  }

  lemma MantissaOf(m: string) returns (whole: string, fraction: Option<string>)
    requires IsMantissa(m)
    ensures AreDigits(whole) && AllDigits(whole + if fraction.Some? then fraction.value else "")
    ensures m == whole + if fraction.Some? then "." + fraction.value else ""
  {
    var i := IndexOf(m, '.');
    whole, fraction := m[..i], if i < |m| then Some(m[i + 1..]) else None;
    PartsAreDigits(whole, if i < |m| then m[i + 1..] else "");
    assert i < |m| ==> m == m[..i] + ("." + m[i + 1..]);
  }

  lemma LoweredMantissa(m: string)
    requires IsMantissa(Lower(m))
    ensures Lower(m) == m
  {
    MantissaIsPlain(Lower(m));
    forall k | 0 <= k < |m|
      ensures LowerChar(m[k]) < 'a'
    {
      assert Lower(m)[k] == LowerChar(m[k]);
    }
    LoweringKeeps(m);
  }

  lemma ExponentOf(letter: char, rest: string) returns (e: Exponent)
    requires LowerChar(letter) == 'e' && AllDigits(Unsigned(Lower(rest)))
    ensures e.Valid() && e.Text() == [letter] + rest
  {
    var t := Lower(rest);
    assert forall k | 0 <= k < |rest| :: LowerChar(rest[k]) == t[k];
    assert t != Unsigned(t) ==> t == [t[0]] + Unsigned(t);
    assert forall k | 1 <= k < |t| :: t[k] == if t == Unsigned(t) then Unsigned(t)[k] else Unsigned(t)[k - 1];
    LoweringKeeps(rest);
    if rest == Unsigned(rest) {
      e := Exponent(letter, "", rest);
    } else {
      e := Exponent(letter, [rest[0]], rest[1..]);
    }
    assert e.Text() == [letter] + rest;
  }

  lemma SignOf(s: string) returns (sign: string)
    ensures IsSign(sign) && s == sign + Unsigned(s)
  {
    sign := if "+" <= s || "-" <= s then [s[0]] else "";
  }

  lemma NumeralOf(sign: string, m: string, exponent: Option<Exponent>) returns (n: Numeral)
    requires IsSign(sign) && IsMantissa(m) && (exponent.Some? ==> exponent.value.Valid())
    ensures n.Valid() && n.Text() == sign + (m + if exponent.Some? then exponent.value.Text() else "")
  {
    var whole, fraction := MantissaOf(m);
    n := Numeral(sign, whole, fraction, exponent);
    assert n.Mantissa() == m;
  }

  /** A part of a lowered text is a lowered part. */
  lemma LoweredParts(u: string, e: nat)
    requires e <= |u|
    ensures Lower(u[..e]) == Lower(u)[..e] && Lower(u[e..]) == Lower(u)[e..]
  {
  }

  lemma SplitAround(u: string, e: nat)
    requires e < |u|
    ensures u == u[..e] + ([u[e]] + u[e + 1..])
  {
  }

  /** So the rates that are read as numbers are exactly the numerals. */
  lemma RateIsNumeral(s: string) returns (n: Numeral)
    requires IsNumber(Lower(Unsigned(s)))
    ensures n.Valid() && n.Text() == s
  {
    var u := Unsigned(s);
    var t := Lower(u);
    var e := IndexOf(t, 'e');
    var sign := SignOf(s);
    LoweredParts(u, e);
    LoweredMantissa(u[..e]);
    if e < |u| {
      LoweredParts(u, e + 1);
      var x := ExponentOf(u[e], u[e + 1..]);
      n := NumeralOf(sign, u[..e], Some(x));
      SplitAround(u, e);
    } else {
      n := NumeralOf(sign, u[..e], None);
      assert u[..e] + "" == u;
    }
  }

  /** What is no number is no rate, or one that no mode is within half a hertz of. */
  lemma RateIsNumberIff(s: string)
    ensures ParseRate(s).Some? && ParseRate(s).value.Finite? <==> IsNumber(Lower(Unsigned(s)))
    ensures ParseRate(s) == Some(NotFinite) <==> Lower(Unsigned(s)) in {"inf", "infinity", "nan"}
  {
    if IsNumber(Lower(Unsigned(s))) {
      var n := RateIsNumeral(s);
      NumeralIsRead(n);
    }
  }

  // ---------------------------------------------------------------------------
  // When a rate is accepted
  // ---------------------------------------------------------------------------

  /** Within half a hertz, in whole numbers. */
  predicate IsNear(numerator: int, denominator: nat, refresh: nat) {
    0 - denominator <= 2 * (numerator - refresh * denominator) <= denominator
  }

  lemma NearInReals(hz: real, numerator: int, denominator: nat, refresh: nat)
    requires IsWorth(hz, numerator, denominator)
    ensures RateMatches(hz, refresh) <==> IsNear(numerator, denominator, refresh)
  {
    var m := numerator - refresh * denominator;
    Difference(hz, numerator, denominator, refresh, m);
    ScaledBounds(hz - refresh as real, denominator as real, m as real);
  }

  lemma Difference(hz: real, numerator: int, denominator: nat, refresh: nat, m: int)
    requires hz * denominator as real == numerator as real && m == numerator - refresh * denominator
    ensures (hz - refresh as real) * denominator as real == m as real
  {
    var d := denominator as real;
    assert refresh as real * d == (refresh * denominator) as real;
    assert (hz - refresh as real) * d == hz * d - refresh as real * d;
  }

  lemma ScaledBounds(x: real, d: real, y: real)
    requires d > 0.0 && x * d == y
    ensures -0.5 <= x <= 0.5 <==> 0.0 - d <= 2.0 * y <= d
  {
    if x > 0.5 {
      assert (x - 0.5) * d > 0.0;
    } else if x < -0.5 {
      assert (-0.5 - x) * d > 0.0;
    } else {
      assert (0.5 - x) * d >= 0.0 && (x + 0.5) * d >= 0.0;
    }
  }

  /**
   * A printed mode whose rate is this numeral is the mode that was asked for exactly if it is current, the sizes are
   * the same and the rate is within half a hertz, which is decided in whole numbers.
   */
  lemma TokenMatchesIff(t: ModeToken, n: Numeral, width: nat, height: nat, refresh: nat)
    requires t.Valid() && n.Valid() && t.rate == n.Text()
    ensures ModeMatches(ParseActiveModeToken(t.Text()), width, height, refresh)
            <==> t.current && t.width == width && t.height == height
                 && IsNear(n.Numerator(), n.Denominator(), refresh)
  {
    TokenReads(t);
    RateOfNumeral(n);
    NearInReals(RateValue(n.Text()).hz, n.Numerator(), n.Denominator(), refresh);
  }
}
