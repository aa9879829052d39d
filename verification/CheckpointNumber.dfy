/**
  The canonical text of a JSON number (internal/run/checkpoint.go, number grammar of
  section 6 of RFC 8259): exact decimal rewriting without floating point.
*/
module CheckpointNumber {
  import opened Wrappers
  import opened Identity

  // ---------- the grammar ----------

  datatype Exponent = Exponent(mark: char, sign: string, digits: string)

  datatype Literal = Literal(negative: bool, whole: string, fraction: Option<string>, exponent: Option<Exponent>)

  predicate Digits(s: string) {
    forall i :: 0 <= i < |s| ==> '0' <= s[i] <= '9'
  }

  predicate WellFormed(l: Literal) {
    && l.whole != "" && Digits(l.whole) && (|l.whole| > 1 ==> l.whole[0] != '0')
    && (l.fraction.Some? ==> l.fraction.value != "" && Digits(l.fraction.value))
    && (l.exponent.Some? ==>
          && (l.exponent.value.mark == 'e' || l.exponent.value.mark == 'E')
          && (l.exponent.value.sign == "" || l.exponent.value.sign == "+" || l.exponent.value.sign == "-")
          && l.exponent.value.digits != "" && Digits(l.exponent.value.digits))
  }

  function MantissaText(l: Literal): string {
    l.whole + if l.fraction.Some? then "." + l.fraction.value else ""
  }

  function ExponentText(l: Literal): string {
    if l.exponent.Some? then [l.exponent.value.mark] + l.exponent.value.sign + l.exponent.value.digits else ""
  }

  function Text(l: Literal): string {
    (if l.negative then "-" else "") + (MantissaText(l) + ExponentText(l))
  }

  /** The first position of either character, or the end. */
  function Find(s: string, c: char, d: char): (i: nat)
    ensures i <= |s|
    ensures forall j :: 0 <= j < i ==> s[j] != c && s[j] != d
    ensures i < |s| ==> s[i] == c || s[i] == d
  {
    if s == "" || s[0] == c || s[0] == d then 0 else 1 + Find(s[1..], c, d)
  }

  /** How the normalizer takes a number apart. */
  function Split(text: string): Literal {
    if text != "" && text[0] == '-' then SplitUnsigned(text[1..]).(negative := true) else SplitUnsigned(text)
  }

  function SplitUnsigned(text: string): Literal {
    var k := Find(text, 'e', 'E');
    var dot := Find(text[..k], '.', '.');
    Literal(false, text[..dot], if dot < k then Some(text[dot + 1..k]) else None, SplitExponent(text[k..]))
  }

  function SplitExponent(s: string): Option<Exponent> {
    if s == "" then None
    else if |s| > 1 && (s[1] == '+' || s[1] == '-') then Some(Exponent(s[0], s[1..2], s[2..]))
    else Some(Exponent(s[0], "", s[1..]))
  }

  lemma FindIs(s: string, c: char, d: char, i: nat)
    requires i <= |s| && (forall j :: 0 <= j < i ==> s[j] != c && s[j] != d) && (i < |s| ==> s[i] == c || s[i] == d)
    ensures Find(s, c, d) == i
  {
  }

  lemma MantissaSplits(l: Literal)
    requires WellFormed(l)
    ensures var m := MantissaText(l);
            && Find(m, '.', '.') == |l.whole| && m[..|l.whole|] == l.whole
            && (if |l.whole| < |m| then Some(m[|l.whole| + 1..]) else None) == l.fraction
            && (forall j :: 0 <= j < |m| ==> m[j] != 'e' && m[j] != 'E')
  {
    var m := MantissaText(l);
    assert forall j :: 0 <= j < |l.whole| ==> m[j] == l.whole[j];
    if l.fraction.Some? {
      assert m == l.whole + "." + l.fraction.value;
      assert m[|l.whole|] == '.';
      assert m[|l.whole| + 1..] == l.fraction.value;
    }
    FindIs(m, '.', '.', |l.whole|);
  }

  lemma ExponentSplits(l: Literal)
    requires WellFormed(l)
    ensures SplitExponent(ExponentText(l)) == l.exponent
    ensures ExponentText(l) != "" ==> ExponentText(l)[0] == 'e' || ExponentText(l)[0] == 'E'
  {
    var x := ExponentText(l);
    if l.exponent.Some? {
      var e := l.exponent.value;
      assert x == [e.mark] + (e.sign + e.digits);
      if e.sign == "" {
        assert e.sign + e.digits == e.digits;
        assert x[1..] == e.digits && x[1] == e.digits[0];
      } else {
        assert x[1] == e.sign[0];
        assert x[1..2] == e.sign && x[2..] == e.digits;
      }
    }
  }

  lemma UnsignedSplits(l: Literal)
    requires WellFormed(l)
    ensures SplitUnsigned(MantissaText(l) + ExponentText(l)) == l.(negative := false)
  {
    var m, x := MantissaText(l), ExponentText(l);
    var text := m + x;
    MantissaSplits(l);
    ExponentSplits(l);
    assert forall j :: 0 <= j < |m| ==> text[j] == m[j];
    assert x != "" ==> text[|m|] == x[0];
    FindIs(text, 'e', 'E', |m|);
    assert text[..|m|] == m && text[|m|..] == x;
    assert text[..|l.whole|] == m[..|l.whole|];
    if |l.whole| < |m| {
      assert text[|l.whole| + 1..|m|] == m[|l.whole| + 1..];
    }
  }

  lemma SignSplits(negative: bool, rest: string)
    requires rest != "" && rest[0] != '-'
    ensures Split((if negative then "-" else "") + rest) == SplitUnsigned(rest).(negative := negative)
  {
    if negative {
      assert ("-" + rest)[1..] == rest;
    } else {
      assert "" + rest == rest;
    }
  }

  /** Taking apart the text of a number gives the number back. */
  lemma SplitText(l: Literal)
    requires WellFormed(l)
    ensures Split(Text(l)) == l
  {
    UnsignedSplits(l);
    var rest := MantissaText(l) + ExponentText(l);
    assert rest[0] == l.whole[0];
    assert Text(l) == (if l.negative then "-" else "") + rest;
    SignSplits(l.negative, rest);
  }

  // ---------- what a number denotes ----------

  function TenTo(n: nat): nat {
    if n == 0 then 1 else 10 * TenTo(n - 1)
  }

  function Pow10(e: int): real
    decreases if e < 0 then -e else e
  {
    if e == 0 then 1.0 else if e > 0 then 10.0 * Pow10(e - 1) else Pow10(e + 1) / 10.0
  }

  function FractionDigits(l: Literal): string {
    if l.fraction.Some? then l.fraction.value else ""
  }

  function ExponentValue(l: Literal): int {
    if l.exponent.None? then 0
    else if l.exponent.value.sign == "-" then 0 - Natural(l.exponent.value.digits)
    else Natural(l.exponent.value.digits)
  }

  function Mantissa(l: Literal): nat {
    Natural(l.whole + FractionDigits(l))
  }

  function Signed(negative: bool, magnitude: real): real {
    if negative then -magnitude else magnitude
  }

  function Scaled(n: nat, e: int): real {
    n as real * Pow10(e)
  }

  function Value(l: Literal): real {
    Signed(l.negative, Scaled(Mantissa(l), ExponentValue(l) - |FractionDigits(l)|))
  }

  /** The value of a number's text. */
  function TextValue(text: string): real {
    Value(Split(text))
  }

  // ---------- the rewriting ----------

  function Pow2(n: nat): nat {
    if n == 0 then 1 else 2 * Pow2(n - 1)
  }

  /** Reading as a 64-bit float overflows from half a unit above the largest finite value. */
  predicate FloatFinite(v: real) {
    var limit := (Pow2(1024) - Pow2(970)) as real;
    -limit < v < limit
  }

  function Zeros(n: nat): (s: string)
    ensures |s| == n
  {
    if n == 0 then "" else "0" + Zeros(n - 1)
  }

  function TrimLeft(s: string): string {
    if s != "" && s[0] == '0' then TrimLeft(s[1..]) else s
  }

  function TrimRight(s: string, c: char): string {
    if s != "" && s[|s| - 1] == c then TrimRight(s[..|s| - 1], c) else s
  }

  function AllDigits(l: Literal): string {
    TrimLeft(l.whole + FractionDigits(l))
  }

  function Placed(digits: string, exponent: int): string {
    if exponent >= 0 then digits + Zeros(exponent)
    else
      var point := |digits| + exponent;
      var dotted := if point <= 0 then "0." + Zeros(-point) + digits else digits[..point] + "." + digits[point..];
      TrimRight(TrimRight(dotted, '0'), '.')
  }

  /** None is the rejection of a number whose exponent or magnitude is out of range. */
  function Normalize(text: string): Option<string> {
    NormalizeLiteral(Split(text))
  }

  function NormalizeLiteral(l: Literal): Option<string> {
    if !FloatFinite(Value(l)) || ExponentValue(l) < -308 || ExponentValue(l) > 308 then None
    else
      var digits := AllDigits(l);
      if digits == "" then Some("0")
      else Some((if l.negative then "-" else "") + Placed(digits, ExponentValue(l) - |FractionDigits(l)|))
  }

  // ---------- arithmetic of digit strings ----------

  lemma ShiftIn(n: int, power: int, m: int, digit: int)
    ensures 10 * (n * power + m) + digit == n * (10 * power) + (10 * m + digit)
  {
  }

  lemma {:induction false} NaturalConcat(s: string, t: string)
    ensures Natural(s + t) == Natural(s) * TenTo(|t|) + Natural(t)
  {
    if t == "" {
      assert s + t == s;
      assert Natural("") == 0;
    } else {
      var u := t[..|t| - 1];
      assert (s + t)[..|s + t| - 1] == s + u;
      NaturalConcat(s, u);
      assert (s + t)[|s + t| - 1] == t[|t| - 1];
      assert TenTo(|t|) == 10 * TenTo(|u|);
      ShiftIn(Natural(s), TenTo(|u|), Natural(u), Natural(t) - 10 * Natural(u));
    }
  }

  lemma {:induction false} NaturalZeros(n: nat)
    ensures Natural(Zeros(n)) == 0 && Digits(Zeros(n))
  {
    if n > 0 {
      NaturalZeros(n - 1);
      NaturalConcat("0", Zeros(n - 1));
      assert Natural("0") == 0 by { assert "0"[..0] == ""; assert Natural("") == 0; }
    } else {
      assert Natural("") == 0;
    }
  }

  lemma TrailingZeros(s: string, n: nat)
    ensures Natural(s + Zeros(n)) == Natural(s) * TenTo(n)
  {
    NaturalZeros(n);
    NaturalConcat(s, Zeros(n));
  }

  lemma LeadingZeros(s: string, n: nat)
    ensures Natural(Zeros(n) + s) == Natural(s)
  {
    NaturalZeros(n);
    NaturalConcat(Zeros(n), s);
  }

  lemma {:induction false} NaturalBelow(s: string)
    ensures Natural(s) < TenTo(|s|)
  {
    if s != "" {
      NaturalBelow(s[..|s| - 1]);
      assert TenTo(|s|) == 10 * TenTo(|s| - 1);
    }
  }

  lemma {:induction false} NaturalAtLeast(s: string)
    requires s != "" && Digits(s) && s[0] != '0'
    ensures TenTo(|s| - 1) <= Natural(s)
  {
    var u := s[..|s| - 1];
    if u == "" {
      assert Natural("") == 0;
    } else {
      NaturalAtLeast(u);
      assert Natural(s) >= 10 * Natural(u);
    }
  }

  lemma {:induction false} DigitsDetermined(s: string, t: string)
    requires |s| == |t| && Digits(s) && Digits(t) && Natural(s) == Natural(t)
    ensures s == t
  {
    if s != "" {
      var u, v := s[..|s| - 1], t[..|t| - 1];
      var x, y := (s[|s| - 1] - '0') as nat, (t[|t| - 1] - '0') as nat;
      assert Natural(s) == 10 * Natural(u) + x && Natural(t) == 10 * Natural(v) + y;
      assert x == y && Natural(u) == Natural(v);
      DigitsDetermined(u, v);
      assert s == u + [s[|s| - 1]] && t == v + [t[|t| - 1]];
    }
  }

  lemma {:induction false} Pow10Positive(e: int)
    ensures Pow10(e) > 0.0
    decreases if e < 0 then -e else e
  {
    if e > 0 { Pow10Positive(e - 1); } else if e < 0 { Pow10Positive(e + 1); }
  }

  lemma {:induction false} Pow10Shift(e: int, n: nat)
    ensures Pow10(e + n) == TenTo(n) as real * Pow10(e)
    decreases n
  {
    if n > 0 {
      Pow10Shift(e, n - 1);
      var k := e + n;
      assert Pow10(k) == 10.0 * Pow10(k - 1);
      assert TenTo(n) as real == 10.0 * TenTo(n - 1) as real;
    }
  }

  /** Moving the decimal point by n places. */
  lemma Rescaled(m: nat, n: nat, e: int)
    ensures Scaled(m * TenTo(n), e) == Scaled(m, e + n)
  {
    Pow10Shift(e, n);
    var a, b, c := m as real, TenTo(n) as real, Pow10(e);
    assert (m * TenTo(n)) as real == a * b;
    assert a * b * c == a * (b * c);
  }

  // ---------- where the digits are placed ----------

  lemma {:induction false} TrimLeftDrops(s: string) returns (k: nat)
    requires Digits(s)
    ensures s == Zeros(k) + TrimLeft(s) && Digits(TrimLeft(s)) && (TrimLeft(s) != "" ==> TrimLeft(s)[0] != '0')
  {
    if s != "" && s[0] == '0' {
      k := TrimLeftDrops(s[1..]);
      assert s == "0" + s[1..];
      assert s == Zeros(k + 1) + TrimLeft(s);
      k := k + 1;
    } else {
      k := 0;
      assert Zeros(0) + s == s;
    }
  }

  lemma {:induction false} TrimRightDrops(s: string) returns (k: nat)
    requires Digits(s)
    ensures s == TrimRight(s, '0') + Zeros(k) && Digits(TrimRight(s, '0'))
    ensures TrimRight(s, '0') != "" ==> TrimRight(s, '0')[|TrimRight(s, '0')| - 1] != '0'
  {
    if s != "" && s[|s| - 1] == '0' {
      var u := s[..|s| - 1];
      k := TrimRightDrops(u);
      assert s == u + "0";
      ZerosEnd(k);
      assert s == TrimRight(s, '0') + (Zeros(k) + "0");
      k := k + 1;
    } else {
      k := 0;
      assert s + Zeros(0) == s;
    }
  }

  lemma {:induction false} ZerosEnd(k: nat)
    ensures Zeros(k) + "0" == Zeros(k + 1)
  {
    if k > 0 {
      ZerosEnd(k - 1);
      assert Zeros(k) + "0" == "0" + (Zeros(k - 1) + "0");
    }
  }

  lemma {:induction false} TrimRightStops(p: string, s: string)
    requires p != "" && p[|p| - 1] != '0'
    ensures TrimRight(p + s, '0') == p + TrimRight(s, '0')
  {
    if s != "" {
      assert (p + s)[..|p + s| - 1] == p + s[..|s| - 1];
      TrimRightStops(p, s[..|s| - 1]);
    } else {
      assert p + s == p;
    }
  }

  function WholePlaced(digits: string, exponent: int): string {
    if |digits| + exponent <= 0 then "0" else if exponent < 0 then digits[..|digits| + exponent] else digits + Zeros(exponent)
  }

  function FractionPlaced(digits: string, exponent: int): string
    requires exponent < 0
  {
    var point := |digits| + exponent;
    if point <= 0 then Zeros(-point) + digits else digits[point..]
  }

  /** The number whose text Placed writes. */
  function PlacedLiteral(negative: bool, digits: string, exponent: int): Literal {
    var fraction := if exponent < 0 then TrimRight(FractionPlaced(digits, exponent), '0') else "";
    Literal(negative, WholePlaced(digits, exponent), if fraction == "" then None else Some(fraction), None)
  }

  predicate Significant(digits: string) {
    digits != "" && Digits(digits) && digits[0] != '0'
  }

  lemma DottedTrimmed(whole: string, fraction: string)
    requires whole != "" && Digits(whole) && Digits(fraction)
    ensures var kept := TrimRight(fraction, '0');
            TrimRight(TrimRight(whole + "." + fraction, '0'), '.') == whole + if kept == "" then "" else "." + kept
  {
    var k := TrimRightDrops(fraction);
    var kept := TrimRight(fraction, '0');
    TrimRightStops(whole + ".", fraction);
    var trimmed := whole + "." + kept;
    if kept == "" {
      assert trimmed[..|trimmed| - 1] == whole;
      assert whole[|whole| - 1] != '.';
    } else {
      assert trimmed[|trimmed| - 1] == kept[|kept| - 1] != '.';
      assert trimmed == whole + ("." + kept);
    }
  }

  lemma FractionPlacedDigits(digits: string, exponent: int)
    requires Significant(digits) && exponent < 0
    ensures Digits(FractionPlaced(digits, exponent)) && |FractionPlaced(digits, exponent)| == -exponent
  {
    NaturalZeros(if |digits| + exponent <= 0 then -(|digits| + exponent) else 0);
  }

  lemma PlacedWhole(negative: bool, digits: string, exponent: int)
    requires Significant(digits) && exponent >= 0
    ensures MantissaText(PlacedLiteral(negative, digits, exponent)) == Placed(digits, exponent)
    ensures WellFormed(PlacedLiteral(negative, digits, exponent))
  {
    NaturalZeros(exponent);
    var l := PlacedLiteral(negative, digits, exponent);
    assert l.whole == digits + Zeros(exponent);
    assert l.whole[0] == digits[0];
    assert MantissaText(l) == l.whole;
  }

  /** The dotted text before anything is trimmed. */
  lemma DottedText(digits: string, exponent: int)
    requires Significant(digits) && exponent < 0
    ensures Placed(digits, exponent)
            == TrimRight(TrimRight(WholePlaced(digits, exponent) + "." + FractionPlaced(digits, exponent), '0'), '.')
  {
    var point := |digits| + exponent;
    if point <= 0 {
      assert "0." == "0" + ".";
      assert "0." + Zeros(-point) + digits == WholePlaced(digits, exponent) + "." + FractionPlaced(digits, exponent);
    }
  }

  lemma PlacedDotted(negative: bool, digits: string, exponent: int)
    requires Significant(digits) && exponent < 0
    ensures MantissaText(PlacedLiteral(negative, digits, exponent)) == Placed(digits, exponent)
    ensures WellFormed(PlacedLiteral(negative, digits, exponent))
  {
    var f, whole := FractionPlaced(digits, exponent), WholePlaced(digits, exponent);
    FractionPlacedDigits(digits, exponent);
    var k := TrimRightDrops(f);
    DottedText(digits, exponent);
    DottedTrimmed(whole, f);
  }

  lemma PlacedText(negative: bool, digits: string, exponent: int)
    requires Significant(digits)
    ensures Text(PlacedLiteral(negative, digits, exponent)) == (if negative then "-" else "") + Placed(digits, exponent)
  {
    if exponent >= 0 { PlacedWhole(negative, digits, exponent); } else { PlacedDotted(negative, digits, exponent); }
    var l := PlacedLiteral(negative, digits, exponent);
    assert ExponentText(l) == "";
  }

  /** The digits around the decimal point are the original ones after leading zeros. */
  lemma Reassembled(digits: string, exponent: int) returns (n: nat)
    requires exponent < 0
    ensures WholePlaced(digits, exponent) + FractionPlaced(digits, exponent) == Zeros(n) + digits
  {
    var point := |digits| + exponent;
    var whole, fraction := WholePlaced(digits, exponent), FractionPlaced(digits, exponent);
    if point <= 0 {
      n := 1 - point;
      var zeros := Zeros(-point);
      assert Zeros(n) == "0" + zeros;
      assert whole + fraction == "0" + (zeros + digits) == ("0" + zeros) + digits;
    } else {
      n := 0;
      assert whole + fraction == digits;
      assert Zeros(n) == "";
    }
  }

  lemma PlacedFraction(l: Literal, digits: string, exponent: int)
    requires Significant(digits) && exponent < 0 && l == PlacedLiteral(l.negative, digits, exponent)
    ensures Scaled(Mantissa(l), -|FractionDigits(l)|) == Scaled(Natural(digits), exponent)
  {
    var f := FractionPlaced(digits, exponent);
    FractionPlacedDigits(digits, exponent);
    var k := TrimRightDrops(f);
    var n := Reassembled(digits, exponent);
    var kept := l.whole + FractionDigits(l);
    ReassembledTrimmed(l.whole, FractionDigits(l), k, Zeros(n) + digits, n, digits);
    Rescaled(Natural(kept), k, exponent);
    assert exponent + k == -|FractionDigits(l)|;
  }

  lemma ReassembledTrimmed(whole: string, kept: string, k: nat, all: string, n: nat, digits: string)
    requires whole + (kept + Zeros(k)) == all == Zeros(n) + digits
    ensures Natural(whole + kept) * TenTo(k) == Natural(digits)
  {
    assert whole + (kept + Zeros(k)) == (whole + kept) + Zeros(k);
    TrailingZeros(whole + kept, k);
    LeadingZeros(digits, n);
  }

  lemma PlacedInteger(l: Literal, digits: string, exponent: int)
    requires Significant(digits) && exponent >= 0 && l == PlacedLiteral(l.negative, digits, exponent)
    ensures FractionDigits(l) == "" && Scaled(Mantissa(l), 0) == Scaled(Natural(digits), exponent)
  {
    assert l.whole + FractionDigits(l) == digits + Zeros(exponent);
    TrailingZeros(digits, exponent);
    Rescaled(Natural(digits), exponent, 0);
  }

  lemma PlacedValue(negative: bool, digits: string, exponent: int)
    requires Significant(digits)
    ensures Value(PlacedLiteral(negative, digits, exponent)) == Signed(negative, Scaled(Natural(digits), exponent))
  {
    var l := PlacedLiteral(negative, digits, exponent);
    if exponent >= 0 { PlacedInteger(l, digits, exponent); } else { PlacedFraction(l, digits, exponent); }
    PlainValue(l);
  }

  lemma PlainValue(l: Literal)
    requires l.exponent.None?
    ensures Value(l) == Signed(l.negative, Scaled(Mantissa(l), -|FractionDigits(l)|))
  {
  }

  // ---------- canonical numbers ----------

  /** No exponent, no redundant zeros, no signed zero. */
  predicate Canonical(l: Literal) {
    && WellFormed(l) && l.exponent.None?
    && (l.fraction.Some? ==> l.fraction.value[|l.fraction.value| - 1] != '0')
    && (l.negative ==> Mantissa(l) > 0)
  }

  const ZERO := Literal(false, "0", None, None)

  function Canonized(l: Literal): Literal {
    var digits := AllDigits(l);
    if digits == "" then ZERO else PlacedLiteral(l.negative, digits, ExponentValue(l) - |FractionDigits(l)|)
  }

  predicate InRange(l: Literal) {
    FloatFinite(Value(l)) && -308 <= ExponentValue(l) <= 308
  }

  lemma ScaledPositive(m: nat, e: int)
    ensures m > 0 ==> Scaled(m, e) > 0.0
    ensures m == 0 ==> Scaled(m, e) == 0.0
  {
    Pow10Positive(e);
  }

  lemma ScaledIncreasing(m: nat, n: nat, e: int)
    requires m < n
    ensures Scaled(m, e) < Scaled(n, e)
  {
    Pow10Positive(e);
    ProductIncreasing(m as real, n as real, Pow10(e));
  }

  lemma ProductIncreasing(a: real, b: real, p: real)
    requires a < b && p > 0.0
    ensures a * p < b * p
  {
  }

  lemma {:induction false} TenToIncreasing(m: nat, n: nat)
    requires m <= n
    ensures 1 <= TenTo(m) <= TenTo(n)
  {
    if m > 0 { TenToIncreasing(m - 1, n - 1); } else if n > 0 { TenToIncreasing(0, n - 1); }
  }

  lemma LeadingDigitCounts(s: string)
    requires Significant(s)
    ensures Natural(s) > 0
  {
    NaturalAtLeast(s);
    TenToIncreasing(0, |s| - 1);
  }

  lemma PlacedNonzero(negative: bool, digits: string, exponent: int)
    requires Significant(digits)
    ensures Mantissa(PlacedLiteral(negative, digits, exponent)) > 0
  {
    var l := PlacedLiteral(negative, digits, exponent);
    LeadingDigitCounts(digits);
    PlacedValue(negative, digits, exponent);
    ScaledPositive(Natural(digits), exponent);
    ScaledPositive(Mantissa(l), ExponentValue(l) - |FractionDigits(l)|);
  }

  lemma PlacedCanonical(negative: bool, digits: string, exponent: int)
    requires Significant(digits)
    ensures Canonical(PlacedLiteral(negative, digits, exponent))
  {
    PlacedNonzero(negative, digits, exponent);
    if exponent >= 0 { PlacedWhole(negative, digits, exponent); } else {
      PlacedDotted(negative, digits, exponent);
      FractionPlacedDigits(digits, exponent);
      var k := TrimRightDrops(FractionPlaced(digits, exponent));
    }
  }

  lemma ZeroCanonical()
    ensures Canonical(ZERO) && Value(ZERO) == 0.0 && Text(ZERO) == "0"
  {
    assert ZERO.whole + FractionDigits(ZERO) == "0";
    assert "0"[..0] == "";
    assert Natural("") == 0 && Natural("0") == 0;
    ScaledPositive(0, 0);
  }

  lemma AllDigitsKeepMantissa(l: Literal)
    requires WellFormed(l)
    ensures Mantissa(l) == Natural(AllDigits(l))
    ensures AllDigits(l) == "" || Significant(AllDigits(l))
  {
    var k := TrimLeftDrops(l.whole + FractionDigits(l));
    LeadingZeros(AllDigits(l), k);
  }

  lemma ZeroMantissa(l: Literal)
    requires Mantissa(l) == 0
    ensures Value(l) == 0.0
  {
    ScaledPositive(0, ExponentValue(l) - |FractionDigits(l)|);
  }

  lemma CanonizedValue(l: Literal)
    requires Significant(AllDigits(l)) && Mantissa(l) == Natural(AllDigits(l))
    ensures Value(PlacedLiteral(l.negative, AllDigits(l), ExponentValue(l) - |FractionDigits(l)|)) == Value(l)
  {
    PlacedValue(l.negative, AllDigits(l), ExponentValue(l) - |FractionDigits(l)|);
  }

  /** The rewritten number denotes exactly the original value. */
  lemma CanonizedExact(l: Literal)
    requires WellFormed(l)
    ensures Canonical(Canonized(l))
    ensures Value(Canonized(l)) == Value(l)
  {
    AllDigitsKeepMantissa(l);
    if AllDigits(l) == "" {
      assert Natural("") == 0;
      ZeroMantissa(l);
      ZeroCanonical();
    } else {
      CanonizedValue(l);
      PlacedCanonical(l.negative, AllDigits(l), ExponentValue(l) - |FractionDigits(l)|);
    }
  }

  lemma CanonizedText(l: Literal)
    requires WellFormed(l)
    ensures NormalizeLiteral(l) == if InRange(l) then Some(Text(Canonized(l))) else None
  {
    AllDigitsKeepMantissa(l);
    if AllDigits(l) != "" {
      PlacedText(l.negative, AllDigits(l), ExponentValue(l) - |FractionDigits(l)|);
    } else {
      ZeroCanonical();
    }
  }

  /** Acceptance and output: the canonical text of the same value, for exactly the numbers in range. */
  lemma NormalizeExact(l: Literal)
    requires WellFormed(l)
    ensures Normalize(Text(l)) == if InRange(l) then Some(Text(Canonized(l))) else None
    ensures TextValue(Text(Canonized(l))) == TextValue(Text(l)) == Value(l)
  {
    SplitText(l);
    CanonizedText(l);
    CanonizedExact(l);
    SplitText(Canonized(l));
  }

  // ---------- uniqueness ----------

  lemma MantissaEndsNonzero(l: Literal)
    requires Canonical(l) && l.fraction.Some?
    ensures Mantissa(l) % 10 != 0
  {
    var all := l.whole + FractionDigits(l);
    assert all[|all| - 1] == l.fraction.value[|l.fraction.value| - 1];
  }

  lemma SameScale(a: Literal, b: Literal)
    requires Canonical(a) && Canonical(b) && Value(a) == Value(b) && |FractionDigits(a)| <= |FractionDigits(b)|
    ensures |FractionDigits(a)| == |FractionDigits(b)| && Mantissa(a) == Mantissa(b) && a.negative == b.negative
  {
    var n, e := |FractionDigits(b)| - |FractionDigits(a)|, -|FractionDigits(b)|;
    SignDecided(a);
    SignDecided(b);
    Rescaled(Mantissa(a), n, e);
    CancelScale(Mantissa(a) * TenTo(n), Mantissa(b), e);
    if n > 0 {
      MantissaEndsNonzero(b);
      MultipleOfTen(Mantissa(a), n);
    }
  }

  lemma MultipleOfTen(m: nat, n: nat)
    ensures n > 0 ==> (m * TenTo(n)) % 10 == 0
    ensures n == 0 ==> m * TenTo(n) == m
  {
    if n > 0 {
      var q := m * TenTo(n - 1);
      assert m * TenTo(n) == 10 * q;
    }
  }

  lemma SignDecided(l: Literal)
    requires Canonical(l)
    ensures Value(l) == Signed(l.negative, Scaled(Mantissa(l), -|FractionDigits(l)|))
    ensures l.negative <==> Value(l) < 0.0
  {
    PlainValue(l);
    ScaledPositive(Mantissa(l), -|FractionDigits(l)|);
  }

  lemma CancelScale(m: nat, n: nat, e: int)
    requires Scaled(m, e) == Scaled(n, e)
    ensures m == n
  {
    if m < n { ScaledIncreasing(m, n, e); }
    if n < m { ScaledIncreasing(n, m, e); }
  }

  lemma LongerWholeIsLarger(a: Literal, b: Literal)
    requires Canonical(a) && Canonical(b) && |FractionDigits(a)| == |FractionDigits(b)| && |a.whole| < |b.whole|
    ensures Mantissa(a) < Mantissa(b)
  {
    var x, y := a.whole + FractionDigits(a), b.whole + FractionDigits(b);
    NaturalBelow(x);
    NaturalAtLeast(y);
    TenToIncreasing(|x|, |y| - 1);
  }

  /** A value has one canonical number. */
  lemma CanonicalUnique(a: Literal, b: Literal)
    requires Canonical(a) && Canonical(b) && Value(a) == Value(b)
    ensures a == b
  {
    if |FractionDigits(a)| <= |FractionDigits(b)| { SameScale(a, b); } else { SameScale(b, a); }
    if |a.whole| < |b.whole| { LongerWholeIsLarger(a, b); }
    if |b.whole| < |a.whole| { LongerWholeIsLarger(b, a); }
    var x, y := a.whole + FractionDigits(a), b.whole + FractionDigits(b);
    DigitsDetermined(x, y);
    assert a.whole == x[..|a.whole|] && b.whole == y[..|a.whole|];
    assert FractionDigits(a) == x[|a.whole|..] && FractionDigits(b) == y[|a.whole|..];
  }

  /** Two accepted numbers are rewritten to the same text exactly when they denote the same value. */
  lemma SameTextIffSameValue(a: Literal, b: Literal)
    requires WellFormed(a) && WellFormed(b) && InRange(a) && InRange(b)
    ensures Normalize(Text(a)) == Normalize(Text(b)) <==> Value(a) == Value(b)
  {
    NormalizeExact(a);
    NormalizeExact(b);
    CanonizedExact(a);
    CanonizedExact(b);
    SplitText(Canonized(a));
    SplitText(Canonized(b));
    if Value(a) == Value(b) {
      CanonicalUnique(Canonized(a), Canonized(b));
    }
  }

  /** A canonical text is accepted and left alone. */
  lemma NormalizeIdempotent(l: Literal)
    requires WellFormed(l) && InRange(l)
    ensures Normalize(Text(l)).Some? && Normalize(Normalize(Text(l)).value) == Normalize(Text(l))
  {
    NormalizeExact(l);
    CanonizedExact(l);
    var c := Canonized(l);
    NormalizeExact(c);
    CanonizedExact(c);
    CanonicalUnique(Canonized(c), c);
  }
}
