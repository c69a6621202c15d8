/**
 Rewriting of decimal number text (src/crypto.rs, section 3.2.2.3 of RFC 8785).

 `NumberValue` reads number text as the real number it denotes, without the functions of the program;
 the rewritings are proved to keep that number.
 */
module Decimal {
  import opened Wrappers
  import opened Text
  import opened Integers

  // ---------- Reading number text

  /** x * 10^k. */
  function Scale(x: real, k: int): real
    decreases if k < 0 then -k else k
  {
    if k == 0 then x else if k > 0 then Scale(x * 10.0, k - 1) else Scale(x / 10.0, k + 1)
  }

  predicate IsNegative(s: string) { s != "" && s[0] == '-' }

  function Unsigned(s: string): string {
    if s != "" && (s[0] == '-' || s[0] == '+') then s[1..] else s
  }

  /** An optional sign and digits. */
  function IntegerValue(s: string): int {
    var n: int := DigitsValue(Unsigned(s));
    if IsNegative(s) then -n else n
  }

  /** Digits with at most one decimal point. */
  function UnsignedValue(s: string): real {
    var dot := FindAny(s, {'.'});
    if dot == |s| then DigitsValue(s) as real
    else DigitsValue(s[..dot]) as real + Scale(DigitsValue(s[dot + 1..]) as real, -(|s| - dot - 1))
  }

  function Signed(negative: bool, x: real): real { if negative then -x else x }

  function SignedValue(s: string): real { Signed(IsNegative(s), UnsignedValue(Unsigned(s))) }

  const EXPONENT_MARKS: set<char> := {'e', 'E'}

  /** The number denoted by a mantissa with an optional exponent. */
  function NumberValue(s: string): real {
    var e := FindAny(s, EXPONENT_MARKS);
    if e == |s| then SignedValue(s) else Scale(SignedValue(s[..e]), IntegerValue(s[e + 1..]))
  }

  // ---------- The program

  /** `str::parse::<i32>`: an optional sign and at least one digit, in range. */
  function ParseI32(s: string): Option<int> {
    var digits := Unsigned(s);
    if digits == "" || !AllDigits(digits) then None
    else if I32_MIN <= IntegerValue(s) <= I32_MAX then Some(IntegerValue(s))
    else None
  }

  datatype Parsed = Parsed(negative: bool, digits: string, decimalPos: int, exponent: int)

  function ParseExponent(raw: string, pos: nat): Option<int>
    requires pos <= |raw|
  {
    if pos == |raw| then Some(0) else ParseI32(raw[pos + 1..])
  }

  function WithoutPoint(base: string): string {
    var dot := FindAny(base, {'.'});
    if dot < |base| then base[..dot] + base[dot + 1..] else base
  }

  function ParseNumber(raw: string): (r: Option<Parsed>)
    ensures r.Some? ==> r.value.digits != ""
  {
    var pos := FindAny(raw, EXPONENT_MARKS);
    var exponent := ParseExponent(raw, pos);
    if exponent.None? then None else
    var base := Unsigned(raw[..pos]);
    var digits := WithoutPoint(base);
    if digits == "" then None
    else Some(Parsed(IsNegative(raw[..pos]), digits, FindAny(base, {'.'}), exponent.value))
  }

  /**
   Number text the rewritings are meant for: accepted by `ParseNumber`, its digits are digits, and it is
   short enough for the 32-bit arithmetic on digit positions. The text of every finite double is of this kind.
   */
  predicate IsDecimal(raw: string) {
    var p := ParseNumber(raw);
    p.Some? && AllDigits(p.value.digits) &&
    |raw| + (if p.value.exponent < 0 then -p.value.exponent else p.value.exponent) <= I32_MAX
  }

  function Zeros(n: nat): (s: string)
    ensures |s| == n
  {
    if n == 0 then "" else Zeros(n - 1) + "0"
  }

  function SignText(negative: bool): string { if negative then "-" else "" }

  function TrimZeros(s: string): (t: string)
    ensures |t| <= |s|
  {
    if s != "" && s[|s| - 1] == '0' then TrimZeros(s[..|s| - 1]) else s
  }

  /** Places the decimal point `pos` digits into `digits`, padding with zeros on either side. */
  function PlacePoint(digits: string, pos: int): string {
    if pos <= 0 then "0." + Zeros(-pos) + digits
    else if pos >= |digits| then digits + Zeros(pos - |digits|)
    else digits[..pos] + "." + digits[pos..]
  }

  /** Drops the zeros at the end of a fraction, and the point when nothing is left of it. */
  function TrimFraction(s: string): string {
    var dot := FindAny(s, {'.'});
    if dot == |s| then s else
    var t := TrimZeros(s);
    if t != "" && t[|t| - 1] == '.' && dot == |t| - 1 then t[..|t| - 1] else t
  }

  function Expanded(raw: string): string {
    match ParseNumber(raw)
    case None => raw
    case Some(p) => TrimFraction(SignText(p.negative) + PlacePoint(p.digits, p.decimalPos + p.exponent))
  }

  /** Leading zeros dropped, keeping one digit; each moves the point one place to the left. */
  function TrimLeading(digits: string, pos: int): (string, int) {
    if |digits| > 1 && digits[0] == '0' then TrimLeading(digits[1..], pos - 1) else (digits, pos)
  }

  function TrimTrailing(digits: string): (t: string)
    ensures |t| <= |digits|
  {
    if |digits| > 1 && digits[|digits| - 1] == '0' then TrimTrailing(digits[..|digits| - 1]) else digits
  }

  /** An exponent always carries its sign. */
  function ExponentText(x: int): string {
    if x < 0 then "-" + NatText(-x) else "+" + NatText(x)
  }

  function Scientific(digits: string): string
    requires digits != ""
  {
    if |digits| == 1 then digits else digits[..1] + "." + digits[1..]
  }

  function InExponentForm(raw: string): string {
    match ParseNumber(raw)
    case None => raw
    case Some(p) =>
      var (stripped, pos) := TrimLeading(p.digits, p.decimalPos + p.exponent);
      var digits := TrimTrailing(stripped);
      if digits == "" then "0"
      else SignText(p.negative) + Scientific(digits) + "e" + ExponentText(pos - 1)
  }

  function DropLeadingZeros(s: string): string {
    if s != "" && s[0] == '0' then DropLeadingZeros(s[1..]) else s
  }

  function NormalizeExponent(raw: string): string {
    var pos := FindAny(raw, EXPONENT_MARKS);
    if pos == |raw| then raw else
    var part := raw[pos + 1..];
    var digits := DropLeadingZeros(Unsigned(part));
    raw[..pos] + ['e'] + ((if IsNegative(part) then "-" else "+") + if digits == "" then "0" else digits)
  }

  // ---------- Arithmetic of digits and powers of ten

  lemma ScaleStep(x: real, k: int)
    ensures Scale(x * 10.0, k) == Scale(x, k + 1)
    ensures Scale(x, 0) == x
  {
  }

  lemma {:induction false} ScaleAdd(x: real, j: int, k: int)
    ensures Scale(Scale(x, j), k) == Scale(x, j + k)
    decreases if j < 0 then -j else j
  {
    if j > 0 {
      ScaleAdd(x * 10.0, j - 1, k);
      ScaleStep(x, j - 1 + k);
    } else if j < 0 {
      ScaleAdd(x / 10.0, j + 1, k);
      ScaleStep(x / 10.0, j + k);
    }
  }

  lemma {:induction false} ScalePlus(x: real, y: real, k: int)
    ensures Scale(x + y, k) == Scale(x, k) + Scale(y, k)
    ensures Scale(-x, k) == -Scale(x, k)
    ensures Scale(0.0, k) == 0.0
    decreases if k < 0 then -k else k
  {
    if k > 0 {
      ScalePlus(x * 10.0, y * 10.0, k - 1);
    } else if k < 0 {
      ScalePlus(x / 10.0, y / 10.0, k + 1);
    }
  }

  lemma {:induction false} DigitsConcat(a: string, b: string)
    ensures DigitsValue(a + b) as real == Scale(DigitsValue(a) as real, |b|) + DigitsValue(b) as real
  {
    if b == "" {
      assert a + b == a;
    } else {
      var c := b[..|b| - 1];
      DigitsConcat(a, c);
      assert (a + b)[..|a + b| - 1] == a + c;
      var x := DigitsValue(a) as real;
      ScaleAdd(x, |c|, 1);
    }
  }

  lemma {:induction false} ZerosFacts(n: nat)
    ensures AllDigits(Zeros(n)) && DigitsValue(Zeros(n)) == 0
  {
    if n > 0 {
      ZerosFacts(n - 1);
      assert Zeros(n)[..n - 1] == Zeros(n - 1);
    }
  }

  // ---------- Value of assembled text

  lemma FractionValue(l: string, r: string)
    ensures DigitsValue(l) as real + Scale(DigitsValue(r) as real, -|r|) == Scale(DigitsValue(l + r) as real, -|r|)
  {
    hide DigitsValue;
    DigitsConcat(l, r);
    var x, y := DigitsValue(l) as real, DigitsValue(r) as real;
    ScalePlus(Scale(x, |r|), y, -|r|);
    ScaleAdd(x, |r|, -|r|);
  }

  lemma PointSplit(l: string, r: string)
    requires AllDigits(l)
    ensures var s := l + "." + r; FindAny(s, {'.'}) == |l| && s[..|l|] == l && s[|l| + 1..] == r
  {
    hide FindAny;
    assert l + "." + r == l + ['.'] + r;
    FindAnySplit(l, '.', r, {'.'});
  }

  lemma SplitValue(s: string, l: string, r: string)
    requires FindAny(s, {'.'}) == |l| < |s| && s[..|l|] == l && s[|l| + 1..] == r
    ensures UnsignedValue(s) == DigitsValue(l) as real + Scale(DigitsValue(r) as real, -|r|)
  {
    hide Scale, DigitsValue, FindAny;
    assert |r| == |s| - |l| - 1;
  }

  lemma PointValue(l: string, r: string)
    requires AllDigits(l)
    ensures UnsignedValue(l + "." + r) == Scale(DigitsValue(l + r) as real, -|r|)
  {
    hide Scale, DigitsValue, FindAny, AllDigits, UnsignedValue;
    PointSplit(l, r);
    SplitValue(l + "." + r, l, r);
    FractionValue(l, r);
  }

  lemma DigitsOnlyValue(d: string)
    requires AllDigits(d)
    ensures UnsignedValue(d) == DigitsValue(d) as real
  {
    FindAnyNone(d, {'.'});
  }

  /** Digits and points only. */
  predicate IsPlain(s: string) { s != "" && forall k :: 0 <= k < |s| ==> IsDigit(s[k]) || s[k] == '.' }

  lemma SignedTextValue(negative: bool, u: string)
    requires IsPlain(u)
    ensures SignedValue(SignText(negative) + u) == Signed(negative, UnsignedValue(u))
    ensures FindAny(SignText(negative) + u, EXPONENT_MARKS) == |SignText(negative) + u|
    ensures NumberValue(SignText(negative) + u) == Signed(negative, UnsignedValue(u))
  {
    hide Scale, DigitsValue, UnsignedValue, IntegerValue;
    var s := SignText(negative) + u;
    assert Unsigned(s) == u && IsNegative(s) == negative by {
      assert s[|SignText(negative)|..] == u && s[|SignText(negative)|] == u[0];
    }
    assert forall k :: 0 <= k < |s| ==> s[k] !in EXPONENT_MARKS;
    FindAnyNone(s, EXPONENT_MARKS);
  }

  lemma ExponentTextValue(m: string, mark: char, x: string)
    requires mark in EXPONENT_MARKS && forall k :: 0 <= k < |m| ==> m[k] !in EXPONENT_MARKS
    ensures NumberValue(m + [mark] + x) == Scale(SignedValue(m), IntegerValue(x))
  {
    FindAnySplit(m, mark, x, EXPONENT_MARKS);
  }

  // ---------- Parsing keeps the number

  /** What the four parts found by `ParseNumber` stand for: sign * digits * 10^(decimalPos - |digits| + exponent). */
  function ParsedValue(p: Parsed): real {
    Scale(Signed(p.negative, DigitsValue(p.digits) as real), p.decimalPos - |p.digits| + p.exponent)
  }

  lemma AllDigitsConcat(a: string, b: string)
    ensures AllDigits(a + b) <==> AllDigits(a) && AllDigits(b)
  {
    var s := a + b;
    assert forall k :: 0 <= k < |a| ==> s[k] == a[k];
    assert forall k :: 0 <= k < |b| ==> s[|a| + k] == b[k];
  }

  lemma UnsignedSplit(base: string) returns (l: string, r: string)
    ensures WithoutPoint(base) == l + r && FindAny(base, {'.'}) == |l|
    ensures UnsignedValue(base) == DigitsValue(l) as real + Scale(DigitsValue(r) as real, -|r|)
  {
    var dot := FindAny(base, {'.'});
    l, r := base[..dot], if dot < |base| then base[dot + 1..] else "";
    if dot == |base| { assert l == base && l + r == base; }
  }

  /** Removing the point of a mantissa divides it by one power of ten for each digit behind the point. */
  lemma UnsignedParse(base: string)
    ensures UnsignedValue(base) ==
      Scale(DigitsValue(WithoutPoint(base)) as real, FindAny(base, {'.'}) - |WithoutPoint(base)|)
  {
    hide Scale, DigitsValue, UnsignedValue, FindAny, WithoutPoint;
    var l, r := UnsignedSplit(base);
    FractionValue(l, r);
  }

  lemma ParseKeepsValue(raw: string)
    requires IsDecimal(raw)
    ensures NumberValue(raw) == ParsedValue(ParseNumber(raw).value)
  {
    hide Scale, DigitsValue, UnsignedValue, FindAny, WithoutPoint, Unsigned;
    var p := ParseNumber(raw).value;
    var pos := FindAny(raw, EXPONENT_MARKS);
    if pos == |raw| { assert raw[..pos] == raw; }
    UnsignedParse(Unsigned(raw[..pos]));
    var x, k := DigitsValue(p.digits) as real, p.decimalPos - |p.digits|;
    ScalePlus(x, 0.0, k);
    ScaleAdd(Signed(p.negative, x), k, p.exponent);
    ScaleStep(SignedValue(raw), 0);
  }

  // ---------- Expanding an exponent

  /** Mantissa text with fraction digits `r`; no point when there are none. */
  function PointText(l: string, r: string): string { if r == "" then l else l + "." + r }

  /** A fraction that is absent or ends in a non-zero digit. */
  predicate IsTrimmed(r: string) { AllDigits(r) && (r != "" ==> r[|r| - 1] != '0') }

  lemma {:induction false} TrimZerosKeepsValue(l: string, r: string)
    requires AllDigits(r)
    ensures IsTrimmed(TrimZeros(r))
    ensures TrimZeros(l + "." + r) == l + "." + TrimZeros(r)
    ensures Scale(DigitsValue(l + TrimZeros(r)) as real, -|TrimZeros(r)|) == Scale(DigitsValue(l + r) as real, -|r|)
  {
    var s := l + "." + r;
    if r == "" {
      assert s[|s| - 1] == '.';
    } else {
      assert s[|s| - 1] == r[|r| - 1];
      if r[|r| - 1] == '0' {
        var q := r[..|r| - 1];
        TrimZerosKeepsValue(l, q);
        assert s[..|s| - 1] == l + "." + q;
        assert (l + r)[..|l + r| - 1] == l + q;
        ScaleStep(DigitsValue(l + q) as real, -|r|);
      }
    }
  }

  lemma TrimFractionForm(l: string, r: string)
    requires AllDigits(r) && forall k :: 0 <= k < |l| ==> l[k] != '.'
    ensures TrimFraction(l + "." + r) == PointText(l, TrimZeros(r))
  {
    hide TrimZeros, FindAny, DigitsValue, Scale;
    TrimZerosKeepsValue(l, r);
    FindAnySplit(l, '.', r, {'.'});
    var t := l + "." + TrimZeros(r);
    if TrimZeros(r) != "" {
      assert t[|t| - 1] == TrimZeros(r)[|TrimZeros(r)| - 1];
    } else {
      assert t[..|t| - 1] == l;
    }
  }

  lemma ZeroDigit()
    ensures DigitsValue("0") == 0
  {
    assert "0"[..0] == "" && DigitsValue("") == 0;
  }

  lemma LeadingZeros(l: string, d: string)
    requires DigitsValue(l) == 0
    ensures DigitsValue(l + d) == DigitsValue(d)
  {
    DigitsConcat(l, d);
    ScalePlus(0.0, 0.0, |d|);
  }

  predicate StartsWithZero(s: string) { s != "" && s[0] == '0' }

  /** The digits before and behind the point that `PlacePoint` places. */
  function WholePart(digits: string, pos: int): string {
    if pos <= 0 then "0" else if pos >= |digits| then digits + Zeros(pos - |digits|) else digits[..pos]
  }

  function FractionPart(digits: string, pos: int): string {
    if pos <= 0 then Zeros(-pos) + digits else if pos >= |digits| then "" else digits[pos..]
  }

  lemma PlacePointForm(digits: string, pos: int)
    ensures PlacePoint(digits, pos) ==
      if pos < |digits| || pos <= 0 then WholePart(digits, pos) + "." + FractionPart(digits, pos)
      else WholePart(digits, pos)
  {
    if pos <= 0 {
      assert "0." + Zeros(-pos) + digits == "0" + "." + (Zeros(-pos) + digits);
    }
  }

  lemma PlacedDigits(digits: string, pos: int)
    requires AllDigits(digits) && digits != ""
    ensures AllDigits(WholePart(digits, pos)) && WholePart(digits, pos) != "" && AllDigits(FractionPart(digits, pos))
    ensures !StartsWithZero(digits) ==> WholePart(digits, pos) == "0" || !StartsWithZero(WholePart(digits, pos))
  {
    if pos <= 0 {
      ZerosFacts(-pos);
    } else if pos >= |digits| {
      ZerosFacts(pos - |digits|);
    }
  }

  /** The digits stay the same and the point moves: this multiplies by 10^(pos - |digits|). */
  lemma PlacedValue(digits: string, pos: int)
    ensures var l, r := WholePart(digits, pos), FractionPart(digits, pos);
      Scale(DigitsValue(l + r) as real, -|r|) == Scale(DigitsValue(digits) as real, pos - |digits|)
  {
    hide Scale, DigitsValue, Zeros;
    var x := DigitsValue(digits) as real;
    if pos <= 0 {
      ZerosFacts(-pos);
      LeadingZeros(Zeros(-pos), digits);
      ZeroDigit();
      LeadingZeros("0", Zeros(-pos) + digits);
    } else if pos >= |digits| {
      var n := pos - |digits|;
      ZerosFacts(n);
      DigitsConcat(digits, Zeros(n));
      ScaleStep(Scale(x, n), 0);
      assert WholePart(digits, pos) + "" == WholePart(digits, pos);
    } else {
      assert digits[..pos] + digits[pos..] == digits;
    }
  }

  /** Fixed-point text: an optional minus, digits, and a fraction without a zero at its end. */
  ghost predicate IsFixed(s: string, negative: bool, l: string, r: string) {
    s == SignText(negative) + PointText(l, r) && l != "" && AllDigits(l) && IsTrimmed(r)
  }

  lemma FixedTextValue(s: string, negative: bool, l: string, r: string)
    requires IsFixed(s, negative, l, r)
    ensures NumberValue(s) == Signed(negative, Scale(DigitsValue(l + r) as real, -|r|))
    ensures forall k :: 0 <= k < |s| ==> s[k] !in EXPONENT_MARKS
  {
    SignedTextValue(negative, PointText(l, r));
    if r == "" {
      DigitsOnlyValue(l);
      assert l + r == l;
    } else {
      PointValue(l, r);
    }
  }

  lemma PlacedNoFraction(digits: string, pos: int)
    requires 0 < pos && |digits| <= pos
    ensures FractionPart(digits, pos) == ""
  {
  }

  lemma ExpandedForm(negative: bool, digits: string, pos: int)
    requires AllDigits(digits) && digits != ""
    ensures TrimFraction(SignText(negative) + PlacePoint(digits, pos)) ==
      SignText(negative) + PointText(WholePart(digits, pos), TrimZeros(FractionPart(digits, pos)))
  {
    hide TrimZeros, PlacePoint, FindAny, Zeros, WholePart, FractionPart;
    var l, r, sign := WholePart(digits, pos), FractionPart(digits, pos), SignText(negative);
    PlacePointForm(digits, pos);
    PlacedDigits(digits, pos);
    if pos < |digits| || pos <= 0 {
      TrimFractionForm(sign + l, r);
      assert sign + (l + "." + r) == (sign + l) + "." + r;
      assert sign + PointText(l, TrimZeros(r)) == PointText(sign + l, TrimZeros(r));
    } else {
      PlacedNoFraction(digits, pos);
      FindAnyNone(sign + l, {'.'});
    }
  }

  /**
   `expand_exponent` is exact. Its text is in fixed-point form, so it has no exponent, no zero at the end of
   a fraction and no dangling point; and it has no superfluous leading zero when the input has none.
   */
  lemma ExpandedIsExact(raw: string)
    requires IsDecimal(raw)
    ensures NumberValue(Expanded(raw)) == NumberValue(raw)
    ensures var p := ParseNumber(raw).value;
      var l := WholePart(p.digits, p.decimalPos + p.exponent);
      IsFixed(Expanded(raw), p.negative, l, TrimZeros(FractionPart(p.digits, p.decimalPos + p.exponent))) &&
      (!StartsWithZero(p.digits) ==> l == "0" || !StartsWithZero(l))
  {
    hide Scale, DigitsValue, TrimFraction, PlacePoint, NumberValue, ParseNumber, FindAny, WholePart, FractionPart,
      TrimZeros;
    ParseKeepsValue(raw);
    var p := ParseNumber(raw).value;
    var pos, x := p.decimalPos + p.exponent, DigitsValue(p.digits) as real;
    var l, r := WholePart(p.digits, pos), FractionPart(p.digits, pos);
    ScalePlus(x, 0.0, pos - |p.digits|);
    ExpandedForm(p.negative, p.digits, pos);
    PlacedDigits(p.digits, pos);
    PlacedValue(p.digits, pos);
    TrimZerosKeepsValue(l, r);
    FixedTextValue(Expanded(raw), p.negative, l, TrimZeros(r));
  }

  // ---------- Exponent form

  lemma {:induction false} TrimLeadingFacts(digits: string, pos: int)
    requires AllDigits(digits) && digits != ""
    ensures var (t, q) := TrimLeading(digits, pos);
      AllDigits(t) && t != "" && (t == "0" || !StartsWithZero(t)) &&
      DigitsValue(t) == DigitsValue(digits) && q - |t| == pos - |digits|
  {
    hide DigitsValue;
    if |digits| > 1 && digits[0] == '0' {
      assert digits == "0" + digits[1..];
      ZeroDigit();
      LeadingZeros("0", digits[1..]);
      TrimLeadingFacts(digits[1..], pos - 1);
    } else if digits[0] == '0' {
      assert digits == "0";
    }
  }

  lemma {:induction false} TrimTrailingFacts(digits: string, pos: int)
    requires AllDigits(digits) && digits != ""
    ensures var t := TrimTrailing(digits);
      AllDigits(t) && t != "" && t[0] == digits[0] && (|t| == 1 || IsTrimmed(t)) &&
      Scale(DigitsValue(t) as real, pos - |t|) == Scale(DigitsValue(digits) as real, pos - |digits|)
  {
    if |digits| > 1 && digits[|digits| - 1] == '0' {
      var q := digits[..|digits| - 1];
      TrimTrailingFacts(q, pos);
      ScaleStep(DigitsValue(q) as real, pos - |digits|);
    }
  }

  lemma ScientificPlain(digits: string)
    requires AllDigits(digits) && digits != ""
    ensures IsPlain(Scientific(digits))
  {
  }

  lemma ScientificValue(digits: string)
    requires AllDigits(digits) && digits != ""
    ensures UnsignedValue(Scientific(digits)) == Scale(DigitsValue(digits) as real, 1 - |digits|)
  {
    hide DigitsValue, Scale, UnsignedValue, FindAny;
    if |digits| == 1 {
      DigitsOnlyValue(digits);
      ScaleStep(DigitsValue(digits) as real, 0);
    } else {
      var l, r := digits[..1], digits[1..];
      PointValue(l, r);
      assert l + r == digits;
    }
  }

  lemma ExponentTextFacts(x: int)
    ensures IntegerValue(ExponentText(x)) == x
  {
    hide DigitsValue, NatText;
    var n := if x < 0 then -x else x;
    NatTextValue(n);
    assert ExponentText(x)[1..] == NatText(n);
  }

  /**
   One digit before the point, no zero at either end of the digits unless the number is zero, and a signed exponent.
   */
  ghost predicate IsScientific(s: string, negative: bool, digits: string, x: int) {
    digits != "" && AllDigits(digits) && (|digits| == 1 || (!StartsWithZero(digits) && IsTrimmed(digits))) &&
    s == SignText(negative) + Scientific(digits) + "e" + ExponentText(x)
  }

  lemma ScientificTextValue(s: string, negative: bool, digits: string, x: int)
    requires IsScientific(s, negative, digits, x)
    ensures NumberValue(s) == Signed(negative, Scale(DigitsValue(digits) as real, x + 1 - |digits|))
  {
    hide DigitsValue, Scale, UnsignedValue, NumberValue, SignedValue, IntegerValue, ExponentText, Scientific, FindAny;
    var y := DigitsValue(digits) as real;
    var m := SignText(negative) + Scientific(digits);
    ScientificValue(digits);
    ScientificPlain(digits);
    SignedTextValue(negative, Scientific(digits));
    assert forall k :: 0 <= k < |m| ==> m[k] !in EXPONENT_MARKS;
    ExponentTextValue(m, 'e', ExponentText(x));
    ExponentTextFacts(x);
    ScalePlus(Scale(y, 1 - |digits|), 0.0, x);
    ScaleAdd(y, 1 - |digits|, x);
  }

  /** `to_exponent` is exact, and its text is in scientific form. */
  lemma InExponentFormIsExact(raw: string)
    requires IsDecimal(raw)
    ensures NumberValue(InExponentForm(raw)) == NumberValue(raw)
    ensures var p := ParseNumber(raw).value;
      var (t, pos) := TrimLeading(p.digits, p.decimalPos + p.exponent);
      IsScientific(InExponentForm(raw), p.negative, TrimTrailing(t), pos - 1)
  {
    hide Scale, DigitsValue, NumberValue, ParseNumber, TrimLeading, TrimTrailing, Scientific;
    ParseKeepsValue(raw);
    var p := ParseNumber(raw).value;
    var y := DigitsValue(p.digits) as real;
    ScalePlus(y, 0.0, p.decimalPos + p.exponent - |p.digits|);
    TrimLeadingFacts(p.digits, p.decimalPos + p.exponent);
    var (t, pos) := TrimLeading(p.digits, p.decimalPos + p.exponent);
    TrimTrailingFacts(t, pos);
    ScientificTextValue(InExponentForm(raw), p.negative, TrimTrailing(t), pos - 1);
  }

  lemma {:induction false} DropLeadingZerosFacts(s: string)
    requires AllDigits(s)
    ensures AllDigits(DropLeadingZeros(s)) && DigitsValue(DropLeadingZeros(s)) == DigitsValue(s)
  {
    hide DigitsValue;
    if s != "" && s[0] == '0' {
      assert s == "0" + s[1..];
      ZeroDigit();
      LeadingZeros("0", s[1..]);
      DropLeadingZerosFacts(s[1..]);
    }
  }

  lemma ExponentDigits(raw: string)
    requires IsDecimal(raw)
    ensures var pos := FindAny(raw, EXPONENT_MARKS); pos < |raw| ==> AllDigits(Unsigned(raw[pos + 1..]))
  {
    hide DigitsValue, FindAny, WithoutPoint;
  }

  /** `normalize_exponent` is exact. */
  lemma NormalizeIsExact(raw: string)
    requires IsDecimal(raw)
    ensures NumberValue(NormalizeExponent(raw)) == NumberValue(raw)
  {
    hide Scale, DigitsValue, SignedValue, FindAny, DropLeadingZeros, IntegerValue, IsDecimal, Unsigned;
    ExponentDigits(raw);
    var pos := FindAny(raw, EXPONENT_MARKS);
    if pos < |raw| {
      var part := raw[pos + 1..];
      var digits := DropLeadingZeros(Unsigned(part));
      DropLeadingZerosFacts(Unsigned(part));
      var sign := if IsNegative(part) then "-" else "+";
      var x := sign + if digits == "" then "0" else digits;
      SameInteger(part, digits, x);
      ExponentTextValue(raw[..pos], 'e', x);
    }
  }

  lemma SameInteger(part: string, digits: string, x: string)
    requires DigitsValue(digits) == DigitsValue(Unsigned(part))
    requires AllDigits(digits)
    requires x == (if IsNegative(part) then "-" else "+") + if digits == "" then "0" else digits
    ensures IntegerValue(x) == IntegerValue(part)
  {
    hide DigitsValue;
    ZeroDigit();
    EmptyDigits();
    assert Unsigned(x) == if digits == "" then "0" else digits;
  }

  lemma EmptyDigits()
    ensures DigitsValue("") == 0
  {
  }

  // ---------- Which text is number text

  /** A sign, digits, and perhaps a point and more digits. */
  ghost predicate IsMantissaText(m: string, negative: bool, l: string, r: string) {
    AllDigits(l) && AllDigits(r) && l + r != "" &&
    (m == SignText(negative) + (l + "." + r) || (r == "" && m == SignText(negative) + l))
  }

  lemma UnsignedParts(u: string, l: string, r: string)
    requires AllDigits(l) && AllDigits(r) && (u == l + "." + r || (r == "" && u == l))
    ensures WithoutPoint(u) == l + r && FindAny(u, {'.'}) == |l|
  {
    hide FindAny;
    if u == l + "." + r {
      PointSplit(l, r);
    } else {
      FindAnyNone(l, {'.'});
      assert l + r == l;
    }
  }

  lemma SignParts(negative: bool, u: string)
    requires u != "" && (IsDigit(u[0]) || u[0] == '.')
    ensures IsNegative(SignText(negative) + u) == negative && Unsigned(SignText(negative) + u) == u
  {
  }

  lemma MantissaParts(m: string, negative: bool, l: string, r: string)
    requires IsMantissaText(m, negative, l, r)
    ensures IsNegative(m) == negative && WithoutPoint(Unsigned(m)) == l + r
    ensures forall k :: 0 <= k < |m| ==> m[k] !in EXPONENT_MARKS
    ensures FindAny(Unsigned(m), {'.'}) == |l|
  {
    hide FindAny, WithoutPoint, Unsigned, IsNegative;
    var u := if m == SignText(negative) + (l + "." + r) then l + "." + r else l;
    UnsignedParts(u, l, r);
    SignParts(negative, u);
  }

  lemma SignedInteger(sign: string, d: string)
    requires sign in {"", "+", "-"} && AllDigits(d) && d != "" && DigitsValue(d) <= I32_MAX
    ensures ParseI32(sign + d) == Some(if sign == "-" then 0 - DigitsValue(d) else DigitsValue(d))
  {
    hide DigitsValue;
    assert Unsigned(sign + d) == d;
  }

  /** Everything a JSON document can write for a number is number text, as long as it is short enough. */
  lemma DecimalsAreAccepted(m: string, negative: bool, l: string, r: string, mark: char, sign: string, d: string)
    requires IsMantissaText(m, negative, l, r)
    ensures |m| <= I32_MAX ==> IsDecimal(m) && ParseNumber(m) == Some(Parsed(negative, l + r, |l|, 0))
    ensures
      var raw := m + [mark] + (sign + d);
      mark in {'e', 'E'} && sign in {"", "+", "-"} && AllDigits(d) && d != "" && |raw| + DigitsValue(d) <= I32_MAX ==>
        IsDecimal(raw) &&
        ParseNumber(raw) ==
          Some(Parsed(negative, l + r, |l|, if sign == "-" then 0 - DigitsValue(d) else DigitsValue(d)))
  {
    hide DigitsValue, FindAny, WithoutPoint, Unsigned, IsNegative, ParseI32;
    MantissaParts(m, negative, l, r);
    AllDigitsConcat(l, r);
    FindAnyNone(m, EXPONENT_MARKS);
    assert m[..|m|] == m;
    var raw := m + [mark] + (sign + d);
    if mark in {'e', 'E'} && sign in {"", "+", "-"} && AllDigits(d) && d != "" && |raw| + DigitsValue(d) <= I32_MAX {
      FindAnySplit(m, mark, sign + d, EXPONENT_MARKS);
      SignedInteger(sign, d);
    }
  }

  // ---------- The loops of the program

  /** Every digit position the rewritings compute for such text fits 32 bits. */
  lemma PositionsFit(raw: string)
    requires IsDecimal(raw)
    ensures var p := ParseNumber(raw).value;
      var pos := p.decimalPos + p.exponent;
      I32_MIN <= p.exponent <= I32_MAX && p.decimalPos <= I32_MAX && I32_MIN < pos - |p.digits| && pos <= I32_MAX &&
      I32_MIN < TrimLeading(p.digits, pos).1 - 1
  {
    hide DigitsValue, TrimLeading;
    var p := ParseNumber(raw).value;
    TrimLeadingFacts(p.digits, p.decimalPos + p.exponent);
  }

  /** Pads with zeros on either side, or puts the point between the digits. */
  method PutPoint(sign: string, digits: string, decimalPos: int) returns (value: string)
    ensures value == sign + PlacePoint(digits, decimalPos)
  {
    hide Zeros;
    if decimalPos <= 0 {
      value := sign + ("0." + Zeros(-decimalPos) + digits);
    } else if decimalPos >= |digits| {
      value := sign + (digits + Zeros(decimalPos - |digits|));
    } else {
      value := sign + (digits[..decimalPos] + "." + digits[decimalPos..]);
    }
  }

  /** Places the point, pops the zeros at the end of the text, then a point left dangling. */
  method ExpandExponent(raw: string) returns (value: string)
    ensures value == Expanded(raw)
  {
    hide ParseNumber, PlacePoint, TrimFraction, SignText;
    var parsed := ParseNumber(raw);
    if parsed.None? { return raw; }
    value := PutPoint(SignText(parsed.value.negative), parsed.value.digits,
      parsed.value.decimalPos + parsed.value.exponent);
    value := PopZeros(value);
  }

  method PopZeros(text: string) returns (value: string)
    ensures value == TrimFraction(text)
  {
    hide FindAny;
    value := text;
    var dot := FindAny(value, {'.'});
    if dot < |value| {
      while value != "" && value[|value| - 1] == '0'
        invariant TrimZeros(value) == TrimZeros(text)
        decreases |value|
      {
        value := value[..|value| - 1];
      }
      if value != "" && value[|value| - 1] == '.' && dot == |value| - 1 {
        value := value[..|value| - 1];
      }
    }
  }

  /** Removes zeros at both ends of the digits; those in front move the point. */
  method ToExponent(raw: string) returns (value: string)
    ensures value == InExponentForm(raw)
  {
    hide ParseNumber, NatText, Scientific;
    var parsed := ParseNumber(raw);
    if parsed.None? { return raw; }
    var digits, decimalPos := RemoveZeros(parsed.value.digits, parsed.value.decimalPos + parsed.value.exponent);
    if digits == "" { return "0"; }
    value := SignText(parsed.value.negative) + Scientific(digits) + "e" + ExponentText(decimalPos - 1);
  }

  method RemoveZeros(all: string, pos: int) returns (digits: string, decimalPos: int)
    ensures digits == TrimTrailing(TrimLeading(all, pos).0) && decimalPos == TrimLeading(all, pos).1
  {
    digits, decimalPos := all, pos;
    while |digits| > 1 && digits[0] == '0'
      invariant TrimLeading(digits, decimalPos) == TrimLeading(all, pos)
    {
      digits := digits[1..];
      decimalPos := decimalPos - 1;
    }
    while |digits| > 1 && digits[|digits| - 1] == '0'
      invariant TrimTrailing(digits) == TrimTrailing(TrimLeading(all, pos).0)
    {
      digits := digits[..|digits| - 1];
    }
  }
}
