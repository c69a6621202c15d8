/**
 When a double and the integer it equals have the same canonical text (src/crypto.rs): equal numbers need not.
 */
module FloatText {
  import opened Wrappers
  import opened Text
  import opened Decimal
  import opened Json
  import opened JsonNumbers

  // ---------- Decimal text of an integer

  /** Digits without a leading zero are the text of their value. */
  lemma {:induction false} DigitsAreText(d: string)
    requires AllDigits(d) && d != "" && (|d| == 1 || !StartsWithZero(d))
    ensures d == NatText(DigitsValue(d))
    ensures !StartsWithZero(d) ==> DigitsValue(d) > 0
  {
    var q := d[..|d| - 1];
    if |d| == 1 {
      assert DigitsValue(q) == 0;
    } else {
      assert q[0] == d[0];
      DigitsAreText(q);
      assert d == q + [d[|d| - 1]];
    }
  }

  lemma {:induction false} NatTextHasNoLeadingZero(n: nat)
    requires n > 0
    ensures NatText(n) != "" && !StartsWithZero(NatText(n))
  {
    if n >= 10 { NatTextHasNoLeadingZero(n / 10); }
  }

  /** Digits are the text of their non-zero value exactly when they have no leading zero. */
  lemma DigitsAreTextIff(d: string)
    requires AllDigits(d) && d != "" && DigitsValue(d) > 0
    ensures d == NatText(DigitsValue(d)) <==> !StartsWithZero(d)
  {
    hide DigitsValue, NatText;
    if StartsWithZero(d) {
      NatTextHasNoLeadingZero(DigitsValue(d));
    } else {
      DigitsAreText(d);
    }
  }

  lemma {:induction false} ScaledInteger(n: int, k: nat) returns (m: int)
    ensures Scale(n as real, k) == m as real && (k > 0 ==> m % 10 == 0)
    decreases k
  {
    if k == 0 {
      m := n;
    } else {
      m := ScaledInteger(n * 10, k - 1);
      if k == 1 { assert m as real == (n * 10) as real; }
    }
  }

  /** A fraction that does not end in zero is not an integer. */
  lemma FractionIsNoInteger(l: string, r: string, n: int)
    requires IsTrimmed(r) && r != ""
    ensures Scale(DigitsValue(l + r) as real, -|r|) != n as real
  {
    hide Scale;
    var d := l + r;
    var x := Scale(DigitsValue(d) as real, -|r|);
    ScaleAdd(DigitsValue(d) as real, -|r|, |r|);
    ScaleStep(DigitsValue(d) as real, 0);
    assert d[|d| - 1] == r[|r| - 1];
    var m := ScaledInteger(n, |r|);
    assert m != DigitsValue(d);
  }

  // ---------- Fixed-point text of an integer

  lemma IntTextSigned(negative: bool, n: nat)
    requires n > 0
    ensures IntText(if negative then 0 - n else n) == SignText(negative) + NatText(n)
  {
  }

  /** Fixed-point text of a non-zero integer has no fraction, and is the integer's text unless it starts with a zero. */
  lemma FixedIntegerText(s: string, negative: bool, l: string, r: string, i: int)
    requires IsFixed(s, negative, l, r) && NumberValue(s) == i as real && i != 0
    ensures DigitsValue(l) > 0
    ensures s == IntText(i) <==> !StartsWithZero(l)
  {
    hide NumberValue, Scale, DigitsValue, NatText, IntText;
    FixedTextValue(s, negative, l, r);
    var x := Scale(DigitsValue(l + r) as real, -|r|);
    if r != "" {
      FractionIsNoInteger(l, r, if negative then -i else i);
      assert false;
    }
    assert l + r == l;
    ScaleStep(DigitsValue(l) as real, 0);
    DigitsAreTextIff(l);
    IntTextSigned(negative, DigitsValue(l));
    var n := NatText(DigitsValue(l));
    var t := SignText(negative);
    assert (t + l)[|t|..] == l && (t + n)[|t|..] == n;
  }

  lemma WholePartZero(digits: string, pos: int)
    requires AllDigits(digits) && digits != "" && DigitsValue(WholePart(digits, pos)) > 0
    ensures StartsWithZero(WholePart(digits, pos)) <==> StartsWithZero(digits)
  {
    ZeroDigit();
  }

  lemma ExpandedIntegerText(raw: string, i: int)
    requires IsDecimal(raw) && NumberValue(raw) == i as real && i != 0
    ensures Expanded(raw) == IntText(i) <==> !StartsWithZero(ParseNumber(raw).value.digits)
  {
    hide NumberValue, Scale, DigitsValue, NatText, IntText, Expanded, ParseNumber, WholePart, FractionPart, IsFixed;
    ExpandedIsExact(raw);
    var p := ParseNumber(raw).value;
    var l := WholePart(p.digits, p.decimalPos + p.exponent);
    FixedIntegerText(Expanded(raw), p.negative, l, TrimZeros(FractionPart(p.digits, p.decimalPos + p.exponent)), i);
    WholePartZero(p.digits, p.decimalPos + p.exponent);
  }

  // ---------- The condition

  const E21 := 1_000_000_000_000_000_000_000

  predicate HasExponent(raw: string) { FindAny(raw, EXPONENT_MARKS) < |raw| }

  /** The text of a double prints like the integer `i`: there it is written out, and without a superfluous zero. */
  predicate PrintsLikeInteger(raw: string, i: int)
    requires IsDecimal(raw)
  {
    i == 0 ||
    (-E21 < i < E21 && if HasExponent(raw) then !StartsWithZero(ParseNumber(raw).value.digits) else raw == IntText(i))
  }

  lemma IntTextHasNoMark(i: int)
    ensures forall k :: 0 <= k < |IntText(i)| ==> IntText(i)[k] !in EXPONENT_MARKS
  {
    hide NatText;
    NatTextValue(if i < 0 then -i else i);
  }

  lemma ExponentFormHasMark(raw: string)
    requires IsDecimal(raw)
    ensures 'e' in InExponentForm(raw)
    ensures HasExponent(raw) ==> 'e' in NormalizeExponent(raw)
  {
    hide NumberValue, FindAny, ParseNumber, TrimLeading, TrimTrailing, InExponentForm, Scientific, ExponentText,
      DropLeadingZeros, Unsigned;
    InExponentFormIsExact(raw);
    var p := ParseNumber(raw).value;
    var (t, pos) := TrimLeading(p.digits, p.decimalPos + p.exponent);
    var m := SignText(p.negative) + Scientific(TrimTrailing(t));
    assert InExponentForm(raw)[|m|] == 'e';
    var mark := FindAny(raw, EXPONENT_MARKS);
    if HasExponent(raw) { assert NormalizeExponent(raw)[mark] == 'e'; }
  }

  /**
   A double equal to an integer has the integer's canonical text exactly when both are zero, or the integer has at
   most 21 digits and the double is written with an exponent and no superfluous leading zero, or just like the integer.
   */
  lemma FloatPrintsLikeIntegerIff(raw: string, i: int)
    requires IsDecimal(raw) && NumberMeaning(Float(raw)) == NumberMeaning(Integer(i))
    ensures NumberText(Float(raw)) == NumberText(Integer(i)) <==> PrintsLikeInteger(raw, i)
  {
    hide NumberValue, IsDecimal, IntText, Expanded, InExponentForm, NormalizeExponent, ParseNumber, FindAny;
    ZeroText();
    IntTextHasNoMark(i);
    ExponentFormHasMark(raw);
    if i != 0 { ExpandedIntegerText(raw, i); }
  }

  // ---------- When the text has an exponent

  /** The text has an exponent. */
  ghost predicate HasMark(t: string) { exists k :: 0 <= k < |t| && (t[k] == 'e' || t[k] == 'E') }

  /** A sign, and digits without a superfluous zero. */
  ghost predicate IsExponent(x: string) {
    2 <= |x| && (x[0] == '+' || x[0] == '-') && (forall k :: 1 <= k < |x| ==> '0' <= x[k] <= '9') &&
    (x[1] == '0' ==> |x| == 2)
  }

  /** A digit other than zero, and then nothing, or a point and digits of which the last is not zero. */
  ghost predicate IsMantissa(m: string) {
    m != "" && '1' <= m[0] <= '9' &&
    (|m| == 1 || (3 <= |m| && m[1] == '.' && (forall k :: 2 <= k < |m| ==> '0' <= m[k] <= '9') && m[|m| - 1] != '0'))
  }

  /** Digits, and then nothing, or a point at `dot` and digits of which the last is not zero. */
  ghost predicate IsWrittenOut(t: string, dot: nat) {
    0 < dot <= |t| && (forall k :: 0 <= k < |t| && k != dot ==> '0' <= t[k] <= '9') &&
    (dot < |t| ==> t[dot] == '.' && dot + 1 < |t| && t[|t| - 1] != '0')
  }

  /** The mantissa and the exponent on either side of the 'e'. */
  ghost predicate Splits(t: string, m: string, x: string) { t == m + "e" + x && IsExponent(x) }

  lemma MarkIsFound(raw: string)
    ensures HasMark(raw) <==> HasExponent(raw)
  {
  }

  lemma ExponentTextForm(x: int)
    ensures IsExponent(ExponentText(x))
  {
    hide NatText;
    var n := if x < 0 then -x else x;
    NatTextValue(n);
    if n > 0 { NatTextHasNoLeadingZero(n); } else { ZeroText(); }
    assert ExponentText(x)[1..] == NatText(n);
    assert forall k :: 1 <= k < |ExponentText(x)| ==> ExponentText(x)[k] == NatText(n)[k - 1];
  }

  lemma {:induction false} NotAllZero(d: string)
    requires AllDigits(d) && d != "" && (|d| == 1 || !StartsWithZero(d)) && DigitsValue(d) != 0
    ensures '1' <= d[0] <= '9'
  {
    if |d| == 1 { assert d[..0] == ""; }
  }

  lemma ScientificForm(d: string)
    requires AllDigits(d) && d != "" && (|d| == 1 || (!StartsWithZero(d) && IsTrimmed(d))) && DigitsValue(d) != 0
    ensures IsMantissa(Scientific(d))
  {
    hide DigitsValue;
    NotAllZero(d);
  }

  /** `to_exponent` gives a mantissa with one digit before the point, and a signed exponent. */
  lemma InExponentFormSplits(raw: string) returns (negative: bool, m: string, x: string)
    requires IsDecimal(raw) && NumberValue(raw) != 0.0
    ensures Splits(InExponentForm(raw), (if negative then "-" else "") + m, x) && IsMantissa(m)
    ensures negative == IsNegative(raw[..FindAny(raw, EXPONENT_MARKS)])
  {
    hide NumberValue, FindAny, TrimLeading, TrimTrailing, Scientific, ExponentText, InExponentForm, DigitsValue, Scale,
      Unsigned, AllDigits, IsNegative;
    InExponentFormIsExact(raw);
    var p := ParseNumber(raw).value;
    var (t, pos) := TrimLeading(p.digits, p.decimalPos + p.exponent);
    var d := TrimTrailing(t);
    negative, m, x := p.negative, Scientific(d), ExponentText(pos - 1);
    ScientificTextValue(InExponentForm(raw), negative, d, pos - 1);
    ScalePlus(0.0, 0.0, pos - |d|);
    ScientificForm(d);
    ExponentTextForm(pos - 1);
  }

  lemma {:induction false} DroppedForm(s: string)
    ensures DropLeadingZeros(s) != "" ==> DropLeadingZeros(s)[0] != '0'
  {
    if s != "" && s[0] == '0' { DroppedForm(s[1..]); }
  }

  /** `normalize_exponent` keeps the mantissa as it stands and writes the exponent signed, without leading zeros. */
  lemma NormalizeSplits(raw: string) returns (m: string, x: string)
    requires IsDecimal(raw) && HasMark(raw)
    ensures Splits(NormalizeExponent(raw), m, x) && !HasMark(m)
    ensures m < raw && (raw[|m|] == 'e' || raw[|m|] == 'E')
    ensures x[0] == '-' <==> |m| + 1 < |raw| && raw[|m| + 1] == '-'
  {
    hide FindAny, DropLeadingZeros, IsDecimal, Unsigned, ParseNumber;
    MarkIsFound(raw);
    ExponentDigits(raw);
    var pos := FindAny(raw, EXPONENT_MARKS);
    var part := raw[pos + 1..];
    m := raw[..pos];
    DropLeadingZerosFacts(Unsigned(part));
    DroppedForm(Unsigned(part));
    var digits := DropLeadingZeros(Unsigned(part));
    x := (if IsNegative(part) then "-" else "+") + if digits == "" then "0" else digits;
    assert x[1..] == if digits == "" then "0" else digits;
    assert forall k :: 1 <= k < |x| ==> x[k] == x[1..][k - 1];
    assert NormalizeExponent(raw) == m + ['e'] + x;
  }

  /** `expand_exponent` writes the number out. */
  lemma ExpandedIsWrittenOut(raw: string) returns (negative: bool, t: string, dot: nat)
    requires IsDecimal(raw)
    ensures Expanded(raw) == (if negative then "-" else "") + t && IsWrittenOut(t, dot)
    ensures negative == IsNegative(raw[..FindAny(raw, EXPONENT_MARKS)])
  {
    hide NumberValue, FindAny, TrimZeros, WholePart, FractionPart, Expanded, DigitsValue, Scale, Unsigned;
    ExpandedIsExact(raw);
    var p := ParseNumber(raw).value;
    var l := WholePart(p.digits, p.decimalPos + p.exponent);
    var r := TrimZeros(FractionPart(p.digits, p.decimalPos + p.exponent));
    negative, t, dot := p.negative, PointText(l, r), |l|;
    assert forall k :: |l| < k < |t| ==> t[k] == r[k - |l| - 1];
  }

  /** Text with a sign in front has the marks of the text. */
  lemma WrittenOutHasNoMark(negative: bool, t: string, dot: nat)
    requires IsWrittenOut(t, dot)
    ensures !HasMark((if negative then "-" else "") + t)
  {
  }

  lemma SplitHasMark(t: string, m: string, x: string)
    requires Splits(t, m, x)
    ensures HasMark(t)
  {
    assert t[|m|] == 'e';
  }

  ghost predicate IsSigned(t: string, u: string) { t == u || t == "-" + u }

  ghost predicate IsSignedMantissa(m: string) { IsMantissa(m) || (m != "" && m[0] == '-' && IsMantissa(m[1..])) }

  ghost predicate HasForm(raw: string, t: string, extreme: bool) {
    if extreme then exists m, x :: Splits(t, m, x) && if HasMark(raw) then m < raw else IsSignedMantissa(m)
    else if HasMark(raw) then exists u, dot :: IsSigned(t, u) && IsWrittenOut(u, dot)
    else t == raw
  }

  /**
   A double is written with an exponent exactly when it is below 10^-6 or at least 10^21 in magnitude. There the
   exponent is signed and without leading zeros, behind the mantissa the text came with, or behind one with a single
   digit before the point. In between the number is written out, and text that came without exponent is left alone.
   */
  lemma ExponentExactlyWhenExtreme(raw: string)
    requires IsDecimal(raw) && NumberValue(raw) != 0.0
    ensures var v := NumberValue(raw);
      var extreme := -0.000001 < v < 0.000001 ||
        v <= -1_000_000_000_000_000_000_000.0 || 1_000_000_000_000_000_000_000.0 <= v;
      (HasMark(NumberText(Float(raw))) <==> extreme) && HasForm(raw, NumberText(Float(raw)), extreme)
  {
    hide NumberValue, FindAny, InExponentForm, NormalizeExponent, Expanded, IsDecimal, HasMark, IsMantissa, Splits,
      IsWrittenOut;
    MarkIsFound(raw);
    if HasMark(raw) {
      var m, x := NormalizeSplits(raw);
      SplitHasMark(NormalizeExponent(raw), m, x);
      var negative, t, dot := ExpandedIsWrittenOut(raw);
      WrittenOutHasNoMark(negative, t, dot);
      assert "" + t == t;
    } else {
      var negative, m, x := InExponentFormSplits(raw);
      var signed := (if negative then "-" else "") + m;
      SplitHasMark(InExponentForm(raw), signed, x);
      assert IsSignedMantissa(signed) by { assert signed == if negative then "-" + m else m; }
    }
  }

  // ---------- Examples

  /** Mantissa text of digits and a point is parsed into them. */
  lemma ParsePoint(l: string, r: string)
    requires AllDigits(l) && AllDigits(r) && l != ""
    ensures FindAny(l + "." + r, EXPONENT_MARKS) == |l + "." + r|
    ensures ParseNumber(l + "." + r) == Some(Parsed(false, l + r, |l|, 0))
  {
    hide FindAny, DigitsValue;
    var s := l + "." + r;
    assert forall k :: 0 <= k < |s| ==> s[k] in l || s[k] in r || s[k] == '.';
    FindAnyNone(s, EXPONENT_MARKS);
    PointSplit(l, r);
    assert s[..|s|] == s && s[0] == l[0] && Unsigned(s) == s;
  }

  /** The double 1.0 and the integer 1 are equal, and print differently. */
  lemma FloatOneExample()
    ensures IsDecimal("1.0") && NumberMeaning(Float("1.0")) == NumberMeaning(Integer(1))
    ensures NumberText(Float("1.0")) != NumberText(Integer(1))
  {
    hide NumberValue, IntText, FindAny, ParseNumber, AllDigits, NumberText;
    assert AllDigits("1") && AllDigits("0") && AllDigits("10") by { SomeDigits(); }
    assert "1" + "." + "0" == "1.0" && "1" + "0" == "10";
    ParsePoint("1", "0");
    FloatOneValue();
    OneText();
    FloatPrintsLikeIntegerIff("1.0", 1);
  }

  lemma SomeDigits()
    ensures AllDigits("1") && AllDigits("0") && AllDigits("10")
  {
  }

  lemma OneText()
    ensures IntText(1) == "1"
  {
  }

  lemma FloatOneValue()
    ensures NumberValue("1.0") == 1.0
  {
    hide FindAny, DigitsValue, UnsignedValue, Scale, AllDigits, ParseNumber;
    SomeDigits();
    assert "1" + "." + "0" == "1.0" && "1" + "0" == "10";
    ParsePoint("1", "0");
    PointValue("1", "0");
    TenTenths();
  }

  lemma TenTenths()
    ensures DigitsValue("10") == 10 && Scale(10.0, -1) == 1.0
  {
    assert "10"[..1] == "1" && "1"[..0] == "";
  }
}
