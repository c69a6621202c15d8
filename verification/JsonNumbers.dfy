/** The canonical text of a number denotes that number, and contains no character that could end it (src/crypto.rs). */
module JsonNumbers {
  import opened Text
  import opened Decimal
  import opened Json

  predicate IsNumberChar(c: char) { IsDigit(c) || c == '.' || c == '-' || c == '+' || c in EXPONENT_MARKS }

  predicate IsNumberText(s: string) { s != "" && forall k :: 0 <= k < |s| ==> IsNumberChar(s[k]) }

  lemma NumberCharsConcat(a: string, b: string)
    requires IsNumberText(a) && (b == "" || IsNumberText(b))
    ensures IsNumberText(a + b)
  {
  }

  lemma FixedIsNumberText(s: string, negative: bool, l: string, r: string)
    requires IsFixed(s, negative, l, r)
    ensures IsNumberText(s)
  {
  }

  lemma IntTextFacts(i: int)
    ensures NumberValue(IntText(i)) == i as real && IsNumberText(IntText(i))
  {
    hide NumberValue, NatText, UnsignedValue, Scale, DigitsValue;
    var n := if i < 0 then -i else i;
    NatTextValue(n);
    SignedTextValue(i < 0, NatText(n));
    DigitsOnlyValue(NatText(n));
    assert IntText(i) == SignText(i < 0) + NatText(n);
  }

  lemma ExponentTextChars(x: int)
    ensures IsNumberText(ExponentText(x))
  {
    hide NatText;
    NatTextValue(if x < 0 then -x else x);
  }

  lemma ScientificIsNumberText(s: string, negative: bool, digits: string, x: int)
    requires IsScientific(s, negative, digits, x)
    ensures IsNumberText(s)
  {
    hide ExponentText;
    ScientificPlain(digits);
    ExponentTextChars(x);
    NumberCharsConcat(Scientific(digits), "e");
    NumberCharsConcat(Scientific(digits) + "e", ExponentText(x));
  }

  lemma MantissaIsNumberText(m: string)
    requires AllDigits(WithoutPoint(Unsigned(m))) && WithoutPoint(Unsigned(m)) != ""
    ensures IsNumberText(m)
  {
    hide FindAny;
    var base := Unsigned(m);
    var dot := FindAny(base, {'.'});
    if dot < |base| {
      AllDigitsConcat(base[..dot], base[dot + 1..]);
      assert base == base[..dot] + [base[dot]] + base[dot + 1..];
    }
    assert m == base || m == [m[0]] + base;
  }

  lemma SignedDigitsChars(s: string)
    requires AllDigits(Unsigned(s)) && Unsigned(s) != ""
    ensures IsNumberText(s)
  {
    assert s == Unsigned(s) || s == [s[0]] + Unsigned(s);
  }

  lemma RawIsNumberText(raw: string)
    requires IsDecimal(raw)
    ensures IsNumberText(raw) && IsNumberText(NormalizeExponent(raw))
  {
    hide FindAny, WithoutPoint, DigitsValue, DropLeadingZeros, Unsigned;
    var pos := FindAny(raw, EXPONENT_MARKS);
    var m := raw[..pos];
    MantissaIsNumberText(m);
    if pos == |raw| {
      assert m == raw;
    } else {
      var part := raw[pos + 1..];
      assert raw == m + ([raw[pos]] + part);
      SignedDigitsChars(part);
      NumberCharsConcat([raw[pos]], part);
      NumberCharsConcat(m, [raw[pos]] + part);
      DropLeadingZerosFacts(Unsigned(part));
      var digits := DropLeadingZeros(Unsigned(part));
      var x := (if IsNegative(part) then "-" else "+") + if digits == "" then "0" else digits;
      assert IsNumberText(['e'] + x);
      NumberCharsConcat(m, ['e'] + x);
      assert NormalizeExponent(raw) == m + (['e'] + x);
    }
  }

  /** Whatever branch prints a number, the text denotes the same number and is made of number characters only. */
  lemma NumberTextIsExact(n: Number)
    requires Valid(Num(n))
    ensures NumberValue(NumberText(n)) == NumberMeaning(n)
    ensures IsNumberText(NumberText(n))
  {
    hide NumberValue, Expanded, InExponentForm, NormalizeExponent, IntText, ParseNumber, IsFixed, IsScientific;
    IntTextFacts(0);
    ZeroText();
    match n
    case Integer(i) => IntTextFacts(i);
    case Float(raw) =>
      var p := ParseNumber(raw).value;
      ExpandedIsExact(raw);
      FixedIsNumberText(Expanded(raw), p.negative, WholePart(p.digits, p.decimalPos + p.exponent),
        TrimZeros(FractionPart(p.digits, p.decimalPos + p.exponent)));
      InExponentFormIsExact(raw);
      var (t, pos) := TrimLeading(p.digits, p.decimalPos + p.exponent);
      ScientificIsNumberText(InExponentForm(raw), p.negative, TrimTrailing(t), pos - 1);
      NormalizeIsExact(raw);
      RawIsNumberText(raw);
  }

  lemma ZeroText()
    ensures IntText(0) == "0"
  {
  }
}
