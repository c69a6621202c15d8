/** JSON values and their canonical text (src/crypto.rs, section 3.2 of RFC 8785). */
module Json {
  import opened Text
  import opened Decimal
  import Utf16

  datatype Keyed<+T> = Keyed(key: string, value: T)

  /** `Float` holds the shortest decimal text of a double, from which the double is determined. */
  datatype Number = Integer(i: int) | Float(raw: string)

  datatype Value =
    | Null
    | Bool(b: bool)
    | Num(n: Number)
    | Str(s: string)
    | Arr(items: seq<Value>)
    | Obj(members: seq<Keyed<Value>>)

  ghost predicate DistinctKeys<T>(s: seq<Keyed<T>>) {
    forall i, j :: 0 <= i < j < |s| ==> s[i].key != s[j].key
  }

  /** A value a JSON parser can produce: distinct member names, and decimal text in every double. */
  ghost predicate Valid(v: Value) {
    match v
    case Num(Float(raw)) => IsDecimal(raw)
    case Arr(items) => forall i :: 0 <= i < |items| ==> Valid(items[i])
    case Obj(ms) => DistinctKeys(ms) && forall i :: 0 <= i < |ms| ==> Valid(ms[i].value)
    case _ => true
  }

  // ---------- Numbers

  function NumberMeaning(n: Number): real {
    match n
    case Integer(i) => i as real
    case Float(raw) => NumberValue(raw)
  }

  function NumberText(n: Number): string {
    match n
    case Integer(i) => IntText(i)
    case Float(raw) =>
      var f := NumberValue(raw);
      var magnitude := if f < 0.0 then -f else f;
      var marked := FindAny(raw, EXPONENT_MARKS) < |raw|;
      if f == 0.0 then "0"
      else if magnitude < 0.000001 || magnitude >= 1_000_000_000_000_000_000_000.0 then
        if marked then NormalizeExponent(raw) else InExponentForm(raw)
      else if marked then Expanded(raw)
      else raw
  }

  // ---------- Strings

  function HexDigit(n: nat): char
    requires n < 16
  {
    if n < 10 then DigitOf(n) else ('a' as int + (n - 10)) as char
  }

  function EscapeChar(c: char): string {
    if c == '"' then "\\\""
    else if c == '\\' then "\\\\"
    else if c == 8 as char then "\\b"
    else if c == 12 as char then "\\f"
    else if c == '\n' then "\\n"
    else if c == '\r' then "\\r"
    else if c == '\t' then "\\t"
    else if c as int < 0x20 then "\\u00" + [HexDigit(c as int / 16), HexDigit(c as int % 16)]
    else [c]
  }

  /**
   Which escape a character gets, by section 3.2.2.2 of RFC 8785: none, a short one, or lower-case hexadecimal. That it
   denotes the character is for the reader to say (`JsonReader.ReadPrinted`).
   */
  lemma EscapeKinds(c: char)
    ensures EscapeChar(c) == [c] <==> ' ' <= c && c != '"' && c != '\\'
    ensures |EscapeChar(c)| == 2 <==> c in {'"', '\\', '\n', '\r', '\t', 8 as char, 12 as char}
    ensures |EscapeChar(c)| in {1, 2, 6}
    ensures |EscapeChar(c)| == 6 ==> forall k :: 2 <= k < 6 ==>
      '0' <= EscapeChar(c)[k] <= '9' || 'a' <= EscapeChar(c)[k] <= 'f'
  {
  }

  function Escaped(s: string): string {
    if s == "" then "" else EscapeChar(s[0]) + Escaped(s[1..])
  }

  function CanonicalString(s: string): string { "\"" + Escaped(s) + "\"" }

  /** Pushes the characters one by one. */
  method CanonicalizeString(s: string) returns (r: string)
    ensures r == CanonicalString(s)
  {
    r := "\"";
    for i := 0 to |s|
      invariant r + Escaped(s[i..]) == "\"" + Escaped(s)
    {
      assert s[i..][1..] == s[i + 1..];
      r := r + EscapeChar(s[i]);
    }
    r := r + "\"";
  }

  // ---------- Member order

  /** Strictly increasing keys, by UTF-16 code units. */
  ghost predicate SortedByKey<T>(s: seq<Keyed<T>>) {
    forall i, j :: 0 <= i < j < |s| ==> Utf16.Compare(s[i].key, s[j].key) == Utf16.Less
  }

  function InsertByKey<T>(m: Keyed<T>, s: seq<Keyed<T>>): seq<Keyed<T>> {
    if s != [] && Utf16.Compare(s[0].key, m.key) == Utf16.Less then [s[0]] + InsertByKey(m, s[1..]) else [m] + s
  }

  /** Sorts members by key; with distinct keys every sorting method gives this sequence (`SortedUnique`). */
  function SortByKey<T>(s: seq<Keyed<T>>): seq<Keyed<T>> {
    if s == [] then [] else InsertByKey(s[0], SortByKey(s[1..]))
  }

  // ---------- The canonical text

  function Join(parts: seq<string>): string {
    if parts == [] then "" else if |parts| == 1 then parts[0] else parts[0] + "," + Join(parts[1..])
  }

  function MemberTexts(s: seq<Keyed<string>>): seq<string> {
    seq(|s|, i requires 0 <= i < |s| => CanonicalString(s[i].key) + ":" + s[i].value)
  }

  function CanonicalValue(v: Value): string {
    match v
    case Null => "null"
    case Bool(b) => if b then "true" else "false"
    case Num(n) => NumberText(n)
    case Str(s) => CanonicalString(s)
    case Arr(items) => "[" + Join(CanonicalItems(items)) + "]"
    case Obj(ms) => "{" + Join(MemberTexts(SortByKey(CanonicalMembers(ms)))) + "}"
  }

  function CanonicalItems(items: seq<Value>): seq<string> {
    seq(|items|, i requires 0 <= i < |items| => CanonicalValue(items[i]))
  }

  function CanonicalMembers(ms: seq<Keyed<Value>>): seq<Keyed<string>> {
    seq(|ms|, i requires 0 <= i < |ms| => Keyed(ms[i].key, CanonicalValue(ms[i].value)))
  }

  // ---------- A reference in two passes: first normalize the tree, then print it as it stands

  function Print(v: Value): string {
    match v
    case Null => "null"
    case Bool(b) => if b then "true" else "false"
    case Num(Integer(i)) => IntText(i)
    case Num(Float(raw)) => raw
    case Str(s) => CanonicalString(s)
    case Arr(items) => "[" + Join(PrintItems(items)) + "]"
    case Obj(ms) => "{" + Join(MemberTexts(PrintMembers(ms))) + "}"
  }

  function PrintItems(items: seq<Value>): seq<string> {
    seq(|items|, i requires 0 <= i < |items| => Print(items[i]))
  }

  function PrintMembers(ms: seq<Keyed<Value>>): seq<Keyed<string>> {
    seq(|ms|, i requires 0 <= i < |ms| => Keyed(ms[i].key, Print(ms[i].value)))
  }

  /** Members sorted at every level, and every number replaced by its canonical text. */
  function Normal(v: Value): Value {
    match v
    case Num(n) => Num(Float(NumberText(n)))
    case Arr(items) => Arr(NormalItems(items))
    case Obj(ms) => Obj(SortByKey(NormalMembers(ms)))
    case _ => v
  }

  function NormalItems(items: seq<Value>): seq<Value> {
    seq(|items|, i requires 0 <= i < |items| => Normal(items[i]))
  }

  function NormalMembers(ms: seq<Keyed<Value>>): seq<Keyed<Value>> {
    seq(|ms|, i requires 0 <= i < |ms| => Keyed(ms[i].key, Normal(ms[i].value)))
  }

  lemma {:induction false} InsertCommutes(m: Keyed<Value>, s: seq<Keyed<Value>>)
    ensures InsertByKey(Keyed(m.key, Print(m.value)), PrintMembers(s)) == PrintMembers(InsertByKey(m, s))
  {
    if s != [] && Utf16.Compare(s[0].key, m.key) == Utf16.Less {
      InsertCommutes(m, s[1..]);
      assert PrintMembers(s)[1..] == PrintMembers(s[1..]);
    }
  }

  lemma {:induction false} SortCommutes(s: seq<Keyed<Value>>)
    ensures SortByKey(PrintMembers(s)) == PrintMembers(SortByKey(s))
  {
    if s != [] {
      SortCommutes(s[1..]);
      assert PrintMembers(s)[1..] == PrintMembers(s[1..]);
      InsertCommutes(s[0], SortByKey(s[1..]));
    }
  }

  /** The single pass of the program prints the normalized tree. */
  lemma {:induction false} CanonicalIsPrintOfNormal(v: Value)
    ensures CanonicalValue(v) == Print(Normal(v))
  {
    match v
    case Arr(items) =>
      forall i | 0 <= i < |items| { CanonicalIsPrintOfNormal(items[i]); }
      assert CanonicalItems(items) == PrintItems(NormalItems(items));
    case Obj(ms) =>
      forall i | 0 <= i < |ms| { CanonicalIsPrintOfNormal(ms[i].value); }
      assert CanonicalMembers(ms) == PrintMembers(NormalMembers(ms));
      SortCommutes(NormalMembers(ms));
    case _ =>
  }
}
