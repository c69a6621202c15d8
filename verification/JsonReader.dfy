/**
 A reader for JSON text without white space (RFC 8259), and what it recovers from canonical text.

 The reader is the specification's, not the program's: it undoes escapes, and ends a number at the first
 character that cannot belong to one. Reading canonical text gives back the normalized tree.
 */
module JsonReader {
  import opened Wrappers
  import opened Text
  import opened Json
  import opened JsonNumbers

  /** What was read and the text behind it. */
  datatype Read<+T> = Read(value: T, rest: string)

  function FromCode(n: nat): Option<char> {
    if n < 0xD800 || 0xE000 <= n < 0x1_0000 then Some(n as char) else None
  }

  /** Four hexadecimal digits. */
  function ReadHex(t: string): Option<char> {
    if |t| < 4 then None else
    match (HexValue(t[0]), HexValue(t[1]), HexValue(t[2]), HexValue(t[3]))
    case (Some(a), Some(b), Some(c), Some(d)) => FromCode(a * 0x1000 + b * 0x100 + c * 0x10 + d)
    case _ => None
  }

  function ShortEscape(c: char): Option<char> {
    if c == '"' || c == '\\' || c == '/' then Some(c)
    else if c == 'b' then Some(8 as char)
    else if c == 'f' then Some(12 as char)
    else if c == 'n' then Some('\n')
    else if c == 'r' then Some('\r')
    else if c == 't' then Some('\t')
    else None
  }

  /** One possibly escaped character. */
  function ReadChar(t: string): (r: Option<Read<char>>)
    ensures r.Some? ==> |r.value.rest| < |t|
  {
    if t == "" || t[0] == '"' || t[0] as int < 0x20 then None
    else if t[0] != '\\' then Some(Read(t[0], t[1..]))
    else if |t| < 2 then None
    else if t[1] != 'u' then
      match ShortEscape(t[1])
      case None => None
      case Some(c) => Some(Read(c, t[2..]))
    else
      match ReadHex(t[2..])
      case None => None
      case Some(c) => Some(Read(c, t[6..]))
  }

  /** The characters up to the closing quote. */
  function ReadString(t: string): (r: Option<Read<string>>)
    ensures r.Some? ==> |r.value.rest| < |t|
    decreases |t|
  {
    if t != "" && t[0] == '"' then Some(Read("", t[1..])) else
    match ReadChar(t)
    case None => None
    case Some(Read(c, t')) =>
      match ReadString(t')
      case None => None
      case Some(Read(s, rest)) => Some(Read([c] + s, rest))
  }

  function NumberLength(t: string): (n: nat)
    ensures n <= |t|
  {
    if t != "" && IsNumberChar(t[0]) then 1 + NumberLength(t[1..]) else 0
  }

  function ReadValue(t: string): (r: Option<Read<Value>>)
    ensures r.Some? ==> |r.value.rest| < |t|
    decreases |t|, 1
  {
    if t == "" then None
    else if t[0] == '"' then
      match ReadString(t[1..])
      case None => None
      case Some(Read(s, rest)) => Some(Read(Str(s), rest))
    else if t[0] == '[' then
      if |t| > 1 && t[1] == ']' then Some(Read(Arr([]), t[2..])) else
      match ReadItems(t[1..])
      case None => None
      case Some(Read(items, rest)) => Some(Read(Arr(items), rest))
    else if t[0] == '{' then
      if |t| > 1 && t[1] == '}' then Some(Read(Obj([]), t[2..])) else
      match ReadMembers(t[1..])
      case None => None
      case Some(Read(ms, rest)) => Some(Read(Obj(ms), rest))
    else if "null" <= t then Some(Read(Null, t[4..]))
    else if "true" <= t then Some(Read(Bool(true), t[4..]))
    else if "false" <= t then Some(Read(Bool(false), t[5..]))
    else
      var n := NumberLength(t);
      if n == 0 then None else Some(Read(Num(Float(t[..n])), t[n..]))
  }

  /** One or more values, and the closing bracket. */
  function ReadItems(t: string): (r: Option<Read<seq<Value>>>)
    ensures r.Some? ==> |r.value.rest| < |t|
    decreases |t|, 2
  {
    match ReadValue(t)
    case None => None
    case Some(Read(v, t')) =>
      if t' != "" && t'[0] == ']' then Some(Read([v], t'[1..]))
      else if t' != "" && t'[0] == ',' then
        match ReadItems(t'[1..])
        case None => None
        case Some(Read(vs, rest)) => Some(Read([v] + vs, rest))
      else None
  }

  function ReadMember(t: string): (r: Option<Read<Keyed<Value>>>)
    ensures r.Some? ==> |r.value.rest| < |t|
    decreases |t|, 0
  {
    if t == "" || t[0] != '"' then None else
    match ReadString(t[1..])
    case None => None
    case Some(Read(key, t')) =>
      if t' == "" || t'[0] != ':' then None else
      match ReadValue(t'[1..])
      case None => None
      case Some(Read(v, rest)) => Some(Read(Keyed(key, v), rest))
  }

  /** One or more members, and the closing brace. */
  function ReadMembers(t: string): (r: Option<Read<seq<Keyed<Value>>>>)
    ensures r.Some? ==> |r.value.rest| < |t|
    decreases |t|, 2
  {
    match ReadMember(t)
    case None => None
    case Some(Read(m, t')) =>
      if t' != "" && t'[0] == '}' then Some(Read([m], t'[1..]))
      else if t' != "" && t'[0] == ',' then
        match ReadMembers(t'[1..])
        case None => None
        case Some(Read(ms, rest)) => Some(Read([m] + ms, rest))
      else None
  }

  // ---------- Reading what was printed

  /** An escape is the character itself, a backslash with a letter, or a backslash with 'u' and four digits. */
  lemma EscapeShape(c: char)
    ensures var e := EscapeChar(c);
      if |e| == 1 then e[0] == c && c != '"' && c != '\\' && c as int >= 0x20
      else if |e| == 2 then e[0] == '\\' && e[1] != 'u' && ShortEscape(e[1]) == Some(c)
      else
        |e| == 6 && e[0] == '\\' && e[1] == 'u' && c as int < 0x20 &&
        e[2..] == "00" + [HexDigit(c as int / 16), HexDigit(c as int % 16)]
  {
    hide HexDigit;
    var e := EscapeChar(c);
    if |e| == 6 { assert e[2..] == "00" + [HexDigit(c as int / 16), HexDigit(c as int % 16)]; }
  }

  lemma ReadEscapedChar(c: char, rest: string)
    ensures ReadChar(EscapeChar(c) + rest) == Some(Read(c, rest))
  {
    hide EscapeChar, ShortEscape, ReadHex, HexDigit;
    EscapeShape(c);
    var e := EscapeChar(c);
    var t := e + rest;
    assert t[|e|..] == rest && t[0] == e[0];
    if |e| == 2 {
      assert t[1] == e[1];
    } else if |e| == 6 {
      assert t[1] == e[1] && t[2..] == e[2..] + rest;
      ReadHexOfControl(c, t[2..]);
      assert t[2..][..4] == e[2..];
    }
  }

  lemma ReadHexOfControl(c: char, t: string)
    requires c as int < 0x20 && |t| >= 4 && t[..4] == "00" + [HexDigit(c as int / 16), HexDigit(c as int % 16)]
    ensures ReadHex(t) == Some(c)
  {
    assert t[0] == t[..4][0] && t[1] == t[..4][1] && t[2] == t[..4][2] && t[3] == t[..4][3];
  }

  /** Unescaping inverts escaping, and the closing quote is the first one the reader sees. */
  lemma {:induction false} ReadEscaped(s: string, rest: string)
    ensures ReadString(Escaped(s) + "\"" + rest) == Some(Read(s, rest))
  {
    var t := Escaped(s) + "\"" + rest;
    if s == "" {
      assert t == "\"" + rest;
    } else {
      var tail := Escaped(s[1..]) + "\"" + rest;
      assert t == EscapeChar(s[0]) + tail;
      ReadEscapedChar(s[0], tail);
      assert t[0] == EscapeChar(s[0])[0] != '"';
      ReadEscaped(s[1..], rest);
      assert s == [s[0]] + s[1..];
    }
  }

  lemma {:induction false} NumberEnds(s: string, rest: string)
    requires forall k :: 0 <= k < |s| ==> IsNumberChar(s[k])
    requires rest == "" || !IsNumberChar(rest[0])
    ensures NumberLength(s + rest) == |s|
  {
    if s == "" {
      assert s + rest == rest;
    } else {
      NumberEnds(s[1..], rest);
      assert (s + rest)[1..] == s[1..] + rest;
    }
  }

  /** Trees that print to text the reader takes back: every number is text of number characters. */
  ghost predicate Printable(v: Value) {
    match v
    case Num(Integer(i)) => false
    case Num(Float(raw)) => IsNumberText(raw)
    case Arr(items) => forall i :: 0 <= i < |items| ==> Printable(items[i])
    case Obj(ms) => forall i :: 0 <= i < |ms| ==> Printable(ms[i].value)
    case _ => true
  }

  predicate Ends(rest: string) { rest == "" || !IsNumberChar(rest[0]) }

  // One step of each reader

  lemma ReadNumber(raw: string, rest: string)
    requires IsNumberText(raw) && Ends(rest)
    ensures ReadValue(raw + rest) == Some(Read(Num(Float(raw)), rest))
  {
    hide ReadString, ReadItems, ReadMembers, NumberLength;
    var t := raw + rest;
    NumberEnds(raw, rest);
    assert t[0] == raw[0] && IsNumberChar(t[0]);
    assert t[0] !in {'"', '[', '{', 'n', 't', 'f'};
    assert t[..|raw|] == raw && t[|raw|..] == rest;
  }

  lemma ReadText(s: string, rest: string)
    ensures ReadValue("\"" + Escaped(s) + "\"" + rest) == Some(Read(Str(s), rest))
  {
    hide Escaped, ReadString, ReadItems, ReadMembers, NumberLength;
    var t := "\"" + Escaped(s) + "\"" + rest;
    ReadEscaped(s, rest);
    assert t[1..] == Escaped(s) + "\"" + rest;
  }

  lemma ReadLiteral(text: string, rest: string)
    requires text in {"null", "true", "false"}
    ensures ReadValue(text + rest) ==
      Some(Read(if text == "null" then Null else Bool(text == "true"), rest))
  {
    hide ReadString, ReadItems, ReadMembers, NumberLength;
    var t := text + rest;
    assert t[0] == text[0] && t[|text|..] == rest;
  }

  lemma ReadLeaf(v: Value, rest: string)
    requires Printable(v) && Ends(rest) && !v.Arr? && !v.Obj?
    ensures ReadValue(Print(v) + rest) == Some(Read(v, rest))
  {
    hide Escaped, ReadValue, IsNumberText, Ends;
    match v
    case Num(Float(raw)) => ReadNumber(raw, rest);
    case Str(s) => ReadText(s, rest);
    case Null => ReadLiteral("null", rest);
    case Bool(b) => ReadLiteral(if b then "true" else "false", rest);
  }

  lemma ReadBracketed(body: string, items: seq<Value>, rest: string)
    requires body != "" && body[0] != ']' && ReadItems(body + "]" + rest) == Some(Read(items, rest))
    ensures ReadValue("[" + body + "]" + rest) == Some(Read(Arr(items), rest))
  {
    hide ReadItems, ReadMembers, ReadString, NumberLength;
    var t := "[" + body + "]" + rest;
    assert t[1..] == body + "]" + rest;
    assert t[1] == body[0];
  }

  lemma ReadBraced(body: string, ms: seq<Keyed<Value>>, rest: string)
    requires body != "" && body[0] != '}' && ReadMembers(body + "}" + rest) == Some(Read(ms, rest))
    ensures ReadValue("{" + body + "}" + rest) == Some(Read(Obj(ms), rest))
  {
    hide ReadItems, ReadMembers, ReadString, NumberLength;
    var t := "{" + body + "}" + rest;
    assert t[1..] == body + "}" + rest;
    assert t[1] == body[0];
  }

  lemma ReadEmpty(rest: string)
    ensures ReadValue("[" + "" + "]" + rest) == Some(Read(Arr([]), rest))
    ensures ReadValue("{" + "" + "}" + rest) == Some(Read(Obj([]), rest))
  {
    assert ("[" + "" + "]" + rest)[2..] == rest && ("{" + "" + "}" + rest)[2..] == rest;
  }

  lemma ItemsStep(t: string, v: Value, vs: seq<Value>, tail: string, rest: string)
    requires ReadValue(t) == Some(Read(v, tail))
    requires if vs == [] then tail == "]" + rest
             else tail != "" && tail[0] == ',' && ReadItems(tail[1..]) == Some(Read(vs, rest))
    ensures ReadItems(t) == Some(Read([v] + vs, rest))
  {
    hide ReadValue;
    if vs == [] { assert tail[1..] == rest && [v] + vs == [v]; }
  }

  lemma MembersStep(t: string, m: Keyed<Value>, ms: seq<Keyed<Value>>, tail: string, rest: string)
    requires ReadMember(t) == Some(Read(m, tail))
    requires if ms == [] then tail == "}" + rest
             else tail != "" && tail[0] == ',' && ReadMembers(tail[1..]) == Some(Read(ms, rest))
    ensures ReadMembers(t) == Some(Read([m] + ms, rest))
  {
    hide ReadValue, ReadMember;
    if ms == [] { assert tail[1..] == rest && [m] + ms == [m]; }
  }

  lemma ReadPrintedMember(m: Keyed<Value>, tail: string)
    requires ReadValue(Print(m.value) + tail) == Some(Read(m.value, tail))
    ensures ReadMember(CanonicalString(m.key) + ":" + Print(m.value) + tail) == Some(Read(m, tail))
  {
    hide ReadValue, ReadString, Escaped, Print;
    var t := CanonicalString(m.key) + ":" + Print(m.value) + tail;
    var t' := ":" + (Print(m.value) + tail);
    ReadEscaped(m.key, t');
    assert t[1..] == Escaped(m.key) + "\"" + t';
    assert t'[1..] == Print(m.value) + tail;
  }

  lemma PrintStarts(v: Value)
    requires Printable(v)
    ensures Print(v) != "" && Print(v)[0] != ']'
  {
  }

  /** Text of a list: the first part, then the closing mark, or a comma and the text of the other parts. */
  function Tail(parts: seq<string>, close: string): string
    requires parts != []
  {
    if |parts| == 1 then close else "," + (Join(parts[1..]) + close)
  }

  lemma {:induction false} JoinTail(parts: seq<string>, close: string)
    requires parts != []
    ensures Join(parts) + close == parts[0] + Tail(parts, close)
    ensures parts[0] != "" ==> Join(parts) != "" && Join(parts)[0] == parts[0][0]
  {
    if |parts| > 1 {
      var first, others := parts[0], Join(parts[1..]);
      assert Join(parts) == first + "," + others;
      assert first + "," + others + close == first + ("," + (others + close));
    }
  }

  /** Reading a printed tree gives the tree, whatever comes behind it. */
  lemma {:induction false} ReadPrinted(v: Value, rest: string)
    requires Printable(v) && Ends(rest)
    ensures ReadValue(Print(v) + rest) == Some(Read(v, rest))
    decreases v, 1
  {
    hide ReadValue, ReadItems, ReadMembers, Join, MemberTexts, PrintItems, PrintMembers;
    match v
    case Arr(items) =>
      if items == [] {
        EmptyJoin();
        ReadEmpty(rest);
      } else {
        ReadPrintedItems(items, rest);
        ReadBracketed(Join(PrintItems(items)), items, rest);
      }
    case Obj(ms) =>
      if ms == [] {
        EmptyJoin();
        ReadEmpty(rest);
      } else {
        ReadPrintedMembers(ms, rest);
        ReadBraced(Join(MemberTexts(PrintMembers(ms))), ms, rest);
      }
    case _ => ReadLeaf(v, rest);
  }

  lemma EmptyJoin()
    ensures Join(PrintItems([])) == "" && Join(MemberTexts(PrintMembers([]))) == ""
  {
  }

  lemma {:induction false} ReadPrintedItems(items: seq<Value>, rest: string)
    requires items != [] && forall i :: 0 <= i < |items| ==> Printable(items[i])
    ensures ReadItems(Join(PrintItems(items)) + "]" + rest) == Some(Read(items, rest))
    ensures Join(PrintItems(items)) != "" && Join(PrintItems(items))[0] != ']'
    decreases items, 0
  {
    hide ReadValue, ReadItems, Join, Print, Printable;
    var parts, close := PrintItems(items), "]" + rest;
    var tail := Tail(parts, close);
    ReadPrinted(items[0], tail);
    PrintStarts(items[0]);
    JoinTail(parts, close);
    assert Join(parts) + "]" + rest == Join(parts) + close;
    assert items == [items[0]] + items[1..];
    if |items| > 1 {
      assert parts[1..] == PrintItems(items[1..]);
      ReadPrintedItems(items[1..], rest);
      assert tail[1..] == Join(parts[1..]) + "]" + rest;
    }
    ItemsStep(Join(parts) + close, items[0], items[1..], tail, rest);
  }

  lemma {:induction false} ReadPrintedMembers(ms: seq<Keyed<Value>>, rest: string)
    requires ms != [] && forall i :: 0 <= i < |ms| ==> Printable(ms[i].value)
    ensures ReadMembers(Join(MemberTexts(PrintMembers(ms))) + "}" + rest) == Some(Read(ms, rest))
    ensures Join(MemberTexts(PrintMembers(ms))) != "" && Join(MemberTexts(PrintMembers(ms)))[0] != '}'
    decreases ms, 0
  {
    hide ReadValue, ReadMember, ReadMembers, Join, Print, Printable, Escaped;
    var parts, close := MemberTexts(PrintMembers(ms)), "}" + rest;
    var tail := Tail(parts, close);
    ReadPrinted(ms[0].value, tail);
    ReadPrintedMember(ms[0], tail);
    JoinTail(parts, close);
    assert Join(parts) + "}" + rest == Join(parts) + close;
    assert ms == [ms[0]] + ms[1..];
    if |ms| > 1 {
      assert parts[1..] == MemberTexts(PrintMembers(ms[1..]));
      ReadPrintedMembers(ms[1..], rest);
      assert tail[1..] == Join(parts[1..]) + "}" + rest;
    }
    MembersStep(Join(parts) + close, ms[0], ms[1..], tail, rest);
  }
}
