/**
 The redirect URI of the authorization endpoint (src/oauth.rs), and a reader for it by sections 2.1, 3.4 and
 3.5 of RFC 3986.
 */
module Redirect {
  import opened Wrappers
  import opened Text

  type Byte = n: int | 0 <= n < 256

  // ---------- The program

  predicate IsUnreserved(b: Byte) {
    'A' as int <= b <= 'Z' as int || 'a' as int <= b <= 'z' as int || '0' as int <= b <= '9' as int ||
    b == '-' as int || b == '.' as int || b == '_' as int || b == '~' as int
  }

  function HexDigit(nibble: nat): char
    requires nibble < 16
  {
    if nibble < 10 then ('0' as int + nibble) as char else ('A' as int + (nibble - 10)) as char
  }

  function EncodeByte(b: Byte): string {
    if IsUnreserved(b) then [b as char] else ['%', HexDigit(b / 16), HexDigit(b % 16)]
  }

  /** Letters, digits and "-._~" stay as they are; any other byte is '%' and two hexadecimal digits in upper case. */
  lemma EncodeByteMeans(b: Byte)
    ensures |EncodeByte(b)| == 1 <==>
      65 <= b <= 90 || 97 <= b <= 122 || 48 <= b <= 57 || b == 45 || b == 46 || b == 95 || b == 126
    ensures |EncodeByte(b)| == 1 ==> EncodeByte(b)[0] as int == b
    ensures |EncodeByte(b)| != 1 ==>
      |EncodeByte(b)| == 3 && EncodeByte(b)[0] == '%' &&
      forall k :: 1 <= k < 3 ==> '0' <= EncodeByte(b)[k] <= '9' || 'A' <= EncodeByte(b)[k] <= 'F'
  {
  }

  function Encoded(value: seq<Byte>): string {
    if value == [] then "" else EncodeByte(value[0]) + Encoded(value[1..])
  }

  method EncodeComponent(value: seq<Byte>) returns (output: string)
    ensures output == Encoded(value)
  {
    output := "";
    for i := 0 to |value|
      invariant output + Encoded(value[i..]) == Encoded(value)
    {
      assert value[i..][1..] == value[i + 1..];
      output := output + EncodeByte(value[i]);
    }
  }

  /** The parameters the program adds. */
  function Added(code: seq<Byte>, state: Option<seq<Byte>>): string {
    "code=" + Encoded(code) + (if state.Some? then "&state=" + Encoded(state.value) else "")
  }

  function RedirectUri(base: string, code: seq<Byte>, state: Option<seq<Byte>>): Result<string, string> {
    if IsBlank(base) then Err("redirect_uri must be provided") else
    var hash := FindAny(base, {'#'});
    var head := base[..hash];
    Ok(head + (if FindAny(head, {'?'}) < |head| then "&" else "?") +
       Added(code, state) +
       (if hash < |base| then "#" + base[hash + 1..] else ""))
  }

  method BuildRedirectUri(base: string, code: seq<Byte>, state: Option<seq<Byte>>) returns (r: Result<string, string>)
    ensures r == RedirectUri(base, code, state)
  {
    hide FindAny, Encoded;
    if IsBlank(base) { return Err("redirect_uri must be provided"); }
    var hash := FindAny(base, {'#'});
    var head := base[..hash];
    var parameters := "code=";
    var encodedCode := EncodeComponent(code);
    parameters := parameters + encodedCode;
    if state.Some? {
      var encodedState := EncodeComponent(state.value);
      parameters := parameters + ("&state=" + encodedState);
    }
    assert parameters == Added(code, state);
    var url := head;
    url := url + if FindAny(head, {'?'}) < |head| then "&" else "?";
    url := url + parameters;
    assert url + "" == url;
    if hash < |base| { url := url + ("#" + base[hash + 1..]); }
    r := Ok(url);
  }

  // ---------- Reading a URI

  /** Percent-decoding. */
  function Decode(s: string): Option<seq<Byte>> {
    if s == "" then Some([])
    else if s[0] == '%' then
      if |s| < 3 || HexValue(s[1]).None? || HexValue(s[2]).None? then None else
      match Decode(s[3..])
      case None => None
      case Some(rest) => Some([HexValue(s[1]).value * 16 + HexValue(s[2]).value] + rest)
    else if s[0] as int >= 128 then None else
      match Decode(s[1..])
      case None => None
      case Some(rest) => Some([s[0] as int] + rest)
  }

  datatype Uri = Uri(path: string, query: Option<string>, fragment: Option<string>)

  /** The fragment begins behind the first '#', the query behind the first '?' before that. */
  function ReadUri(s: string): Uri {
    var hash := FindAny(s, {'#'});
    var head := s[..hash];
    var mark := FindAny(head, {'?'});
    Uri(head[..mark],
      if mark < |head| then Some(head[mark + 1..]) else None,
      if hash < |s| then Some(s[hash + 1..]) else None)
  }

  datatype Parameter = Parameter(name: string, value: string)

  function ReadParameter(s: string): Parameter {
    var eq := FindAny(s, {'='});
    Parameter(s[..eq], if eq < |s| then s[eq + 1..] else "")
  }

  /** The parameters of a query, separated by '&'. */
  function ReadParameters(query: string): seq<Parameter>
    decreases |query|
  {
    var amp := FindAny(query, {'&'});
    if amp == |query| then [ReadParameter(query)]
    else [ReadParameter(query[..amp])] + ReadParameters(query[amp + 1..])
  }

  // ---------- Results

  lemma HexRoundTrip(n: nat)
    requires n < 16
    ensures HexValue(HexDigit(n)) == Some(n)
  {
  }

  /** Percent-decoding inverts the encoder on every byte string. */
  lemma {:induction false} DecodeEncoded(value: seq<Byte>)
    ensures Decode(Encoded(value)) == Some(value)
  {
    if value != [] {
      var b, s := value[0], Encoded(value);
      DecodeEncoded(value[1..]);
      HexRoundTrip(b / 16);
      HexRoundTrip(b % 16);
      assert s[|EncodeByte(b)|..] == Encoded(value[1..]);
      assert value == [b] + value[1..];
    }
  }

  const DELIMITERS: set<char> := {'#', '?', '&', '='}

  predicate NoDelimiter(s: string) { forall k :: 0 <= k < |s| ==> s[k] !in DELIMITERS }

  lemma {:induction false} EncodedHasNoDelimiter(value: seq<Byte>)
    ensures NoDelimiter(Encoded(value))
  {
    if value != [] {
      EncodedHasNoDelimiter(value[1..]);
      assert NoDelimiter(EncodeByte(value[0]));
    }
  }

  lemma {:induction false} ParametersConcat(a: string, b: string)
    ensures ReadParameters(a + "&" + b) == ReadParameters(a) + ReadParameters(b)
    decreases |a|
  {
    hide ReadParameter, FindAny;
    var amp := FindAny(a, {'&'});
    if amp == |a| {
      FindAnySplit(a, '&', b, {'&'});
      assert a + ['&'] + b == a + "&" + b;
    } else {
      var l, r := a[..amp], a[amp + 1..];
      assert a == l + "&" + r;
      FindAnySplit(l, '&', r + "&" + b, {'&'});
      assert a + "&" + b == l + ['&'] + (r + "&" + b);
      ParametersConcat(r, b);
    }
  }

  lemma OneParameter(name: string, value: string)
    requires NoDelimiter(name) && NoDelimiter(value)
    ensures ReadParameters(name + "=" + value) == [Parameter(name, value)]
  {
    FindAnyNone(name + "=" + value, {'&'});
    FindAnySplit(name, '=', value, {'='});
  }

  function AddedParameters(code: seq<Byte>, state: Option<seq<Byte>>): seq<Parameter> {
    [Parameter("code", Encoded(code))] + if state.Some? then [Parameter("state", Encoded(state.value))] else []
  }

  lemma ReadAdded(code: seq<Byte>, state: Option<seq<Byte>>)
    ensures ReadParameters(Added(code, state)) == AddedParameters(code, state)
    ensures forall k :: 0 <= k < |Added(code, state)| ==> Added(code, state)[k] != '#'
  {
    hide Encoded, ReadParameters, FindAny;
    EncodedHasNoDelimiter(code);
    OneParameter("code", Encoded(code));
    assert "code" + "=" + Encoded(code) == "code=" + Encoded(code);
    if state.Some? {
      EncodedHasNoDelimiter(state.value);
      OneParameter("state", Encoded(state.value));
      assert "state" + "=" + Encoded(state.value) == "state=" + Encoded(state.value);
      ParametersConcat("code=" + Encoded(code), "state=" + Encoded(state.value));
      assert Added(code, state) == "code=" + Encoded(code) + "&" + ("state=" + Encoded(state.value));
    } else {
      assert Added(code, state) == "code=" + Encoded(code);
    }
  }

  lemma ReadHead(path: string, query: Option<string>, fragment: Option<string>)
    requires forall k :: 0 <= k < |path| ==> path[k] != '?' && path[k] != '#'
    requires query.Some? ==> forall k :: 0 <= k < |query.value| ==> query.value[k] != '#'
    ensures ReadUri(path + (if query.Some? then "?" + query.value else "") +
      (if fragment.Some? then "#" + fragment.value else "")) == Uri(path, query, fragment)
  {
    hide FindAny;
    var head := path + if query.Some? then "?" + query.value else "";
    if query.Some? {
      FindAnySplit(path, '?', query.value, {'?'});
      assert path + ['?'] + query.value == head;
    } else {
      FindAnyNone(path, {'?'});
      assert head == path;
    }
    var s := head + if fragment.Some? then "#" + fragment.value else "";
    if fragment.Some? {
      FindAnySplit(head, '#', fragment.value, {'#'});
      assert head + ['#'] + fragment.value == s;
    } else {
      assert s == head;
      FindAnyNone(head, {'#'});
      assert s[..|s|] == head;
    }
  }

  /** Any text is the path, query and fragment read from it. */
  lemma UriParts(s: string)
    ensures var u := ReadUri(s);
      s == u.path + (if u.query.Some? then "?" + u.query.value else "") +
        (if u.fragment.Some? then "#" + u.fragment.value else "")
    ensures var u := ReadUri(s);
      (forall k :: 0 <= k < |u.path| ==> u.path[k] != '?' && u.path[k] != '#') &&
      (u.query.Some? ==> forall k :: 0 <= k < |u.query.value| ==> u.query.value[k] != '#')
  {
    hide FindAny;
    var hash := FindAny(s, {'#'});
    var head := s[..hash];
    var mark := FindAny(head, {'?'});
    assert head == head[..mark] + if mark < |head| then "?" + head[mark + 1..] else "";
    assert s == head + if hash < |s| then "#" + s[hash + 1..] else "";
    assert forall k :: 0 <= k < |head| ==> head[k] == s[k];
    if mark < |head| {
      var query := head[mark + 1..];
      assert forall k :: 0 <= k < |query| ==> query[k] == head[mark + 1 + k];
    }
  }

  /** The query the program builds. */
  function ExtendedQuery(base: Uri, added: string): string {
    if base.query.Some? then base.query.value + "&" + added else added
  }

  lemma RedirectShape(base: string, code: seq<Byte>, state: Option<seq<Byte>>)
    requires !IsBlank(base)
    ensures var b := ReadUri(base);
      RedirectUri(base, code, state) == Ok(b.path + "?" + ExtendedQuery(b, Added(code, state)) +
        (if b.fragment.Some? then "#" + b.fragment.value else ""))
  {
    hide FindAny, Encoded, IsBlank;
    var hash := FindAny(base, {'#'});
    var head := base[..hash];
    var mark := FindAny(head, {'?'});
    var b, added := ReadUri(base), Added(code, state);
    if mark < |head| {
      assert head == head[..mark] + "?" + head[mark + 1..];
      assert head + "&" + added == b.path + "?" + (b.query.value + "&" + added);
    } else {
      assert head[..mark] == head;
    }
  }

  /**
   Reading the built URI gives back the path and fragment of the base unchanged, and the parameters of the
   base followed by the exact code and state.
   */
  lemma RedirectRoundTrip(base: string, code: seq<Byte>, state: Option<seq<Byte>>)
    ensures RedirectUri(base, code, state).Ok? <==> !IsBlank(base)
    ensures !IsBlank(base) ==>
      var b, u := ReadUri(base), ReadUri(RedirectUri(base, code, state).value);
      u.path == b.path && u.fragment == b.fragment && u.query.Some? &&
      (b.query.Some? ==> b.query.value <= u.query.value) &&
      ReadParameters(u.query.value) ==
        (if b.query.Some? then ReadParameters(b.query.value) else []) + AddedParameters(code, state) &&
      Decode(Encoded(code)) == Some(code) && (state.Some? ==> Decode(Encoded(state.value)) == Some(state.value))
  {
    hide FindAny, Encoded, IsBlank, ReadUri, ReadParameters, Decode;
    if !IsBlank(base) {
      var b, added := ReadUri(base), Added(code, state);
      var q := ExtendedQuery(b, added);
      RedirectShape(base, code, state);
      UriParts(base);
      ReadAdded(code, state);
      ReadHead(b.path, Some(q), b.fragment);
      assert b.path + ("?" + q) == b.path + "?" + q;
      if b.query.Some? { ParametersConcat(b.query.value, added); }
      DecodeEncoded(code);
      if state.Some? { DecodeEncoded(state.value); }
    }
  }
}
