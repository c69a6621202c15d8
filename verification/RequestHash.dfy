/**
 What the request hashes are taken of (src/mcp.rs, src/a2a.rs, src/idempotency.rs). A digest is represented by
 the text it is taken of; equal text means the same request.
 */
module RequestHash {
  import opened Text
  import opened Json
  import opened JsonReader
  import opened Canonical

  function McpPreimage(verb: string, params: Value): string { verb + "\n" + CanonicalValue(params) }

  function A2aPreimage(message: Value): string { CanonicalValue(message) }

  function HttpPreimage(verb: string, path: string, body: string): string { verb + " " + path + "\n" + body }

  predicate NoNewline(s: string) { forall k :: 0 <= k < |s| ==> s[k] != '\n' }

  lemma {:induction false} EscapedHasNoNewline(s: string)
    ensures NoNewline(Escaped(s))
  {
    if s != "" {
      EscapedHasNoNewline(s[1..]);
      assert NoNewline(EscapeChar(s[0]));
    }
  }

  lemma {:induction false} JoinHasNoNewline(parts: seq<string>)
    requires forall i :: 0 <= i < |parts| ==> NoNewline(parts[i])
    ensures NoNewline(Join(parts))
  {
    if |parts| > 1 { JoinHasNoNewline(parts[1..]); }
  }

  lemma {:induction false} PrintHasNoNewline(v: Value)
    requires Printable(v)
    ensures NoNewline(Print(v))
  {
    match v
    case Str(s) => EscapedHasNoNewline(s);
    case Arr(items) =>
      forall i | 0 <= i < |items| { PrintHasNoNewline(items[i]); }
      JoinHasNoNewline(PrintItems(items));
    case Obj(ms) =>
      var texts := MemberTexts(PrintMembers(ms));
      forall i | 0 <= i < |ms| ensures NoNewline(texts[i]) {
        PrintHasNoNewline(ms[i].value);
        EscapedHasNoNewline(ms[i].key);
      }
      JoinHasNoNewline(texts);
    case _ =>
  }

  /** The last newline of a text that ends in a part without newlines is the one before that part. */
  lemma LastNewline(a: string, b: string, c: string, d: string)
    requires NoNewline(b) && NoNewline(d) && a + "\n" + b == c + "\n" + d
    ensures a == c && b == d
  {
    var s, t := a + "\n" + b, c + "\n" + d;
    assert s[|a|] == '\n' && t[|c|] == '\n';
    assert forall k :: |a| < k < |s| ==> s[k] == b[k - |a| - 1];
    assert forall k :: |c| < k < |t| ==> t[k] == d[k - |c| - 1];
    assert |a| == |c|;
    assert a == s[..|a|] && c == t[..|c|] && b == s[|a| + 1..] && d == t[|c| + 1..];
  }

  /** MCP requests with the same hash have the same method and equivalent parameters, for any method names. */
  lemma McpHashIdentifies(m: string, v: Value, n: string, w: Value)
    requires Valid(v) && Valid(w) && McpPreimage(m, v) == McpPreimage(n, w)
    ensures m == n && Equivalent(v, w, false)
  {
    hide CanonicalValue, Print, Normal, Valid, Equivalent;
    CanonicalIsPrintOfNormal(v);
    CanonicalIsPrintOfNormal(w);
    NormalIsPrintable(v);
    NormalIsPrintable(w);
    PrintHasNoNewline(Normal(v));
    PrintHasNoNewline(Normal(w));
    LastNewline(m, CanonicalValue(v), n, CanonicalValue(w));
    CanonicalDeterminesValue(v, w);
  }

  /** Parameters that differ only in member order give the same hash, so a retry is recognized. */
  lemma McpHashIgnoresOrder(m: string, v: Value, w: Value)
    requires Valid(v) && Valid(w) && Equivalent(v, w, true)
    ensures McpPreimage(m, v) == McpPreimage(m, w) && A2aPreimage(v) == A2aPreimage(w)
  {
    CanonicalIgnoresOrder(v, w);
  }

  /** A2A messages with the same hash are equivalent. */
  lemma A2aHashIdentifies(v: Value, w: Value)
    requires Valid(v) && Valid(w) && A2aPreimage(v) == A2aPreimage(w)
    ensures Equivalent(v, w, false)
  {
    CanonicalDeterminesValue(v, w);
  }

  /** HTTP requests with the same hash are equal; a method has no space and a path no newline. */
  lemma HttpHashIdentifies(m: string, p: string, b: string, n: string, q: string, c: string)
    requires forall k :: 0 <= k < |m| ==> m[k] != ' '
    requires forall k :: 0 <= k < |n| ==> n[k] != ' '
    requires NoNewline(p) && NoNewline(q) && HttpPreimage(m, p, b) == HttpPreimage(n, q, c)
    ensures m == n && p == q && b == c
  {
    hide FindAny;
    FindAnySplit(m, ' ', p + "\n" + b, {' '});
    FindAnySplit(n, ' ', q + "\n" + c, {' '});
    assert HttpPreimage(m, p, b) == m + [' '] + (p + "\n" + b);
    assert HttpPreimage(n, q, c) == n + [' '] + (q + "\n" + c);
    FindAnySplit(p, '\n', b, {'\n'});
    FindAnySplit(q, '\n', c, {'\n'});
    assert p + "\n" + b == p + ['\n'] + b && q + "\n" + c == q + ['\n'] + c;
  }
}
