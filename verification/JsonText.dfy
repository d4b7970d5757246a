/** Strings in JSON text: escaping, which strings a quoted text can hold, and unescaping. */
module JsonText {

  // ----- escaping -----

  function HexDigit(v: nat): char
    requires v < 16
  {
    if v < 10 then ('0' as int + v) as char else ('a' as int + v - 10) as char
  }

  /** json_escape on one character: printable ones as they are, the others behind a backslash. */
  function EscapeChar(c: char): string {
    if c == '"' || c == '\\' then ['\\', c]
    else if c as int > 0x1f then [c]
    else if c == '\n' then "\\n"
    else if c == '\r' then "\\r"
    else if c as int == 8 then "\\b"
    else if c as int == 12 then "\\f"
    else if c == '\t' then "\\t"
    else "\\u00" + [HexDigit(c as int / 16), HexDigit(c as int % 16)]
  }

  function Escape(s: string): string { if s == "" then "" else EscapeChar(s[0]) + Escape(s[1..]) }

  // ----- the text between two quotes -----

  predicate IsHex(c: char) { '0' <= c <= '9' || 'A' <= c <= 'F' || 'a' <= c <= 'f' }

  predicate IsHex4(s: string) { |s| == 4 && IsHex(s[0]) && IsHex(s[1]) && IsHex(s[2]) && IsHex(s[3]) }

  predicate IsSimple(c: char) {
    c == '"' || c == '/' || c == '\\' || c == 'b' || c == 'f' || c == 'r' || c == 'n' || c == 't'
  }

  /** s can stand between two quotes: every quote is escaped, and every escape is one that JSON has. */
  predicate Quotable(s: string) {
    s == "" ||
    if s[0] == '\\' then
      if |s| == 1 then false
      else if s[1] == 'u' then |s| >= 6 && IsHex4(s[2..6]) && Quotable(s[6..])
      else IsSimple(s[1]) && Quotable(s[2..])
    else s[0] != '"' && s[0] != '\0' && Quotable(s[1..])
  }

  // ----- unescaping -----

  function HexValue(c: char): nat
    requires IsHex(c)
  {
    if c <= '9' then c as int - '0' as int
    else if c <= 'F' then c as int - 'A' as int + 10
    else c as int - 'a' as int + 10
  }

  /** The character of \uXXXX, whose code is cut to eight bits. */
  function CodeChar(x: string): char {
    if IsHex4(x) then
      ((HexValue(x[0]) * 4096 + HexValue(x[1]) * 256 + HexValue(x[2]) * 16 + HexValue(x[3])) % 256) as char
    else '!'
  }

  function SimpleChar(c: char): char {
    match c case 'b' => 8 as char case 'f' => 12 as char case 'n' => '\n' case 'r' => '\r' case 't' => '\t' case _ => c
  }

  /** How many characters the first one of s and its escape take. */
  function Stride(s: string): (n: nat)
    requires s != ""
    ensures 0 < n <= |s|
  {
    var n := if s[0] != '\\' then 1 else if |s| > 1 && s[1] == 'u' then 6 else 2;
    if n <= |s| then n else |s|
  }

  function First(s: string): char
    requires s != ""
  {
    if s[0] != '\\' || |s| == 1 then s[0]
    else if s[1] == 'u' then CodeChar(s[2..Stride(s)])
    else SimpleChar(s[1])
  }

  /** json_unescape. */
  function Unescape(s: string): string { if s == "" then "" else [First(s)] + Unescape(s[Stride(s)..]) }

  /** The string that starts the text s: up to the terminator, if there is one. */
  function UpToNul(s: string): string { if s == "" || s[0] == '\0' then "" else [s[0]] + UpToNul(s[1..]) }

  lemma {:induction false} UpToNulWhole(s: string)
    requires '\0' !in s
    ensures UpToNul(s) == s
  {
    if s != "" {
      UpToNulWhole(s[1..]);
    }
  }

  /** json_unescape in place: the result is written over the text it is made from. */
  method JsonUnescape(buf: array<char>, len: nat) returns (n: nat)
    requires len <= buf.Length
    modifies buf
    ensures n <= len && buf[..n] == Unescape(old(buf[..len]))
    ensures buf[len..] == old(buf[len..])
  {
    hide Stride, First, Unescape;
    var p := 0;
    n := 0;
    ghost var was := buf[..len];
    assert was[0..] == was && buf[..0] + Unescape(was) == Unescape(was);
    while p < len
      invariant n <= p <= len && buf[p..] == old(buf[p..]) && was == old(buf[..len])
      invariant buf[..n] + Unescape(was[p..]) == Unescape(was)
    {
      var rest := buf[p..len];
      assert rest == was[p..] by {
        assert old(buf[p..])[..len - p] == rest;
      }
      ghost var done := buf[..n];
      UnescapeStep(done, was, p);
      buf[n] := First(rest);
      assert buf[..n + 1] == done + [First(rest)];
      n, p := n + 1, p + Stride(rest);
    }
    NothingLeft(was, buf[..n]);
  }

  lemma UnescapeStep(done: string, s: string, p: nat)
    requires p < |s|
    ensures var x := s[p..];
      p + Stride(x) <= |s| && done + Unescape(x) == done + [First(x)] + Unescape(s[p + Stride(x)..])
  {
    hide Stride, First;
    var x := s[p..];
    assert x[Stride(x)..] == s[p + Stride(x)..];
    assert done + ([First(x)] + Unescape(x[Stride(x)..])) == done + [First(x)] + Unescape(x[Stride(x)..]);
  }

  lemma NothingLeft(s: string, done: string)
    ensures done + Unescape(s[|s|..]) == done
  {
    assert s[|s|..] == "";
  }

  // ----- the one undoes the other -----

  lemma HexBack(v: nat)
    requires v < 16
    ensures IsHex(HexDigit(v)) && HexValue(HexDigit(v)) == v
  {
  }

  lemma EscapeCharBack(c: char, rest: string)
    requires c != '\0'
    ensures Quotable(EscapeChar(c) + rest) <==> Quotable(rest)
    ensures Unescape(EscapeChar(c) + rest) == [c] + Unescape(rest)
  {
    if |EscapeChar(c)| == 6 {
      CodeBack(c, rest);
    } else if |EscapeChar(c)| == 2 {
      PairBack(c, rest);
    } else {
      assert ([c] + rest)[1..] == rest;
    }
  }

  lemma PairBack(c: char, rest: string)
    requires |EscapeChar(c)| == 2
    ensures Quotable(EscapeChar(c) + rest) <==> Quotable(rest)
    ensures Unescape(EscapeChar(c) + rest) == [c] + Unescape(rest)
  {
    var x := EscapeChar(c) + rest;
    assert x[0] == '\\' && x[1] == EscapeChar(c)[1] && x[2..] == rest;
    assert IsSimple(x[1]) && SimpleChar(x[1]) == c;
  }

  lemma CodeBack(c: char, rest: string)
    requires c != '\0' && |EscapeChar(c)| == 6
    ensures Quotable(EscapeChar(c) + rest) <==> Quotable(rest)
    ensures Unescape(EscapeChar(c) + rest) == [c] + Unescape(rest)
  {
    var n := c as int;
    var x := EscapeChar(c) + rest;
    HexBack(n / 16);
    HexBack(n % 16);
    assert x[0] == '\\' && x[1] == 'u' && x[6..] == rest;
    assert x[2..6] == ['0', '0', HexDigit(n / 16), HexDigit(n % 16)];
    assert CodeChar(x[2..6]) == c by {
      assert HexValue('0') == 0 && n / 16 * 16 + n % 16 == n;
    }
  }

  /** An escaped string can be quoted, and unescaping it gives the string back. */
  lemma {:induction false} EscapeRoundTrip(s: string)
    requires '\0' !in s
    ensures Quotable(Escape(s)) && Unescape(Escape(s)) == s
  {
    if s != "" {
      EscapeRoundTrip(s[1..]);
      EscapeCharBack(s[0], Escape(s[1..]));
    }
  }

  /** A string without quotes, backslashes and terminators can be quoted as it is. */
  lemma {:induction false} PlainQuotable(s: string)
    requires forall i :: 0 <= i < |s| ==> s[i] != '"' && s[i] != '\\' && s[i] != '\0'
    ensures Quotable(s)
  {
    if s != "" {
      PlainQuotable(s[1..]);
    }
  }

  // ----- the escapes, one by one -----

  /** What a character is escaped to: five control characters and the quote and the backslash have an escape of two
    * characters, the other control characters their code, and everything else stands for itself. */
  lemma EscapedAs(c: char)
    ensures EscapeChar(c) ==
      if c as int == 0x22 then ['\\', '"']
      else if c as int == 0x5c then ['\\', '\\']
      else if c as int == 0x08 then ['\\', 'b']
      else if c as int == 0x09 then ['\\', 't']
      else if c as int == 0x0a then ['\\', 'n']
      else if c as int == 0x0c then ['\\', 'f']
      else if c as int == 0x0d then ['\\', 'r']
      else if c as int < 0x20 then
        ['\\', 'u', '0', '0', "0123456789abcdef"[c as int / 16], "0123456789abcdef"[c as int % 16]]
      else [c]
  {
  }

  /** What an escape is unescaped to. */
  lemma UnescapedAs(c: char, rest: string)
    requires c != 'u'
    ensures Unescape(['\\', c] + rest) ==
      [if c == 'b' then 0x08 as char
       else if c == 't' then 0x09 as char
       else if c == 'n' then 0x0a as char
       else if c == 'f' then 0x0c as char
       else if c == 'r' then 0x0d as char
       else c] + Unescape(rest)
  {
    var x := ['\\', c] + rest;
    assert x[2..] == rest;
  }

  /** The value of a hex digit is its place among them. */
  lemma HexMeans(v: nat)
    requires v < 16
    ensures HexValue("0123456789abcdef"[v]) == v && HexValue("0123456789ABCDEF"[v]) == v
  {
  }

  /** A code is unescaped to the character of its low eight bits. */
  lemma CodeUnescaped(a: nat, b: nat, c: nat, d: nat, rest: string)
    requires a < 16 && b < 16 && c < 16 && d < 16
    ensures Unescape(['\\', 'u', HexDigit(a), HexDigit(b), HexDigit(c), HexDigit(d)] + rest) ==
      [(16 * c + d) as char] + Unescape(rest)
  {
    var digits := [HexDigit(a), HexDigit(b), HexDigit(c), HexDigit(d)];
    var x := ['\\', 'u', HexDigit(a), HexDigit(b), HexDigit(c), HexDigit(d)] + rest;
    assert x[2..6] == digits && x[6..] == rest;
    HexBack(a);
    HexBack(b);
    HexBack(c);
    HexBack(d);
    assert (a * 4096 + b * 256 + c * 16 + d) % 256 == 16 * c + d;
  }
}
