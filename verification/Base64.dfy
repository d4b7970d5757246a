/** Base64 as the library writes it, with a line feed after every 72 characters, and as it reads it, skipping
  * everything that is not one of its characters (section 4 of RFC 4648 has the code itself). */
module Base64 {
  import opened Base

  predicate Byte(b: int) { 0 <= b < 256 }
  ghost predicate Bytes(s: seq<int>) { forall b :: b in s ==> Byte(b) }

  const LINE := 72

  /** base64_table. */
  function Symbol(v: int): char {
    if v < 0 then '='
    else if v < 26 then ('A' as int + v) as char
    else if v < 52 then ('a' as int + (v - 26)) as char
    else if v < 62 then ('0' as int + (v - 52)) as char
    else if v == 62 then '+'
    else '/'
  }

  /** dtable: the value of a character, with 0 for the padding, or -1 to skip it. */
  function ValueOf(c: char): int {
    if 'A' <= c <= 'Z' then c as int - 'A' as int
    else if 'a' <= c <= 'z' then c as int - 'a' as int + 26
    else if '0' <= c <= '9' then c as int - '0' as int + 52
    else if c == '+' then 62
    else if c == '/' then 63
    else if c == '=' then 0
    else -1
  }

  lemma SymbolValue(v: int)
    requires 0 <= v < 64
    ensures ValueOf(Symbol(v)) == v && Symbol(v) != '='
  {
  }

  // The four six-bit values of three bytes.
  function First(a: int): int { a / 4 }
  function Second(a: int, b: int): int { a % 4 * 16 + b / 16 }
  function Third(b: int, c: int): int { b % 16 * 4 + c / 64 }
  function Fourth(c: int): int { c % 64 }

  lemma SixBits(a: int, b: int, c: int)
    requires Byte(a) && Byte(b) && Byte(c)
    ensures 0 <= First(a) < 64 && 0 <= Second(a, b) < 64 && 0 <= Third(b, c) < 64 && 0 <= Fourth(c) < 64
    ensures Byte1(First(a), Second(a, b)) == a
    ensures Byte2(Second(a, b), Third(b, c)) == b
    ensures Byte3(Third(b, c), Fourth(c)) == c
  {
    hide First, Second, Third, Fourth, Byte1, Byte2, Byte3;
    FirstByte(a, b);
    SecondByte(a, b, c);
    ThirdByte(b, c);
  }

  /** The parts of x * m + y, with y below m. */
  lemma Parts(x: int, y: int, m: int)
    requires (m == 4 || m == 16 || m == 256) && 0 <= y < m
    ensures (x * m + y) / m == x && (x * m + y) % m == y
  {
    if m == 4 {
      assert (x * 4 + y) / 4 == x;
    } else if m == 16 {
      assert (x * 16 + y) / 16 == x;
    } else {
      assert (x * 256 + y) / 256 == x;
    }
  }

  lemma FirstByte(a: int, b: int)
    requires Byte(a) && Byte(b)
    ensures 0 <= First(a) < 64 && 0 <= Second(a, b) < 64 && Byte1(First(a), Second(a, b)) == a
  {
    Parts(a % 4, b / 16, 16);
    assert a / 4 * 4 + a % 4 == a;
  }

  lemma SecondByte(a: int, b: int, c: int)
    requires Byte(a) && Byte(b) && Byte(c)
    ensures 0 <= Third(b, c) < 64 && Byte2(Second(a, b), Third(b, c)) == b
  {
    Parts(b % 16, c / 64, 4);
    assert b / 16 * 16 + b % 16 == b;
    assert Second(a, b) * 16 + b % 16 == a % 4 * 256 + b;
    Parts(a % 4, b, 256);
  }

  lemma ThirdByte(b: int, c: int)
    requires Byte(b) && Byte(c)
    ensures 0 <= Fourth(c) < 64 && Byte3(Third(b, c), Fourth(c)) == c
  {
    assert c / 64 * 64 + c % 64 == c;
    assert Third(b, c) * 64 + Fourth(c) == b % 16 * 256 + c;
    Parts(b % 16, c, 256);
  }

  function Nth(d: seq<int>, i: nat): int { if i < |d| then d[i] else 0 }

  /** The four characters of a group of up to three bytes. */
  function Group(d: seq<int>): (g: string)
    ensures |g| == 4
  {
    [Symbol(First(Nth(d, 0))), Symbol(Second(Nth(d, 0), Nth(d, 1))),
     if |d| > 1 then Symbol(Third(Nth(d, 1), Nth(d, 2))) else '=', if |d| > 2 then Symbol(Fourth(Nth(d, 2))) else '=']
  }

  /** mos_base64_encode from some byte on, with line characters already on the line. */
  function EncodeFrom(d: seq<int>, line: nat): string {
    if d == [] then ""
    else if |d| < 3 then Group(d)
    else if line + 4 >= LINE then Group(d[..3]) + "\n" + EncodeFrom(d[3..], 0)
    else Group(d[..3]) + EncodeFrom(d[3..], line + 4)
  }

  function Encode(d: seq<int>): string { EncodeFrom(d, 0) }

  /** The characters the decoder does not skip. */
  function Kept(s: string): string {
    if s == "" then "" else (if ValueOf(s[0]) >= 0 then [s[0]] else "") + Kept(s[1..])
  }

  function Bytes3(g: string): (r: seq<int>)
    requires |g| == 4
    ensures |r| == 3
  {
    [Byte1(ValueOf(g[0]), ValueOf(g[1])), Byte2(ValueOf(g[1]), ValueOf(g[2])), Byte3(ValueOf(g[2]), ValueOf(g[3]))]
  }

  // The three bytes of four six-bit values.
  function Byte1(v: int, w: int): int { (v * 4 + w / 16) % 256 }
  function Byte2(v: int, w: int): int { (v * 16 + w / 4) % 256 }
  function Byte3(v: int, w: int): int { (v * 64 + w) % 256 }

  /** Three bytes for every four characters. */
  function Groups(s: string): seq<int> {
    if |s| < 4 then [] else Bytes3(s[..4]) + Groups(s[4..])
  }

  function Padding(s: string): int
    requires |s| >= 4
  {
    if s[|s| - 2] == '=' then 2 else if s[|s| - 1] == '=' then 1 else 0
  }

  lemma {:induction false} GroupsLength(s: string)
    ensures |Groups(s)| == |s| / 4 * 3
  {
    hide Bytes3;
    if |s| >= 4 {
      GroupsLength(s[4..]);
    }
  }

  /** mos_base64_decode; None is its NULL. */
  function Decode(s: string): Option<seq<int>> {
    var k := Kept(s);
    GroupsLength(k);
    if |k| == 0 || |k| % 4 != 0 then None else Some(Groups(k)[..|k| / 4 * 3 - Padding(k)])
  }

  // ----- what is encoded is decoded -----

  lemma {:induction false} KeptAppend(s: string, t: string)
    ensures Kept(s + t) == Kept(s) + Kept(t)
  {
    hide ValueOf;
    if s == "" {
      assert s + t == t;
    } else {
      hide Kept;
      var c, rest := s[0], s[1..];
      KeptCons(c, rest);
      KeptCons(c, rest + t);
      KeptAppend(rest, t);
      assert s == [c] + rest && s + t == [c] + (rest + t);
    }
  }

  lemma KeptCons(c: char, s: string)
    ensures Kept([c] + s) == (if ValueOf(c) >= 0 then [c] else "") + Kept(s)
  {
    assert ([c] + s)[1..] == s;
  }

  lemma KeptFour(a: char, b: char, c: char, d: char)
    requires ValueOf(a) >= 0 && ValueOf(b) >= 0 && ValueOf(c) >= 0 && ValueOf(d) >= 0
    ensures Kept([a, b, c, d]) == [a, b, c, d]
  {
    hide ValueOf;
    KeptCons(d, "");
    KeptCons(c, [d]);
    KeptCons(b, [c, d]);
    KeptCons(a, [b, c, d]);
    assert [d] + "" == [d] && [c] + [d] == [c, d] && [b] + [c, d] == [b, c, d] && [a] + [b, c, d] == [a, b, c, d];
  }

  ghost predicate Piece(d: seq<int>) { 1 <= |d| <= 3 && Bytes(d) }

  lemma GroupRead(d: seq<int>)
    requires Piece(d)
    ensures Kept(Group(d)) == Group(d) && Bytes3(Group(d))[..|d|] == d && Padding(Group(d)) == 3 - |d|
  {
    hide Symbol, ValueOf, Kept, Byte1, Byte2, Byte3;
    var a, b, c := Nth(d, 0), Nth(d, 1), Nth(d, 2);
    assert forall i :: 0 <= i < |d| ==> d[i] in d;
    SixBits(a, b, c);
    SymbolValue(First(a));
    SymbolValue(Second(a, b));
    SymbolValue(Third(b, c));
    SymbolValue(Fourth(c));
    PaddingValue();
    var g := Group(d);
    KeptFour(g[0], g[1], g[2], g[3]);
    assert g == [g[0], g[1], g[2], g[3]];
    BytesRead(d, g);
  }

  /** With padding, the bytes that are there do not depend on those that are not. */
  lemma BytesRead(d: seq<int>, g: string)
    requires 1 <= |d| <= 3 && |g| == 4 && Byte1(ValueOf(g[0]), ValueOf(g[1])) == d[0]
    requires |d| > 1 ==> Byte2(ValueOf(g[1]), ValueOf(g[2])) == d[1]
    requires |d| > 2 ==> Byte3(ValueOf(g[2]), ValueOf(g[3])) == d[2]
    ensures Bytes3(g)[..|d|] == d
  {
    hide ValueOf, Byte1, Byte2, Byte3;
  }

  lemma PaddingValue()
    ensures ValueOf('=') == 0
  {
  }

  lemma GroupsStep(g: string, s: string)
    requires |g| == 4
    ensures Groups(g + s) == Bytes3(g) + Groups(s)
  {
    assert (g + s)[..4] == g && (g + s)[4..] == s;
  }

  /** What is kept of the encoding: whole groups, whose bytes are the data up to the padding. */
  lemma {:induction false} EncodingRead(d: seq<int>, line: nat)
    requires Bytes(d)
    ensures var k := Kept(EncodeFrom(d, line));
      && |k| % 4 == 0 && (|k| == 0 <==> d == [])
      && |Groups(k)| >= |d| && Groups(k)[..|d|] == d
      && (d != [] ==> |k| / 4 * 3 - Padding(k) == |d|)
  {
    hide Kept, Group, Bytes3, ValueOf;
    EmptyKept();
    if 0 < |d| < 3 {
      GroupRead(d);
      GroupsStep(Group(d), "");
      assert Group(d) + "" == Group(d) && Groups("") == [];
      assert Bytes3(Group(d)) + [] == Bytes3(Group(d));
    } else if |d| >= 3 {
      var d3, rest := d[..3], d[3..];
      assert d == d3 + rest && Bytes(d3) && Bytes(rest);
      var lf, line' := if line + 4 >= LINE then "\n" else "", if line + 4 >= LINE then 0 else line + 4;
      GroupRead(d3);
      EncodingRead(rest, line');
      EncodeStep(d, line, lf, line');
      KeptStep(Group(d3), lf, EncodeFrom(rest, line'));
      GroupsStep(Group(d3), Kept(EncodeFrom(rest, line')));
      PaddingStep(Group(d3), Kept(EncodeFrom(rest, line')));
      var kr := Kept(EncodeFrom(rest, line'));
      GroupsLength(kr);
      assert Bytes3(Group(d3))[..3] == Bytes3(Group(d3));
      assert (d3 + Groups(kr))[..|d|] == d3 + Groups(kr)[..|rest|];
    }
  }

  lemma EmptyKept()
    ensures Kept("") == ""
  {
  }

  lemma EncodeStep(d: seq<int>, line: nat, lf: string, line': nat)
    requires |d| >= 3 && lf == (if line + 4 >= LINE then "\n" else "")
    requires line' == if line + 4 >= LINE then 0 else line + 4
    ensures EncodeFrom(d, line) == Group(d[..3]) + lf + EncodeFrom(d[3..], line')
  {
    assert Group(d[..3]) + "" == Group(d[..3]);
  }

  lemma KeptStep(g: string, lf: string, s: string)
    requires Kept(g) == g && (lf == "" || lf == "\n")
    ensures Kept(g + lf + s) == g + Kept(s)
  {
    hide Kept;
    KeptAppend(g + lf, s);
    KeptAppend(g, lf);
    EmptyKept();
    KeptCons('\n', "");
    assert ['\n'] + "" == "\n" && g + "" == g;
  }

  lemma PaddingStep(g: string, k: string)
    requires |g| == 4 && Padding(g) == 0
    ensures |k| >= 4 ==> Padding(g + k) == Padding(k)
    ensures |k| == 0 ==> Padding(g + k) == 0
  {
    assert g + "" == g;
  }

  /** Data that is not empty comes back; empty data does not. */
  lemma RoundTrip(d: seq<int>)
    requires Bytes(d)
    ensures Decode(Encode(d)) == if d == [] then None else Some(d)
  {
    hide EncodeFrom;
    EncodingRead(d, 0);
  }

  /** Nothing in the encoding ends a C string early. */
  lemma NoNul(d: seq<int>, line: nat)
    ensures '\0' !in EncodeFrom(d, line)
  {
  }

  // ----- the encoding character by character, and the decoding byte by byte -----

  const ALPHABET := "ABCDEFGHIJKLMNOPQRSTUVWXYZ" + "abcdefghijklmnopqrstuvwxyz" + "0123456789+/"

  lemma SymbolIs(v: int)
    requires 0 <= v < 64
    ensures Symbol(v) == ALPHABET[v]
  {
    if v < 26 {
      Upper(v);
    } else if v < 52 {
      Lower(v - 26);
    } else {
      Others(v - 52);
    }
  }

  lemma Upper(v: int)
    requires 0 <= v < 26
    ensures "ABCDEFGHIJKLMNOPQRSTUVWXYZ"[v] == ('A' as int + v) as char
  {
  }

  lemma Lower(v: int)
    requires 0 <= v < 26
    ensures "abcdefghijklmnopqrstuvwxyz"[v] == ('a' as int + v) as char
  {
  }

  lemma Others(v: int)
    requires 0 <= v < 12
    ensures "0123456789+/"[v] == if v < 10 then ('0' as int + v) as char else if v == 10 then '+' else '/'
  {
  }

  /** Only the 64 characters and the padding have values. */
  lemma ValueIs(c: char)
    ensures ValueOf(c) == -1 <==> c !in ALPHABET && c != '='
    ensures ValueOf('=') == 0
    ensures forall v :: 0 <= v < 64 ==> ValueOf(ALPHABET[v]) == v
  {
    if ValueOf(c) >= 0 && c != '=' {
      SymbolIs(ValueOf(c));
      assert Symbol(ValueOf(c)) == c;
    }
    forall v | 0 <= v < 64 ensures ValueOf(ALPHABET[v]) == v {
      SymbolIs(v);
      SymbolValue(v);
    }
    if c in ALPHABET {
      var v :| 0 <= v < 64 && ALPHABET[v] == c;
    }
  }

  /** The m-th six bits of three bytes, as a character. */
  function SixAt(m: nat, a: int, b: int, c: int): char
    requires Byte(a) && Byte(b) && Byte(c)
  {
    ALPHABET[if m == 0 then a / 4 else if m == 1 then a % 4 * 16 + b / 16 else if m == 2 then b % 16 * 4 + c / 64
             else c % 64]
  }

  /** The k-th character of the code: six bits of three bytes at a time, with padding where there is no byte. */
  function CodeAt(d: seq<int>, k: nat): char
    requires Bytes(d)
  {
    var j, m := k / 4 * 3, k % 4;
    InBytes(d, j);
    InBytes(d, j + 1);
    InBytes(d, j + 2);
    if (m == 2 && j + 1 >= |d|) || (m == 3 && j + 2 >= |d|) then '='
    else SixAt(m, Nth(d, j), Nth(d, j + 1), Nth(d, j + 2))
  }

  lemma InBytes(d: seq<int>, i: nat)
    requires Bytes(d)
    ensures 0 <= Nth(d, i) < 256
  {
    if i < |d| {
      assert d[i] in d;
    }
  }

  lemma CodeShift(d: seq<int>, k: nat)
    requires Bytes(d) && |d| >= 3
    ensures Bytes(d[3..]) && CodeAt(d, k + 4) == CodeAt(d[3..], k)
  {
    assert forall b :: b in d[3..] ==> b in d;
    assert (k + 4) / 4 * 3 == k / 4 * 3 + 3 && (k + 4) % 4 == k % 4;
    forall i: nat ensures Nth(d, i + 3) == Nth(d[3..], i) {}
  }

  /** A group is the first four characters of the code. */
  lemma GroupCode(d: seq<int>, i: nat)
    requires Bytes(d) && d != [] && i < 4
    ensures Group(if |d| < 3 then d else d[..3])[i] == CodeAt(d, i)
  {
    hide Symbol, Bytes, First, Second, Third, Fourth, SixAt;
    var e := if |d| < 3 then d else d[..3];
    assert Nth(e, 0) == Nth(d, 0) && Nth(e, 1) == Nth(d, 1) && Nth(e, 2) == Nth(d, 2);
    InBytes(d, 0);
    InBytes(d, 1);
    InBytes(d, 2);
    SixIs(Nth(d, 0), Nth(d, 1), Nth(d, 2));
    FourStart(i);
  }

  lemma SixIs(a: int, b: int, c: int)
    requires Byte(a) && Byte(b) && Byte(c)
    ensures SixAt(0, a, b, c) == Symbol(First(a)) && SixAt(1, a, b, c) == Symbol(Second(a, b))
    ensures SixAt(2, a, b, c) == Symbol(Third(b, c)) && SixAt(3, a, b, c) == Symbol(Fourth(c))
  {
    hide Symbol;
    FirstSix(a, b, c);
    SecondSix(a, b, c);
    ThirdSix(a, b, c);
    FourthSix(a, b, c);
    hide SixAt, First, Second, Third, Fourth;
  }

  lemma FirstSix(a: int, b: int, c: int)
    requires Byte(a) && Byte(b) && Byte(c)
    ensures SixAt(0, a, b, c) == Symbol(First(a))
  {
    hide Symbol;
    SymbolIs(a / 4);
  }

  lemma SecondSix(a: int, b: int, c: int)
    requires Byte(a) && Byte(b) && Byte(c)
    ensures SixAt(1, a, b, c) == Symbol(Second(a, b))
  {
    hide Symbol;
    SymbolIs(a % 4 * 16 + b / 16);
  }

  lemma ThirdSix(a: int, b: int, c: int)
    requires Byte(a) && Byte(b) && Byte(c)
    ensures SixAt(2, a, b, c) == Symbol(Third(b, c))
  {
    hide Symbol;
    SymbolIs(b % 16 * 4 + c / 64);
  }

  lemma FourthSix(a: int, b: int, c: int)
    requires Byte(a) && Byte(b) && Byte(c)
    ensures SixAt(3, a, b, c) == Symbol(Fourth(c))
  {
    hide Symbol;
    SymbolIs(c % 64);
  }

  lemma FourStart(k: nat)
    requires k < 4
    ensures k / 4 * 3 == 0 && k % 4 == k
  {
  }

  /** Where the i-th character stands on its line, and which one of the code it is, when line characters are on the
    * line already. */
  function LaidOut(d: seq<int>, line: nat, i: nat): char
    requires Bytes(d) && line < 72
  {
    if (line + i) % 73 == 72 then '\n' else CodeAt(d, i - (line + i) / 73)
  }

  lemma Wrapped(i: nat)
    requires i >= 5
    ensures (68 + i) % 73 == (i - 5) % 73 && (68 + i) / 73 == (i - 5) / 73 + 1
  {
  }

  lemma {:induction false} EncodedFrom(d: seq<int>, line: nat, i: nat)
    requires Bytes(d) && line % 4 == 0 && line < 72
    ensures |EncodeFrom(d, line)| == (|d| + 2) / 3 * 4 + (line + |d| / 3 * 4) / 72
    ensures i < |EncodeFrom(d, line)| ==> EncodeFrom(d, line)[i] == LaidOut(d, line, i)
    decreases |d|
  {
    hide Group, CodeAt, EncodeFrom, Bytes, LaidOut;
    if |d| < 3 {
      ShortEncoded(d, line, i);
    } else {
      var lf, next := if line == 68 then "\n" else "", if line == 68 then 0 else line + 4;
      var rest := EncodeFrom(d[3..], next);
      EncodeStep(d, line, lf, next);
      CodeShift(d, 0);
      LengthStep(|d|, line);
      EncodedFrom(d[3..], next, if i < 4 + |lf| then 0 else i - 4 - |lf|);
      PartAt(Group(d[..3]), lf, rest, i);
      if i < 4 {
        GroupCode(d, i);
        EarlyLaid(d, line, i);
      } else if i < 4 + |lf| {
        LineLaid(d);
      } else {
        LaterLaid(d, line, i);
      }
    }
  }

  lemma ShortEncoded(d: seq<int>, line: nat, i: nat)
    requires Bytes(d) && line % 4 == 0 && line < 72 && |d| < 3
    ensures |EncodeFrom(d, line)| == (|d| + 2) / 3 * 4 + (line + |d| / 3 * 4) / 72
    ensures i < |EncodeFrom(d, line)| ==> EncodeFrom(d, line)[i] == LaidOut(d, line, i)
  {
    hide Group, CodeAt;
    if d != [] && i < 4 {
      GroupCode(d, i);
    }
  }

  lemma PartAt(g: string, lf: string, rest: string, i: nat)
    ensures |g + lf + rest| == |g| + |lf| + |rest|
    ensures i < |g + lf + rest| ==>
      (g + lf + rest)[i] == if i < |g| then g[i] else if i < |g| + |lf| then lf[i - |g|] else rest[i - |g| - |lf|]
  {
  }

  lemma EarlyLaid(d: seq<int>, line: nat, i: nat)
    requires Bytes(d) && line <= 68 && i < 4
    ensures LaidOut(d, line, i) == CodeAt(d, i)
  {
    hide CodeAt;
  }

  lemma LineLaid(d: seq<int>)
    requires Bytes(d)
    ensures LaidOut(d, 68, 4) == '\n'
  {
    hide CodeAt;
  }

  lemma LaterLaid(d: seq<int>, line: nat, i: nat)
    requires Bytes(d) && |d| >= 3 && line % 4 == 0 && line < 72 && i >= if line == 68 then 5 else 4
    ensures Bytes(d[3..])
    ensures LaidOut(d, line, i) ==
      if line == 68 then LaidOut(d[3..], 0, i - 5) else LaidOut(d[3..], line + 4, i - 4)
  {
    hide CodeAt, Bytes;
    CodeShift(d, 0);
    if line == 68 {
      Wrapped(i);
      CodeShift(d, i - 5 - (i - 5) / 73);
    } else {
      CodeShift(d, i - 4 - (line + i) / 73);
    }
  }

  lemma LengthStep(n: nat, line: nat)
    requires n >= 3 && line % 4 == 0 && line < 72
    ensures (n + 2) / 3 * 4 == 4 + (n - 3 + 2) / 3 * 4
    ensures (line + n / 3 * 4) / 72 ==
      if line == 68 then 1 + (n - 3) / 3 * 4 / 72 else (line + 4 + (n - 3) / 3 * 4) / 72
  {
    assert n / 3 == (n - 3) / 3 + 1;
  }

  /** The encoding, character by character: the code, four characters for three bytes, with a line feed behind every
    * 72 of them that are followed by a whole group or stand behind one. */
  lemma EncodedExactly(d: seq<int>, i: nat)
    requires Bytes(d)
    ensures |Encode(d)| == (|d| + 2) / 3 * 4 + |d| / 54
    ensures i < |Encode(d)| ==> Encode(d)[i] == if i % 73 == 72 then '\n' else CodeAt(d, i - i / 73)
  {
    EncodedFrom(d, 0, i);
    assert |d| / 3 * 4 / 72 == |d| / 54;
  }

  // ----- decoding -----

  lemma {:induction false} GroupsAt(k: string, j: nat)
    requires j < |k| / 4 * 3
    ensures |Groups(k)| == |k| / 4 * 3
    ensures var i := j / 3 * 4; i + 3 < |k| && Groups(k)[j] == Bytes3(k[i..i + 4])[j % 3]
  {
    hide Bytes3;
    GroupsLength(k);
    if j >= 3 {
      GroupsAt(k[4..], j - 3);
      assert k[4..][(j - 3) / 3 * 4..(j - 3) / 3 * 4 + 4] == k[j / 3 * 4..j / 3 * 4 + 4];
    }
  }

  /** The decoding, byte by byte: whatever is no character of the code is passed over; what is left has to be whole
    * groups of four, at least one; and the last two characters say how many bytes are missing. */
  lemma DecodedExactly(s: string, j: nat)
    ensures var k := Kept(s);
      && (Decode(s).None? <==> k == "" || |k| % 4 != 0)
      && (Decode(s).Some? ==>
            |Decode(s).value| == |k| / 4 * 3 - if k[|k| - 2] == '=' then 2 else if k[|k| - 1] == '=' then 1 else 0)
      && (Decode(s).Some? && j < |Decode(s).value| ==>
            var i := j / 3 * 4;
            var a, b, c, e := ValueOf(k[i]), ValueOf(k[i + 1]), ValueOf(k[i + 2]), ValueOf(k[i + 3]);
            Decode(s).value[j] ==
              if j % 3 == 0 then (a * 4 + b / 16) % 256
              else if j % 3 == 1 then (b * 16 + c / 4) % 256
              else (c * 64 + e) % 256)
  {
    hide Kept, ValueOf;
    var k := Kept(s);
    GroupsLength(k);
    if k != "" && |k| % 4 == 0 && j < |k| / 4 * 3 {
      GroupsAt(k, j);
    }
  }

  lemma {:induction false} KeptExactly(s: string)
    ensures multiset(Kept(s)) <= multiset(s) && forall c :: c in Kept(s) <==> c in s && (c in ALPHABET || c == '=')
  {
    if s != "" {
      KeptExactly(s[1..]);
      ValueIs(s[0]);
      assert s == [s[0]] + s[1..];
    }
  }
}
