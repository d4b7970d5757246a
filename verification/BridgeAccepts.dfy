/** Which token sequences are parsed as a packet, whoever wrote them, and what comes out. */
module BridgeAccepts {
  import opened Base
  import opened Bridge
  import opened BridgeParse
  import opened JsonText

  // ----- codes, element types and casts -----

  /** The types by their codes: the first character decides, and for u and U the second one as well; whatever else there
    * is, is no type. */
  lemma CodesRead(s: string)
    ensures var c, d, t := CharAt(s, 0), CharAt(s, 1), DecodeType(s);
      && (t == UI8 <==> c == 'c') && (t == I16 <==> c == 'h') && (t == UI16 <==> c == 'u' && d == 'h')
      && (t == I32 <==> c == 'd') && (t == UI32 <==> c == 'u' && d == '\0')
      && (t == I64 <==> c == 'l') && (t == UI64 <==> c == 'u' && d == 'l')
      && (t == FLOAT <==> c == 'f') && (t == DBL <==> c == 'g') && (t == STR <==> c == 's') && (t == JSON <==> c == 'J')
      && (t == UI8ARRAY <==> c == 'R') && (t == I16ARRAY <==> c == 'H' || c == 'I')
      && (t == UI16ARRAY <==> c == 'U' && d == 'H') && (t == UI32ARRAY <==> c == 'U' && d == '\0')
      && (t == I64ARRAY <==> c == 'L') && (t == UI64ARRAY <==> c == 'U' && d == 'L') && (t == DBLARRAY <==> c == 'G')
      && !t.PTR? && !t.I32ARRAY?
  {
  }

  /** Every type has a code of its own: two characters for the unsigned ones wider than a byte that are not 32 bits
    * wide, otherwise one, and with TypeCodeRoundTrip and CodesRead that settles them. */
  lemma CodesWritten(t: EntryType, t': EntryType)
    ensures |TypeCode(t)| == if t.UI16? || t.UI64? || t.UI16ARRAY? || t.UI64ARRAY? then 2 else 1
    ensures TypeCode(NONE) == "0" && TypeCode(PTR) == "p" && TypeCode(I32ARRAY) == "I"
    ensures TypeCode(t) == TypeCode(t') <==> t == t'
  {
  }

  /** How wide an element is, and the numbers a variable of its type can hold. */
  function Bits(t: EntryType): (n: nat)
    ensures n % 8 == 0
  {
    match t
    case UI8ARRAY => 8
    case I16ARRAY => 16
    case UI16ARRAY => 16
    case I32ARRAY => 32
    case UI32ARRAY => 32
    case _ => 64
  }

  predicate Holds(t: EntryType, v: int) {
    match t
    case UI8ARRAY => 0 <= v <= 0xff
    case UI16ARRAY => 0 <= v <= 0xffff
    case UI32ARRAY => 0 <= v <= 0xffff_ffff
    case I16ARRAY => -0x8000 <= v <= 0x7fff
    case I32ARRAY => -0x8000_0000 <= v <= 0x7fff_ffff
    case UI64ARRAY => 0 <= v <= 0xffff_ffff_ffff_ffff
    case _ => -0x8000_0000_0000_0000 <= v <= 0x7fff_ffff_ffff_ffff
  }

  /** The cast keeps the low bits that the element type has room for, and a number that fits altogether. */
  lemma CastKeeps(t: EntryType, v: int)
    requires IntArray(t)
    ensures ElemSize(t) * 8 == Bits(t)
    ensures Holds(t, v) ==> Cast(t, v) == v
    ensures !t.I64ARRAY? && !t.UI64ARRAY? ==> Holds(t, Cast(t, v))
    ensures var rest := v - Cast(t, v);
      match t
      case UI8ARRAY => rest % 0x100 == 0
      case I16ARRAY => rest % 0x1_0000 == 0
      case UI16ARRAY => rest % 0x1_0000 == 0
      case I32ARRAY => rest % 0x1_0000_0000 == 0
      case UI32ARRAY => rest % 0x1_0000_0000 == 0
      case _ => rest == 0
  {
    hide Wrap;
    match t
    case UI8ARRAY => Low8(v);
    case I16ARRAY => Wrapped16(v);
    case UI16ARRAY => Low16(v);
    case I32ARRAY => Wrapped32(v);
    case UI32ARRAY => Low32(v);
    case _ =>
  }

  lemma Low8(v: int)
    ensures (v - v % 0x100) % 0x100 == 0
  {
  }

  lemma Low16(v: int)
    ensures (v - v % 0x1_0000) % 0x1_0000 == 0
  {
  }

  lemma Low32(v: int)
    ensures (v - v % 0x1_0000_0000) % 0x1_0000_0000 == 0
  {
  }

  lemma Wrapped16(v: int)
    ensures var w := Wrap(v, 0x8000);
      -0x8000 <= w <= 0x7fff && (v - w) % 0x1_0000 == 0 && (-0x8000 <= v <= 0x7fff ==> w == v)
  {
  }

  lemma Wrapped32(v: int)
    ensures var w := Wrap(v, 0x8000_0000);
      && -0x8000_0000 <= w <= 0x7fff_ffff && (v - w) % 0x1_0000_0000 == 0
      && (-0x8000_0000 <= v <= 0x7fff_ffff ==> w == v)
  {
  }

  // ----- the header -----

  /** The first character of the key of the header's n-th pair. */
  function Named(ts: seq<Seen>, n: nat): Option<char> {
    if At(ts, 2 * n + 1).Str? then Some(CharAt(At(ts, 2 * n + 1).s, 0)) else None
  }

  /** A header field that is not refused: version 0, source 1 or 2, a packet type below 2^32, at most 36 entries, and
    * for the flags and the three addresses any number. */
  predicate FieldOk(c: char, tok: Token) {
    var u := U64Of(tok);
    match c
    case 'v' => u == Some(0)
    case 's' => u == Some(1) || u == Some(2)
    case 'p' => u.Some? && u.value < 0x1_0000_0000
    case 'c' => u.Some? && u.value <= 36
    case 'f' => u.Some?
    case 'I' => u.Some?
    case 'O' => u.Some?
    case 'X' => I64Of(tok).Some?
    case _ => true
  }

  /** n good fields stand in front of the entries. */
  ghost predicate Heads(ts: seq<Seen>, n: nat) {
    && At(ts, 0).Object? && n <= At(ts, 0).size && Named(ts, n) == Some('e')
    && forall k :: 0 <= k < n ==> GoodField(ts, k)
  }

  predicate GoodField(ts: seq<Seen>, k: nat) {
    match Named(ts, k) case None => false case Some(c) => c != 'e' && FieldOk(c, At(ts, 2 * k + 2))
  }

  /** The last of the first n fields named c. */
  function Last(ts: seq<Seen>, n: nat, c: char): Option<Token> {
    if n == 0 then None
    else if Named(ts, n - 1) == Some(c) then Some(At(ts, 2 * n))
    else Last(ts, n - 1, c)
  }

  function Number(tok: Option<Token>, default: nat): nat {
    match tok case None => default case Some(x) => if U64Of(x).Some? then U64Of(x).value else 0
  }

  function Channel(tok: Option<Token>): int {
    match tok case None => 0 case Some(x) => if I64Of(x).Some? then Wrap(I64Of(x).value, 0x8000_0000) else 0
  }

  /** What the first n fields come to: each the last one of its name, or what it is without one. */
  function Fields(ts: seq<Seen>, n: nat): Packet {
    Packet(Number(Last(ts, n, 's'), 2), Number(Last(ts, n, 'f'), 0) % 0x1_0000_0000, Number(Last(ts, n, 'p'), 0),
           Number(Last(ts, n, 'I'), 0), Number(Last(ts, n, 'O'), 0), Channel(Last(ts, n, 'X')), [])
  }

  /** What is left to be found out behind k good fields. */
  ghost predicate Outcome(ts: seq<Seen>, k: nat, r: Header) {
    && (r.Header? <==> exists n: nat :: n >= k && Heads(ts, n))
    && forall n: nat :: n >= k && Heads(ts, n) ==>
         r == Header(2 * n + 3, Fields(ts, n), Number(Last(ts, n, 'c'), 0))
  }

  /** The header is accepted exactly if good fields, in any order and number, stand in front of the entries; the last
    * field of a name counts. */
  lemma HeaderExactly(ts: seq<Seen>)
    ensures ReadHeader(ts).Header? <==> exists n: nat :: Heads(ts, n)
    ensures forall n: nat :: Heads(ts, n) ==>
      ReadHeader(ts) == Header(2 * n + 3, Fields(ts, n), Number(Last(ts, n, 'c'), 0))
  {
    hide ReadHeaderFrom, Heads, Fields, Last;
    if At(ts, 0).Object? {
      NoFields(ts);
      FieldsFrom(ts, 0);
    } else {
      forall n: nat ensures !Heads(ts, n) {
        NoHead(ts, n);
      }
    }
  }

  lemma NoHead(ts: seq<Seen>, n: nat)
    requires !At(ts, 0).Object?
    ensures !Heads(ts, n)
  {
  }

  lemma NoFields(ts: seq<Seen>)
    ensures Fields(ts, 0) == NEW && Number(Last(ts, 0, 'c'), 0) == 0
  {
  }

  lemma {:induction false} FieldsFrom(ts: seq<Seen>, k: nat)
    requires At(ts, 0).Object? && forall j :: 0 <= j < k ==> GoodField(ts, j)
    ensures
      Outcome(ts, k, ReadHeaderFrom(ts, 2 * k, At(ts, 0).size, Header(0, Fields(ts, k), Number(Last(ts, k, 'c'), 0))))
    decreases At(ts, 0).size - k
  {
    hide Fields, Last, Number, FieldOk, Outcome, GoodField, Heads, SetField, TextOf;
    var size := At(ts, 0).size;
    var h := Header(0, Fields(ts, k), Number(Last(ts, k, 'c'), 0));
    FirstOfKey(ts, k);
    GoodIs(ts, k);
    if k > size || Named(ts, k).None? {
      NoneFound(ts, k);
    } else if Named(ts, k) == Some('e') {
      FoundHere(ts, k);
    } else if GoodField(ts, k) {
      FieldTaken(ts, k, Named(ts, k).value);
      FieldsFrom(ts, k + 1);
      var h' := Header(0, Fields(ts, k + 1), Number(Last(ts, k + 1, 'c'), 0));
      assert ReadHeaderFrom(ts, 2 * k, size, h) == ReadHeaderFrom(ts, 2 * (k + 1), size, h');
      FoundLater(ts, k, ReadHeaderFrom(ts, 2 * k, size, h));
    } else {
      FieldRefused(ts, k, Named(ts, k).value, h);
      NoneFound(ts, k);
    }
  }

  lemma GoodIs(ts: seq<Seen>, k: nat)
    ensures GoodField(ts, k) <==>
      Named(ts, k).Some? && Named(ts, k).value != 'e' && FieldOk(Named(ts, k).value, At(ts, 2 * k + 2))
  {
  }

  /** What stands behind k fields if n fields, and not fewer, stand in front of the entries. */
  lemma Passed(ts: seq<Seen>, k: nat, n: nat)
    requires k <= n
    ensures Heads(ts, n) ==>
      At(ts, 0).Object? && k <= At(ts, 0).size && if n == k then Named(ts, k) == Some('e') else GoodField(ts, k)
  {
    hide GoodField, Named;
  }

  lemma NoneFound(ts: seq<Seen>, k: nat)
    requires At(ts, 0).Object? && (k > At(ts, 0).size || (Named(ts, k) != Some('e') && !GoodField(ts, k)))
    ensures Outcome(ts, k, BadHeader)
  {
    hide GoodField, Fields, Last, Named, Heads;
    forall n: nat | n >= k ensures !Heads(ts, n) {
      Passed(ts, k, n);
    }
  }

  lemma FoundHere(ts: seq<Seen>, k: nat)
    requires At(ts, 0).Object? && k <= At(ts, 0).size && Named(ts, k) == Some('e')
    requires forall j :: 0 <= j < k ==> GoodField(ts, j)
    ensures Outcome(ts, k, Header(2 * k + 3, Fields(ts, k), Number(Last(ts, k, 'c'), 0)))
  {
    hide Fields, Last, FieldOk, Named;
    assert Heads(ts, k);
    hide Heads;
    forall n: nat | n >= k && Heads(ts, n) ensures n == k {
      Passed(ts, k, n);
    }
  }

  lemma FoundLater(ts: seq<Seen>, k: nat, r: Header)
    requires Named(ts, k) != Some('e') && Outcome(ts, k + 1, r)
    ensures Outcome(ts, k, r)
  {
    hide Fields, Last, GoodField, Named, Heads;
    forall n: nat | n >= k && Heads(ts, n) ensures n >= k + 1 {
      Passed(ts, k, n);
    }
  }

  lemma FirstOfKey(ts: seq<Seen>, k: nat)
    ensures match TextOf(At(ts, 2 * k + 1))
      case None => Named(ts, k) == None
      case Some(key) => Named(ts, k) == Some(CharAt(key, 0))
  {
  }

  lemma FieldTaken(ts: seq<Seen>, k: nat, c: char)
    requires Named(ts, k) == Some(c) && c != 'e' && FieldOk(c, At(ts, 2 * k + 2))
    ensures SetField(c, At(ts, 2 * k + 2), Header(0, Fields(ts, k), Number(Last(ts, k, 'c'), 0))) ==
      Some(Header(0, Fields(ts, k + 1), Number(Last(ts, k + 1, 'c'), 0)))
  {
    hide U64Of, I64Of, At;
  }

  lemma FieldRefused(ts: seq<Seen>, k: nat, c: char, h: Header)
    requires h.Header? && !FieldOk(c, At(ts, 2 * k + 2))
    ensures SetField(c, At(ts, 2 * k + 2), h) == None
  {
    hide U64Of, I64Of, At;
  }

  // ----- an entry -----

  /** The first character of a key's text, or what a key that is no string comes to. */
  function KeyChar(tok: Token): Option<char> { if tok.Str? then Some(CharAt(tok.s, 0)) else None }

  /** A pair whose key begins with t names the type, one whose key begins with v gives the value, any other is passed
    * over, and a key or a type that is no string is refused. */
  lemma PairRead(ts: seq<Seen>, tk: nat, e: Entry, readE: ReadE)
    ensures var r, c, tok := ReadPair(ts, tk, e, readE), KeyChar(At(ts, tk)), At(ts, tk + 1);
      if c.None? then r == Bad
      else if c == Some('t') then r == if tok.Str? then Moved(0, 0, e.(typ := DecodeType(Cut(tok.s, 16384)))) else Bad
      else if c == Some('v') then r == ReadValue(ts, tk + 1, e, readE)
      else r == Moved(0, 0, e)
  {
    hide DecodeType, ReadValue;
  }

  /** The value of an entry whose type is known.  A pointer is refused, and so is a number, a string or an element that
    * is none; a type that is not known makes any value 0; a string ends at its first NUL once it is unescaped; and an
    * array has at most 8192 elements, of which as many are read as the low sixteen bits of its length in bytes say. */
  lemma ValueRead(ts: seq<Seen>, tk: nat, e: Entry, readE: ReadE)
    ensures var r, tok := ReadValue(ts, tk, e, readE), At(ts, tk);
      match e.typ
      case PTR => r == Bad
      case NONE => r == Moved(0, 0, e.(val := VInt(0)))
      case STR =>
        r == if tok.Str? then Moved(0, 0, e.(val := VStr(UpToNul(Unescape(Cut(tok.s, 16384)))))) else Bad
      case JSON => JsonIs(r, ts, tk, e)
      case FLOAT => RealIs(r, RealOf(tok, readE), e)
      case DBL => RealIs(r, RealOf(tok, readE), e)
      case DBLARRAY => RealsAre(r, ts, tk, e, readE)
      case UI8 => NumberIs(r, U64Of(tok), e)
      case UI16 => NumberIs(r, U64Of(tok), e)
      case UI32 => NumberIs(r, U64Of(tok), e)
      case UI64 => NumberIs(r, U64Of(tok), e)
      case I16 => NumberIs(r, I64Of(tok), e)
      case I32 => NumberIs(r, I64Of(tok), e)
      case I64 => NumberIs(r, I64Of(tok), e)
      case _ => ArrayIs(r, ts, tk, e)
  {
    hide U64Of, I64Of, RealOf, Unescape, UpToNul, ReadArray, ReadReals, ReadJson, ArrayIs, RealsAre, JsonIs;
    RealsRead(ts, tk, e, readE);
    if IntArray(e.typ) {
      ArrayRead(ts, tk, e);
    } else if e.typ.JSON? {
      JsonRead(ts, tk, e);
    }
  }

  predicate NumberIs(r: Pair, n: Option<int>, e: Entry) {
    match n case None => r == Bad case Some(i) => r == Moved(0, 0, e.(val := VInt(i)))
  }

  predicate RealIs(r: Pair, x: Option<real>, e: Entry) {
    match x case None => r == Bad case Some(d) => r == Moved(0, 0, e.(val := VReal(d)))
  }

  /** The array of floating point numbers at tk is refused for its size or for an element, or the value has its
    * elements, as they are read, one by one. */
  ghost predicate RealsAre(r: Pair, ts: seq<Seen>, tk: nat, e: Entry, readE: ReadE) {
    var size := if At(ts, tk).Junk? then 0 else At(ts, tk).size;
    if size < 0 || size > 8192 then r == Bad
    else
      var n := size * 8 % 0x1_0000 / 8;
      if exists i :: 0 <= i < n && RealAt(ts, tk, i, readE) == None then r == Bad
      else
        && r.Moved? && r.offset == n && r.tokens == (if size > 0 then n + 1 else 0)
        && r.e.val.VReals? && r.e == e.(val := r.e.val) && |r.e.val.reals| == n
        && forall i :: 0 <= i < n ==> RealAt(ts, tk, i, readE) == Some(r.e.val.reals[i])
  }

  /** What is read of the i-th element's token, a primitive, of which at most 64 characters count. */
  function RealAt(ts: seq<Seen>, tk: nat, i: nat, readE: ReadE): Option<real> {
    if At(ts, tk + 1 + i).Prim? then readE(Cut(At(ts, tk + 1 + i).s, 64)) else None
  }

  lemma RealsRead(ts: seq<Seen>, tk: nat, e: Entry, readE: ReadE)
    ensures RealsAre(ReadReals(ts, tk, e, readE), ts, tk, e, readE)
  {
    var size := Size(At(ts, tk));
    if 0 <= size <= 8192 {
      var n := ArrayCount(DBLARRAY, size);
      assert n == size * 8 % 0x1_0000 / 8;
      if Readable(ts, tk + 1, n, readE) {
        forall i | 0 <= i < n ensures RealAt(ts, tk, i, readE).Some? {
          assert RealOk(ts, tk + 1, i, readE);
        }
      } else {
        var i :| 0 <= i < n && !RealOk(ts, tk + 1, i, readE);
        assert RealAt(ts, tk, i, readE) == None;
      }
    }
  }

  /** The number of the i-th element's token, as wide as a long, before it is cut to the element's type. */
  function WideAt(ts: seq<Seen>, tk: nat, i: nat, t: EntryType): Option<int> {
    if t == UI8ARRAY || t == UI16ARRAY || t == UI32ARRAY || t == UI64ARRAY then U64Of(At(ts, tk + 1 + i))
    else I64Of(At(ts, tk + 1 + i))
  }

  /** The array at tk is refused for its size or for an element, or the value has the elements' low bits, one by one. */
  ghost predicate ArrayIs(r: Pair, ts: seq<Seen>, tk: nat, e: Entry) {
    var size := if At(ts, tk).Junk? then 0 else At(ts, tk).size;
    if size < 0 || size > 8192 then r == Bad
    else
      var n := size * (Bits(e.typ) / 8) % 0x1_0000 / (Bits(e.typ) / 8);
      if exists i :: 0 <= i < n && WideAt(ts, tk, i, e.typ) == None then r == Bad
      else
        && r.Moved? && r.offset == n && r.tokens == (if size > 0 then n + 1 else 0)
        && r.e.val.VArray? && r.e == e.(val := r.e.val) && |r.e.val.elems| == n
        && forall i :: 0 <= i < n ==>
             WideAt(ts, tk, i, e.typ).Some? && r.e.val.elems[i] == Cast(e.typ, WideAt(ts, tk, i, e.typ).value)
  }

  lemma ArrayRead(ts: seq<Seen>, tk: nat, e: Entry)
    requires IntArray(e.typ)
    ensures ArrayIs(ReadArray(ts, tk, e), ts, tk, e)
  {
    hide U64Of, I64Of, Cast;
    var size := Size(At(ts, tk));
    if 0 <= size <= 8192 {
      var n := ArrayCount(e.typ, size);
      CountIs(e.typ, size);
      if Convertible(ts, tk + 1, n, e.typ) {
        forall i | 0 <= i < n ensures WideAt(ts, tk, i, e.typ).Some? {
          assert ElemOk(ts, tk + 1, i, e.typ);
        }
      } else {
        var i :| 0 <= i < n && !ElemOk(ts, tk + 1, i, e.typ);
        assert WideAt(ts, tk, i, e.typ) == None;
      }
    }
  }

  lemma CountIs(t: EntryType, size: nat)
    requires IntArray(t)
    ensures ArrayCount(t, size) == size * (Bits(t) / 8) % 0x1_0000 / (Bits(t) / 8)
  {
  }

  /** Inline JSON is its token's text, of fewer than 8192 characters, and every token that starts inside it is passed
    * over. */
  ghost predicate JsonIs(r: Pair, ts: seq<Seen>, tk: nat, e: Entry) {
    if tk >= |ts| then r == Outside
    else
      var len := ts[tk].end - ts[tk].start;
      if len < 0 || len >= 8192 then r == Bad
      else if len == 0 then r == Moved(0, 0, e.(val := VStr(ts[tk].raw)))
      else if forall i :: tk <= i < |ts| ==> ts[i].start < ts[tk].end then r == Outside
      else
        && r.Moved? && r.tokens == r.offset && r.e == e.(val := VStr(ts[tk].raw))
        && tk + r.tokens + 1 < |ts| && ts[tk + r.tokens + 1].start >= ts[tk].end
        && forall i :: tk <= i <= tk + r.tokens ==> ts[i].start < ts[tk].end
  }

  lemma JsonRead(ts: seq<Seen>, tk: nat, e: Entry)
    ensures JsonIs(ReadJson(ts, tk, e), ts, tk, e)
  {
    if tk < |ts| {
      SpanIs(ts, tk, ts[tk].end);
    }
  }

  lemma {:induction false} SpanIs(ts: seq<Seen>, i: nat, end: int)
    ensures match SpanFrom(ts, i, end)
      case None => forall j :: i <= j < |ts| ==> ts[j].start < end
      case Some(n) => i + n < |ts| && ts[i + n].start >= end && forall j :: i <= j < i + n ==> ts[j].start < end
    decreases |ts| - i
  {
    if i < |ts| && ts[i].start < end {
      SpanIs(ts, i + 1, end);
    }
  }

  /** Where the parser is in an entry's object: at token tk, having come off of twice the object's size, with the entry
    * as it is so far. */
  datatype Place = Place(tk: nat, off: nat, e: Entry)

  /** From a to b in one pair.  Behind an array or inline JSON, off counts what is passed over as well. */
  predicate OnePairOn(ts: seq<Seen>, a: Place, b: Place, readE: ReadE) {
    match ReadPair(ts, a.tk, a.e, readE)
    case Moved(dt, doff, e) => b == Place(a.tk + 2 + dt, a.off + 2 + doff, e)
    case _ => false
  }

  /** The way through an object of the given size. */
  ghost predicate Way(ts: seq<Seen>, size: int, w: seq<Place>, readE: ReadE) {
    && w != [] && w[|w| - 1].off >= 2 * size
    && forall i :: 0 <= i < |w| - 1 ==> w[i].off < 2 * size && OnePairOn(ts, w[i], w[i + 1], readE)
  }

  /** A way leads from a to the given offset and entry. */
  ghost predicate Leads(ts: seq<Seen>, size: int, a: Place, off: nat, e: Entry, readE: ReadE) {
    exists w: seq<Place> :: Way(ts, size, w, readE) && w[0] == a && w[|w| - 1].off == off && w[|w| - 1].e == e
  }

  lemma {:induction false} PairsExactly(ts: seq<Seen>, a: Place, size: int, off: nat, e: Entry, readE: ReadE)
    ensures ReadPairs(ts, a.tk, a.off, size, a.e, readE) == Moved(0, off, e) <==> Leads(ts, size, a, off, e, readE)
    decreases 2 * size - a.off
  {
    hide ReadPair, Leads;
    if a.off >= 2 * size {
      WayOver(ts, a, size, off, e, readE);
    } else {
      WayOn(ts, a, size, off, e, readE);
      match ReadPair(ts, a.tk, a.e, readE)
      case Moved(dt, doff, e') => PairsExactly(ts, Place(a.tk + 2 + dt, a.off + 2 + doff, e'), size, off, e, readE);
      case _ =>
    }
  }

  lemma WayOver(ts: seq<Seen>, a: Place, size: int, off: nat, e: Entry, readE: ReadE)
    requires a.off >= 2 * size
    ensures Leads(ts, size, a, off, e, readE) <==> a.off == off && a.e == e
  {
    hide OnePairOn;
    assert Way(ts, size, [a], readE) && [a][0] == a;
    forall w: seq<Place> | Way(ts, size, w, readE) && w[0] == a ensures |w| == 1 {
      WayStarts(ts, size, w, readE);
    }
  }

  lemma WayStarts(ts: seq<Seen>, size: int, w: seq<Place>, readE: ReadE)
    requires Way(ts, size, w, readE)
    ensures |w| > 1 ==> w[0].off < 2 * size
  {
    hide OnePairOn;
  }

  /** A way that is not over goes on with one pair. */
  lemma WayOn(ts: seq<Seen>, a: Place, size: int, off: nat, e: Entry, readE: ReadE)
    requires a.off < 2 * size
    ensures Leads(ts, size, a, off, e, readE) <==>
      match ReadPair(ts, a.tk, a.e, readE)
      case Moved(dt, doff, e') => Leads(ts, size, Place(a.tk + 2 + dt, a.off + 2 + doff, e'), off, e, readE)
      case _ => false
  {
    hide ReadPair;
    var r := ReadPair(ts, a.tk, a.e, readE);
    if w: seq<Place> :| Way(ts, size, w, readE) && w[0] == a && w[|w| - 1].off == off && w[|w| - 1].e == e {
      assert OnePairOn(ts, w[0], w[1], readE);
      WayTail(ts, size, w, readE);
      var v := w[1..];
      assert Way(ts, size, v, readE) && v[0] == w[1] && v[|v| - 1] == w[|w| - 1];
    }
    if r.Moved? {
      var b := Place(a.tk + 2 + r.tokens, a.off + 2 + r.offset, r.e);
      if w: seq<Place> :| Way(ts, size, w, readE) && w[0] == b && w[|w| - 1].off == off && w[|w| - 1].e == e {
        WayHead(ts, size, a, w, readE);
        var v := [a] + w;
        assert Way(ts, size, v, readE) && v[0] == a && v[|v| - 1] == w[|w| - 1];
      }
    }
  }

  lemma WayTail(ts: seq<Seen>, size: int, w: seq<Place>, readE: ReadE)
    requires Way(ts, size, w, readE) && |w| > 1
    ensures Way(ts, size, w[1..], readE)
  {
    hide OnePairOn;
    var v := w[1..];
    forall i | 0 <= i < |v| - 1 ensures v[i].off < 2 * size && OnePairOn(ts, v[i], v[i + 1], readE) {
      assert v[i] == w[i + 1] && v[i + 1] == w[(i + 1) + 1];
    }
  }

  lemma WayHead(ts: seq<Seen>, size: int, a: Place, w: seq<Place>, readE: ReadE)
    requires Way(ts, size, w, readE) && a.off < 2 * size && OnePairOn(ts, a, w[0], readE)
    ensures Way(ts, size, [a] + w, readE)
  {
    hide OnePairOn;
    var v := [a] + w;
    forall i | 0 <= i < |v| - 1 ensures v[i].off < 2 * size && OnePairOn(ts, v[i], v[i + 1], readE) {
      if i > 0 {
        assert v[i] == w[i - 1] && v[i + 1] == w[(i - 1) + 1];
      }
    }
  }

  /** An entry is its name, an object, and a way through the object that starts with nothing but the name. */
  lemma EntryExactly(ts: seq<Seen>, tk: nat, n: nat, e: Entry, readE: ReadE)
    ensures ReadEntry(ts, tk, readE) == Moved(0, n, e) <==>
      && At(ts, tk).Str? && At(ts, tk + 1).Object? && n > 0
      && var first := Place(tk + 2, 0, Entry(Some(Cut(At(ts, tk).s, 16384)), NONE, VNone));
         Leads(ts, At(ts, tk + 1).size, first, n - 1, e, readE)
  {
    hide ReadPairs, Leads;
    if At(ts, tk).Str? && At(ts, tk + 1).Object? {
      var a := Place(tk + 2, 0, Entry(Some(Cut(At(ts, tk).s, 16384)), NONE, VNone));
      if n > 0 {
        PairsExactly(ts, a, At(ts, tk + 1).size, n - 1, e, readE);
      }
      PairsMoved(ts, a.tk, a.off, At(ts, tk + 1).size, a.e, readE);
    }
  }

  lemma {:induction false} PairsMoved(ts: seq<Seen>, tk: nat, off: nat, size: int, e: Entry, readE: ReadE)
    ensures var r := ReadPairs(ts, tk, off, size, e, readE); r.Moved? ==> r.tokens == 0
    decreases 2 * size - off
  {
    hide ReadPair;
    if off < 2 * size {
      match ReadPair(ts, tk, e, readE)
      case Moved(dt, doff, e') => PairsMoved(ts, tk + 2 + dt, off + 2 + doff, size, e', readE);
      case _ =>
    }
  }

  // ----- the packet -----

  /** The tokens from one place up to another are an entry. */
  predicate EntryAt(ts: seq<Seen>, from: nat, to: nat, e: Entry, readE: ReadE) {
    to > from && ReadEntry(ts, from, readE) == Moved(0, to - from - 1, e)
  }

  /** The entries stand one behind the other, each from its place to the next. */
  ghost predicate Stand(ts: seq<Seen>, at: seq<nat>, es: seq<Entry>, readE: ReadE) {
    |at| == |es| + 1 && forall k :: 0 <= k < |es| ==> EntryAt(ts, at[k], at[k + 1], es[k], readE)
  }

  ghost predicate StandFrom(ts: seq<Seen>, from: nat, es: seq<Entry>, readE: ReadE) {
    exists at: seq<nat> :: Stand(ts, at, es, readE) && at[0] == from
  }

  /** The tokens are a packet exactly if there are at most 10000, good header fields stand in front of the entries, and
    * as many entries as the header says stand one behind the other.  The packet is those fields and those entries. */
  lemma ParsedExactly(ts: seq<Seen>, p: Packet, readE: ReadE)
    ensures Parse(ts, readE) == Parsed(p) <==>
      |ts| <= 10000 && exists n: nat ::
        && Heads(ts, n) && |p.entries| == Number(Last(ts, n, 'c'), 0) && StandFrom(ts, 2 * n + 3, p.entries, readE)
        && p == Fields(ts, n).(entries := p.entries)
  {
    hide Heads, Fields, Last, Number, ReadHeader, ReadEntries, StandFrom;
    HeaderExactly(ts);
    if |ts| <= 10000 && ReadHeader(ts).Header? {
      var n: nat :| Heads(ts, n);
      var h := ReadHeader(ts);
      NoEntries(ts, n);
      EntriesExactly(ts, h.at, 0, h.cnt, h.p, p, readE);
      assert p.entries[0..] == p.entries;
    }
  }

  lemma NoEntries(ts: seq<Seen>, n: nat)
    ensures Fields(ts, n).entries == []
  {
  }

  lemma {:induction false} EntriesExactly(ts: seq<Seen>, res: nat, k: nat, cnt: nat, q: Packet, p: Packet, readE: ReadE)
    requires k <= cnt && |q.entries| == k
    ensures ReadEntries(ts, res, k, cnt, q, readE) == Parsed(p) <==>
      && |p.entries| == cnt && p == q.(entries := p.entries) && p.entries[..k] == q.entries
      && StandFrom(ts, res + k, p.entries[k..], readE)
    decreases cnt - k
  {
    hide ReadEntry, StandFrom;
    if k == cnt {
      NoneStand(ts, res + k, readE);
      if |p.entries| == cnt {
        assert p.entries[k..] == [] && p.entries[..k] == p.entries;
      }
    } else {
      var r := ReadEntry(ts, res + k, readE);
      EntryMoved(ts, res + k, readE);
      if r.Moved? {
        var q' := q.(entries := q.entries + [r.e]);
        EntriesExactly(ts, res + r.offset, k + 1, cnt, q', p, readE);
      }
      if |p.entries| == cnt {
        StandOn(ts, res + k, p.entries[k..], readE);
        assert p.entries[k..][1..] == p.entries[k + 1..] && p.entries[k..][0] == p.entries[k];
        assert p.entries[..k + 1] == p.entries[..k] + [p.entries[k]];
        assert r.Moved? && p.entries[..k + 1] == q.entries + [r.e] ==> p.entries[..k + 1][k] == r.e;
      }
    }
  }

  lemma EntryMoved(ts: seq<Seen>, tk: nat, readE: ReadE)
    ensures var r := ReadEntry(ts, tk, readE); r.Moved? ==> r.tokens == 0
  {
    hide ReadPairs;
  }

  lemma NoneStand(ts: seq<Seen>, from: nat, readE: ReadE)
    ensures StandFrom(ts, from, [], readE)
  {
    assert Stand(ts, [from], [], readE) && [from][0] == from;
  }

  lemma StandOn(ts: seq<Seen>, from: nat, es: seq<Entry>, readE: ReadE)
    requires es != []
    ensures StandFrom(ts, from, es, readE) <==>
      var r := ReadEntry(ts, from, readE);
      r.Moved? && r.tokens == 0 && r.e == es[0] && StandFrom(ts, from + r.offset + 1, es[1..], readE)
  {
    hide ReadEntry;
    if at: seq<nat> :| Stand(ts, at, es, readE) && at[0] == from {
      assert EntryAt(ts, at[0], at[1], es[0], readE);
      forall k | 0 <= k < |es| - 1 ensures EntryAt(ts, at[1..][k], at[1..][k + 1], es[1..][k], readE) {
        assert EntryAt(ts, at[k + 1], at[(k + 1) + 1], es[k + 1], readE);
      }
      assert Stand(ts, at[1..], es[1..], readE) && at[1..][0] == at[1];
    }
    var r := ReadEntry(ts, from, readE);
    if r.Moved? && r.tokens == 0 && r.e == es[0] {
      if at: seq<nat> :| Stand(ts, at, es[1..], readE) && at[0] == from + r.offset + 1 {
        var from' := [from] + at;
        forall k | 0 <= k < |es| ensures EntryAt(ts, from'[k], from'[k + 1], es[k], readE) {
          if k > 0 {
            assert EntryAt(ts, at[k - 1], at[(k - 1) + 1], es[1..][k - 1], readE);
          }
        }
        assert Stand(ts, from', es, readE) && from'[0] == from;
      }
    }
  }
}
