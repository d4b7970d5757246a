/** Parsing a bridge packet: walking the token array by index arithmetic, and what that comes to. */
module BridgeParse {
  import opened Base
  import opened Bridge
  import opened JsonText
  import N = Strton
  import T = JsmnTree
  import J = Jsmn

  const OK := 0
  const UNEXPECTED := 0x1c
  const OUTSIDE := -2

  // ----- one pair of an entry's object -----

  /** What a pair does: how far the token pointer and the offset move on behind the value, and the new entry.
    * Outside is a value this model leaves out: inline JSON that nothing follows. */
  datatype Pair = Bad | Outside | Moved(tokens: nat, offset: nat, e: Entry)

  /** The number an element's token holds, converted as its type says. */
  function ElemOf(tok: Token, t: EntryType): Option<int> { if UnsignedArray(t) then U64Of(tok) else I64Of(tok) }

  /** Is the i-th token from tk on a number the element type's conversion takes? */
  predicate ElemOk(ts: seq<Seen>, tk: nat, i: int, t: EntryType) {
    ElemOf(At(ts, tk + i), t).Some?
  }

  predicate Convertible(ts: seq<Seen>, tk: nat, n: nat, t: EntryType) {
    forall i :: 0 <= i < n ==> ElemOk(ts, tk, i, t)
  }

  function Value(o: Option<int>): int { if o.Some? then o.value else 0 }

  function Elements(ts: seq<Seen>, tk: nat, n: nat, t: EntryType): (r: seq<int>)
    ensures |r| == n && forall i :: 0 <= i < n ==> r[i] == Cast(t, Value(ElemOf(At(ts, tk + i), t)))
  {
    seq(n, i requires 0 <= i < n => Cast(t, Value(ElemOf(At(ts, tk + i), t))))
  }

  /** pjsmn_double, where readE is what strtod makes of as much of the token as its buffer holds, if anything. */
  function RealOf(tok: Token, readE: ReadE): Option<real> {
    if tok.Prim? then readE(Cut(tok.s, 64)) else None
  }

  predicate RealOk(ts: seq<Seen>, tk: nat, i: int, readE: ReadE) { RealOf(At(ts, tk + i), readE).Some? }

  predicate Readable(ts: seq<Seen>, tk: nat, n: nat, readE: ReadE) {
    forall i :: 0 <= i < n ==> RealOk(ts, tk, i, readE)
  }

  function Real(o: Option<real>): real { if o.Some? then o.value else 0.0 }

  function Reals(ts: seq<Seen>, tk: nat, n: nat, readE: ReadE): (r: seq<real>)
    ensures |r| == n && forall i :: 0 <= i < n ==> r[i] == Real(RealOf(At(ts, tk + i), readE))
  {
    seq(n, i requires 0 <= i < n => Real(RealOf(At(ts, tk + i), readE)))
  }

  function ReadReals(ts: seq<Seen>, tk: nat, e: Entry, readE: ReadE): Pair {
    var size := Size(At(ts, tk));
    if size < 0 || size > BPE_MAXARRAY_LEN then Bad
    else
      var cnt := ArrayCount(DBLARRAY, size);
      if !Readable(ts, tk + 1, cnt, readE) then Bad
      else Moved(if size > 0 then 1 + cnt else 0, cnt, e.(val := VReals(Reals(ts, tk + 1, cnt, readE))))
  }

  /** The value of a "v" key for an entry of the type it has so far. */
  function ReadValue(ts: seq<Seen>, tk: nat, e: Entry, readE: ReadE): Pair {
    var tok := At(ts, tk);
    if e.typ.PTR? then Bad
    else if e.typ.NONE? then Moved(0, 0, e.(val := VInt(0)))
    else if Unsigned(e.typ) then if U64Of(tok).Some? then Moved(0, 0, e.(val := VInt(U64Of(tok).value))) else Bad
    else if Signed(e.typ) then if I64Of(tok).Some? then Moved(0, 0, e.(val := VInt(I64Of(tok).value))) else Bad
    else if e.typ.STR? then
      if TextOf(tok).Some? then Moved(0, 0, e.(val := VStr(UpToNul(Unescape(TextOf(tok).value))))) else Bad
    else if e.typ.JSON? then ReadJson(ts, tk, e)
    else if e.typ.FLOAT? || e.typ.DBL? then
      if RealOf(tok, readE).Some? then Moved(0, 0, e.(val := VReal(RealOf(tok, readE).value))) else Bad
    else if e.typ.DBLARRAY? then ReadReals(ts, tk, e, readE)
    else ReadArray(ts, tk, e)
  }

  /** How many tokens in a row, from the i-th on, start in front of end; None if no other token follows them. */
  function SpanFrom(ts: seq<Seen>, i: nat, end: int): (r: Option<nat>)
    ensures r.Some? && i < |ts| && ts[i].start < end ==> r.value > 0
    decreases |ts| - i
  {
    if i >= |ts| then None
    else if ts[i].start >= end then Some(0)
    else
      match SpanFrom(ts, i + 1, end)
      case None => None
      case Some(n) => Some(n + 1)
  }

  /** Inline JSON: its text is taken as it is, and the tokens inside it are passed over. */
  function ReadJson(ts: seq<Seen>, tk: nat, e: Entry): Pair {
    if tk >= |ts| then Outside
    else
      var x := ts[tk];
      var sz := x.end - x.start + 1;
      if sz <= 0 || sz > BPE_MAXARRAY_LEN then Bad
      else if x.start >= x.end then Moved(0, 0, e.(val := VStr(x.raw)))
      else
        match SpanFrom(ts, tk, x.end)
        case None => Outside
        case Some(n) => Moved(n - 1, n - 1, e.(val := VStr(x.raw)))
  }

  function Size(t: Token): int { if t.Junk? then 0 else t.size }

  function ReadArray(ts: seq<Seen>, tk: nat, e: Entry): Pair
    requires IntArray(e.typ)
  {
    var size := Size(At(ts, tk));
    if size < 0 || size > BPE_MAXARRAY_LEN then Bad
    else
      var cnt := ArrayCount(e.typ, size);
      if !Convertible(ts, tk + 1, cnt, e.typ) then Bad
      else Moved(if size > 0 then 1 + cnt else 0, cnt, e.(val := VArray(Elements(ts, tk + 1, cnt, e.typ))))
  }

  /** One key and its value. */
  function ReadPair(ts: seq<Seen>, tk: nat, e: Entry, readE: ReadE): Pair {
    var key, val := TextOf(At(ts, tk)), TextOf(At(ts, tk + 1));
    if key.None? then Bad
    else if CharAt(key.value, 0) == 't' then if val.Some? then Moved(0, 0, e.(typ := DecodeType(val.value))) else Bad
    else if CharAt(key.value, 0) == 'v' then ReadValue(ts, tk + 1, e, readE)
    else Moved(0, 0, e)
  }

  /** The loop over an entry's object: off counts towards twice its size. */
  function ReadPairs(ts: seq<Seen>, tk: nat, off: nat, size: int, e: Entry, readE: ReadE): Pair
    decreases 2 * size - off
  {
    if off >= 2 * size then Moved(0, off, e)
    else
      match ReadPair(ts, tk, e, readE)
      case Bad => Bad
      case Outside => Outside
      case Moved(dt, doff, e') => ReadPairs(ts, tk + 2 + dt, off + 2 + doff, size, e', readE)
  }

  /** processBPEntry: the entry at tk, and what it returns (the offset field; the token count is not used). */
  function ReadEntry(ts: seq<Seen>, tk: nat, readE: ReadE): Pair {
    if TextOf(At(ts, tk)).None? || !At(ts, tk + 1).Object? then Bad
    else
      match ReadPairs(ts, tk + 2, 0, At(ts, tk + 1).size, EMPTY.(name := TextOf(At(ts, tk))), readE)
      case Bad => Bad
      case Outside => Outside
      case Moved(_, off, e) => Moved(0, off + 1, e)
  }

  // ----- the header -----

  datatype Header = BadHeader | Header(at: nat, p: Packet, cnt: nat)

  /** The value of header key c; None if it is refused. */
  function SetField(c: char, t: Token, h: Header): Option<Header>
    requires h.Header?
  {
    Put(c, U64Of(t), I64Of(t), h)
  }

  function Put(c: char, u: Option<int>, i: Option<int>, h: Header): Option<Header>
    requires h.Header? && (u.Some? ==> u.value >= 0)
  {
    match c
    case 'p' => if u.Some? && u.value < TWO_32 then Some(h.(p := h.p.(vpkt := u.value))) else None
    case 'v' => if u == Some(0) then Some(h) else None
    case 's' => if u == Some(1) || u == Some(2) then Some(h.(p := h.p.(source := u.value))) else None
    case 'f' => if u.Some? then Some(h.(p := h.p.(flags := u.value % TWO_32))) else None
    case 'c' => if u.Some? && u.value <= BRIDGE_PACKET_ENTRY_MAX then Some(h.(cnt := u.value)) else None
    case 'I' => if u.Some? then Some(h.(p := h.p.(phidid := u.value))) else None
    case 'O' => if u.Some? then Some(h.(p := h.p.(ocid := u.value))) else None
    case 'X' => if i.Some? then Some(h.(p := h.p.(chidx := Wrap(i.value, TWO_31)))) else None
    case _ => Some(h)
  }

  const NEW := Packet(2, 0, 0, 0, 0, 0, [])

  /** The loop over the header's object, up to the key "e". */
  function ReadHeaderFrom(ts: seq<Seen>, off: nat, size: int, h: Header): Header
    requires h.Header?
    decreases 2 * size + 1 - off
  {
    if off >= 2 * size + 1 then BadHeader
    else if TextOf(At(ts, off + 1)).None? then BadHeader
    else if CharAt(TextOf(At(ts, off + 1)).value, 0) == 'e' then h.(at := off + 3)
    else
      match SetField(CharAt(TextOf(At(ts, off + 1)).value, 0), At(ts, off + 2), h)
      case None => BadHeader
      case Some(h') => ReadHeaderFrom(ts, off + 2, size, h')
  }

  /** processBPHeader: the fields, the entry count, and the offset of the first entry. */
  function ReadHeader(ts: seq<Seen>): Header {
    if !At(ts, 0).Object? then BadHeader else ReadHeaderFrom(ts, 0, At(ts, 0).size, Header(0, NEW, 0))
  }

  // ----- the packet -----

  datatype Parsed = Failed | NotCovered | Parsed(p: Packet)

  /** The loop over the entries: entry k is at res + k. */
  function ReadEntries(ts: seq<Seen>, res: nat, k: nat, cnt: nat, p: Packet, readE: ReadE): Parsed
    decreases cnt - k
  {
    if k >= cnt then Parsed(p)
    else
      match ReadEntry(ts, res + k, readE)
      case Bad => Failed
      case Outside => NotCovered
      case Moved(_, n, e) => ReadEntries(ts, res + n, k + 1, cnt, p.(entries := p.entries + [e]), readE)
  }

  /** parseBridgePacketJSON, on the tokens of the text. */
  function Parse(ts: seq<Seen>, readE: ReadE): Parsed {
    if |ts| > BRIDGE_JSON_TOKENS then Failed
    else
      match ReadHeader(ts)
      case BadHeader => Failed
      case Header(at, p, cnt) => ReadEntries(ts, at, 0, cnt, p, readE)
  }

  // ----- what parsing does to a rendered packet -----

  /** What comes back of a floating point number, if it can. */
  function Back(r: real, printE: PrintE, readE: ReadE): Option<real> {
    RealOf(Prim(printE(r), 0), readE)
  }

  function AllBack(rs: seq<real>, printE: PrintE, readE: ReadE): (v: seq<real>)
    ensures |v| == |rs| && forall i :: 0 <= i < |rs| ==> v[i] == Real(Back(rs[i], printE, readE))
  {
    seq(|rs|, i requires 0 <= i < |rs| => Real(Back(rs[i], printE, readE)))
  }

  /** The entry as it comes back: named, a 32-bit array cut down to sixteen bits, floating point numbers as they are
    * printed and read, and inline JSON without white space around it and, if it is a string, without its quotes. */
  ghost function ParsedEntry(e: Entry, k: nat, printE: PrintE, readE: ReadE): Entry {
    Entry(Some(NameOr(e, k)), DecodeType(TypeCode(e.typ)),
          match e.val
          case VArray(v) => if e.typ.I32ARRAY? then VArray(Cast16(v)) else e.val
          case VStr(s) => if e.typ.JSON? then VStr(DocRaw(s)) else e.val
          case VReal(r) => VReal(Real(Back(r, printE, readE)))
          case VReals(rs) => VReals(AllBack(rs, printE, readE))
          case _ => e.val)
  }

  /** The text of a document's first token. */
  function RawText(v: T.Json): string {
    match v case JStr(s) => s case JPad(_, w, _) => RawText(w) case _ => T.Text(v)
  }

  ghost function DocRaw(s: string): string { if IsDoc(s) then RawText(DocOf(s)) else s }

  /** The k-th entry can come back.  Inline JSON has to leave room for a terminator, and something has to follow it; and
    * what is printed for a floating point number has to be readable. */
  ghost predicate Comes(es: seq<Entry>, k: nat, printE: PrintE, readE: ReadE)
    requires k < |es|
  {
    match es[k].val
    case VStr(s) => es[k].typ.JSON? ==> |DocRaw(s)| < 8192 && (DocRaw(s) != "" ==> k + 1 < |es|)
    case _ => RealsCome(es[k].val, printE, readE)
  }

  /** What is printed for floating point numbers can be read. */
  predicate RealsCome(v: Value, printE: PrintE, readE: ReadE) {
    match v
    case VReal(r) => Back(r, printE, readE).Some?
    case VReals(rs) => forall i :: 0 <= i < |rs| ==> Back(rs[i], printE, readE).Some?
    case _ => true
  }

  /** The tokens of the inline JSON s stand at tk, where their text is. */
  ghost predicate Ranged(ts: seq<Seen>, tk: nat, s: string) {
    && tk < |ts| && ts[tk].raw == DocRaw(s) && ts[tk].end - ts[tk].start == |DocRaw(s)|
    && (DocRaw(s) != "" ==>
          SpanFrom(ts, tk, ts[tk].end) == if tk + |DocTokens(s)| < |ts| then Some(|DocTokens(s)|) else None)
  }

  /** So it is for the entries from the k-th on, whose tokens start at tk. */
  ghost predicate Ranges(ts: seq<Seen>, tk: nat, es: seq<Entry>, k: nat, printE: PrintE)
    requires k <= |es|
    decreases |es| - k
  {
    k == |es| ||
    ((es[k].typ.JSON? && es[k].val.VStr? ==> Ranged(ts, tk + 5, es[k].val.s))
     && Ranges(ts, tk + |EntryTokens(es[k], k, printE)|, es, k + 1, printE))
  }

  /** The tokens x are at tk. */
  ghost predicate Shows(ts: seq<Seen>, tk: nat, x: seq<Token>) {
    tk + |x| <= |ts| && forall i :: 0 <= i < |x| ==> ts[tk + i].tok == x[i]
  }

  lemma ShowsAt(ts: seq<Seen>, tk: nat, x: seq<Token>, i: nat)
    requires Shows(ts, tk, x) && i < |x|
    ensures At(ts, tk + i) == x[i]
  {
  }

  lemma ShowsSplit(ts: seq<Seen>, tk: nat, x: seq<Token>, y: seq<Token>)
    requires Shows(ts, tk, x + y)
    ensures Shows(ts, tk, x) && Shows(ts, tk + |x|, y)
  {
    forall i | 0 <= i < |x| ensures ts[tk + i].tok == x[i] {
      assert x[i] == (x + y)[i];
    }
    forall i | 0 <= i < |y| ensures ts[tk + |x| + i].tok == y[i] {
      assert y[i] == (x + y)[|x| + i] && ts[tk + (|x| + i)].tok == (x + y)[|x| + i];
    }
  }

  function Cast16(v: seq<int>): (r: seq<int>)
    ensures |r| == |v| && forall i :: 0 <= i < |v| ==> r[i] == Wrap(v[i], TWO_15)
  {
    seq(|v|, i requires 0 <= i < |v| => Wrap(v[i], TWO_15))
  }

  ghost function ParsedEntries(es: seq<Entry>, printE: PrintE, readE: ReadE): (r: seq<Entry>)
    ensures |r| == |es| && forall k :: 0 <= k < |es| ==> r[k] == ParsedEntry(es[k], k, printE, readE)
  {
    seq(|es|, k requires 0 <= k < |es| => ParsedEntry(es[k], k, printE, readE))
  }

  lemma ArrayParsed(ts: seq<Seen>, tk: nat, e: Entry, t: EntryType, elems: seq<int>, printE: PrintE)
    requires IntArray(t) && GoodValue(t, VArray(elems), printE) && e.typ == DecodeType(TypeCode(t))
    requires tk + 1 + |elems| <= |ts| && At(ts, tk) == Array(|elems|) && Shows(ts, tk + 1, Numbers(elems))
    ensures ReadArray(ts, tk, e) ==
      Moved(if |elems| > 0 then 1 + |elems| else 0, |elems|,
            e.(val := if t.I32ARRAY? then VArray(Cast16(elems)) else VArray(elems)))
  {
    hide Cast, InElem, TypeCode, DecodeType, ElemOf, Num;
    var from := tk + 1;
    TypeCodeRoundTrip(t);
    ArrayFits(t, e.typ, |elems|);
    forall i | 0 <= i < |elems| ensures ElemOf(At(ts, from + i), e.typ) == Some(elems[i]) {
      ShowsAt(ts, from, Numbers(elems), i);
      assert Numbers(elems)[i] == Num(elems[i]);
      ElemConverted(t, e.typ, elems[i]);
    }
    var r := Elements(ts, from, |elems|, e.typ);
    forall i | 0 <= i < |elems| ensures r[i] == if t.I32ARRAY? then Wrap(elems[i], TWO_15) else elems[i] {
      ElemParsed(t, elems[i]);
    }
    assert r == if t.I32ARRAY? then Cast16(elems) else elems;
    forall i | 0 <= i < |elems| ensures ElemOk(ts, from, i, e.typ) {
      assert ElemOf(At(ts, from + i), e.typ) == Some(elems[i]);
    }
    assert Size(At(ts, tk)) == |elems|;
  }

  lemma ArrayFits(t: EntryType, back: EntryType, n: nat)
    requires IntArray(t) && n * ElemSize(t) <= BPE_MAXARRAY_LEN && back == if t.I32ARRAY? then I16ARRAY else t
    ensures ArrayCount(back, n) == n <= BPE_MAXARRAY_LEN
  {
    assert n * ElemSize(back) <= n * ElemSize(t);
    ArrayCountFits(back, n);
  }

  lemma ElemConverted(t: EntryType, back: EntryType, v: int)
    requires IntArray(t) && InElem(t, v) && back == if t.I32ARRAY? then I16ARRAY else t
    ensures ElemOf(Num(v), back) == Some(v)
  {
    hide Num, U64Of, I64Of;
    NumRead(v);
  }

  lemma ElemParsed(t: EntryType, v: int)
    requires IntArray(t) && InElem(t, v)
    ensures Cast(if t.I32ARRAY? then I16ARRAY else t, v) == if t.I32ARRAY? then Wrap(v, TWO_15) else v
  {
    CastIn(t, v);
  }

  lemma OnePair(ts: seq<Seen>, tk: nat, e: Entry, e1: Entry, readE: ReadE)
    requires ReadPair(ts, tk, e, readE) == Moved(0, 0, e1)
    ensures ReadPairs(ts, tk, 0, 1, e, readE) == Moved(0, 2, e1)
  {
    hide ReadPair;
    assert ReadPairs(ts, tk + 2, 2, 1, e1, readE) == Moved(0, 2, e1);
  }

  lemma TwoPairs(ts: seq<Seen>, tk: nat, e: Entry, e1: Entry, dt: nat, doff: nat, e2: Entry, readE: ReadE)
    requires ReadPair(ts, tk, e, readE) == Moved(0, 0, e1) && ReadPair(ts, tk + 2, e1, readE) == Moved(dt, doff, e2)
    ensures ReadPairs(ts, tk, 0, 2, e, readE) == Moved(0, 4 + doff, e2)
  {
    hide ReadPair;
    assert ReadPairs(ts, tk + 4 + dt, 4 + doff, 2, e2, readE) == Moved(0, 4 + doff, e2);
    assert ReadPairs(ts, tk + 2, 2, 2, e1, readE) == Moved(0, 4 + doff, e2);
  }

  lemma TypePair(ts: seq<Seen>, tk: nat, e: Entry, k: nat, printE: PrintE, readE: ReadE)
    requires Shows(ts, tk, EntryTokens(e, k, printE))
    ensures At(ts, tk) == Key(NameOr(e, k)) && At(ts, tk + 1) == Object(if e.val.VNone? then 1 else 2)
    ensures var e0 := EMPTY.(name := Some(NameOr(e, k)));
      ReadPair(ts, tk + 2, e0, readE) == Moved(0, 0, e0.(typ := DecodeType(TypeCode(e.typ))))
  {
    hide DecodeType, TypeCode;
    ShowsAt(ts, tk, EntryTokens(e, k, printE), 0);
    ShowsAt(ts, tk, EntryTokens(e, k, printE), 1);
    ShowsAt(ts, tk, EntryTokens(e, k, printE), 2);
    ShowsAt(ts, tk, EntryTokens(e, k, printE), 3);
    CodeLength(e.typ);
  }

  lemma CodeLength(t: EntryType)
    ensures |TypeCode(t)| <= 2
  {
  }

  /** A name comes back whole. */
  lemma NameBack(e: Entry, k: nat)
    requires ShortName(e.name) && k < BRIDGE_PACKET_ENTRY_MAX
    ensures TextOf(Key(NameOr(e, k))) == Some(NameOr(e, k))
  {
    N.DecimalLength(k);
  }

  /** How many tokens a value takes beyond its key and itself. */
  ghost function Extra(e: Entry): nat {
    if e.val.VArray? then |e.val.elems|
    else if e.val.VReals? then |e.val.reals|
    else if e.typ.JSON? && e.val.VStr? && |DocTokens(e.val.s)| > 0 then |DocTokens(e.val.s)| - 1
    else 0
  }

  function Printed(rs: seq<real>, printE: PrintE): (ts: seq<Token>)
    ensures |ts| == |rs| && forall i :: 0 <= i < |rs| ==> ts[i] == Prim(printE(rs[i]), 0)
  {
    seq(|rs|, i requires 0 <= i < |rs| => Prim(printE(rs[i]), 0))
  }

  lemma ArrayTokens(e: Entry, printE: PrintE)
    ensures match e.val
      case VArray(v) => ValueTokens(e, printE) == [Key("v"), Array(|v|)] + Numbers(v)
      case VReals(rs) => ValueTokens(e, printE) == [Key("v"), Array(|rs|)] + Printed(rs, printE)
      case _ => true
  {
    hide Decimal;
    match e.val
    case VArray(v) => assert seq(|v|, i requires 0 <= i < |v| => Prim(Decimal(v[i]), 0)) == Numbers(v);
    case VReals(rs) => assert seq(|rs|, i requires 0 <= i < |rs| => Prim(printE(rs[i]), 0)) == Printed(rs, printE);
    case _ =>
  }

  lemma RealsParsed(ts: seq<Seen>, tk: nat, e: Entry, rs: seq<real>, printE: PrintE,
                    readE: ReadE)
    requires |rs| * 8 <= 8192 && tk + 1 + |rs| <= |ts| && At(ts, tk) == Array(|rs|)
    requires Shows(ts, tk + 1, Printed(rs, printE))
    ensures ReadReals(ts, tk, e, readE) ==
      if forall i :: 0 <= i < |rs| ==> Back(rs[i], printE, readE).Some? then
        Moved(if |rs| > 0 then 1 + |rs| else 0, |rs|, e.(val := VReals(AllBack(rs, printE, readE))))
      else Bad
  {
    hide RealOf, Real;
    var from := tk + 1;
    ArrayCountFits(DBLARRAY, |rs|);
    forall i | 0 <= i < |rs|
      ensures At(ts, from + i) == Prim(printE(rs[i]), 0)
      ensures RealOk(ts, from, i, readE) <==> Back(rs[i], printE, readE).Some?
    {
      ShowsAt(ts, from, Printed(rs, printE), i);
    }
    if Readable(ts, from, |rs|, readE) {
      forall i | 0 <= i < |rs| ensures Back(rs[i], printE, readE).Some? {
        assert RealOk(ts, from, i, readE);
      }
      assert Reals(ts, from, |rs|, readE) == AllBack(rs, printE, readE);
    }
    assert Size(At(ts, tk)) == |rs|;
  }

  /** The pair of a floating point value. */
  lemma RealPair(ts: seq<Seen>, tk: nat, e: Entry, k: nat, e1: Entry, printE: PrintE,
                 readE: ReadE)
    requires GoodEntry(e, printE) && (e.val.VReal? || e.val.VReals?) && Shows(ts, tk, ValueTokens(e, printE))
    requires e1 == Entry(Some(NameOr(e, k)), DecodeType(TypeCode(e.typ)), VNone)
    ensures var pair := ReadPair(ts, tk, e1, readE);
      if RealsCome(e.val, printE, readE) then
        pair.Moved? && pair.offset == Extra(e) && pair.e == ParsedEntry(e, k, printE, readE)
      else !pair.Moved?
  {
    hide DecodeType, TypeCode, NameOr, Shows, RealOf, ReadReals, AllBack, Printed;
    ArrayTokens(e, printE);
    ShowsAt(ts, tk, ValueTokens(e, printE), 0);
    ShowsAt(ts, tk, ValueTokens(e, printE), 1);
    TypeCodeRoundTrip(e.typ);
    if e.val.VReals? {
      var rs := e.val.reals;
      ShowsSplit(ts, tk, [Key("v"), Array(|rs|)], Printed(rs, printE));
      RealsParsed(ts, tk + 1, e1, rs, printE, readE);
    }
  }

  /** The value's pair, in the k-th entry of those in es. */
  lemma ValuePair(ts: seq<Seen>, tk: nat, es: seq<Entry>, k: nat, e1: Entry, printE: PrintE,
                  readE: ReadE)
    requires k < |es| && GoodEntry(es[k], printE) && !es[k].val.VNone? && Shows(ts, tk, ValueTokens(es[k], printE))
    requires es[k].typ.JSON? && es[k].val.VStr? ==> Ranged(ts, tk + 1, es[k].val.s)
    requires k + 1 < |es| <==> tk + |ValueTokens(es[k], printE)| < |ts|
    requires e1 == Entry(Some(NameOr(es[k], k)), DecodeType(TypeCode(es[k].typ)), VNone)
    ensures var pair := ReadPair(ts, tk, e1, readE);
      if Comes(es, k, printE, readE) then
        pair.Moved? && pair.offset == Extra(es[k]) && pair.e == ParsedEntry(es[k], k, printE, readE)
      else !pair.Moved?
    ensures |ValueTokens(es[k], printE)| == 2 + Extra(es[k])
  {
    hide DecodeType, TypeCode, InElem, Num, U64Of, I64Of, ReadArray, ReadJson, Escape, NameOr, DocTokens, Ranged, Shows;
    hide ReadReals, RealOf, AllBack, Printed;
    var e := es[k];
    SomeDocTokens(e);
    ArrayTokens(e, printE);
    if e.val.VReal? || e.val.VReals? {
      hide ReadPair, ParsedEntry;
      RealPair(ts, tk, e, k, e1, printE, readE);
    } else {
      OtherPair(ts, tk, es, k, e1, printE, readE);
    }
  }

  /** The pair of a number, an array or a string. */
  lemma PlainPair(ts: seq<Seen>, tk: nat, e: Entry, k: nat, e1: Entry, printE: PrintE,
                  readE: ReadE)
    requires GoodEntry(e, printE) && (e.val.VInt? || e.val.VArray? || (e.val.VStr? && !e.typ.JSON?))
    requires Shows(ts, tk, ValueTokens(e, printE))
    requires e1 == Entry(Some(NameOr(e, k)), DecodeType(TypeCode(e.typ)), VNone)
    ensures var pair := ReadPair(ts, tk, e1, readE);
      pair.Moved? && pair.offset == Extra(e) && pair.e == ParsedEntry(e, k, printE, readE)
  {
    hide DecodeType, TypeCode, InElem, U64Of, I64Of, ReadArray, ReadJson, Escape, NameOr, Shows, ReadReals, RealOf;
    hide Decimal;
    ArrayTokens(e, printE);
    ShowsAt(ts, tk, ValueTokens(e, printE), 0);
    ShowsAt(ts, tk, ValueTokens(e, printE), 1);
    TypeCodeRoundTrip(e.typ);
    match e.val
    case VArray(elems) =>
      ShowsSplit(ts, tk, [Key("v"), Array(|elems|)], Numbers(elems));
      ArrayParsed(ts, tk + 1, e1, e.typ, elems, printE);
    case VInt(i) => NumRead(i);
    case VStr(s) =>
      EscapeRoundTrip(s);
      UpToNulWhole(s);
  }

  lemma OtherPair(ts: seq<Seen>, tk: nat, es: seq<Entry>, k: nat, e1: Entry, printE: PrintE,
                  readE: ReadE)
    requires k < |es| && GoodEntry(es[k], printE) && Shows(ts, tk, ValueTokens(es[k], printE))
    requires !es[k].val.VNone? && !es[k].val.VReal? && !es[k].val.VReals?
    requires es[k].typ.JSON? && es[k].val.VStr? ==> Ranged(ts, tk + 1, es[k].val.s)
    requires k + 1 < |es| <==> tk + |ValueTokens(es[k], printE)| < |ts|
    requires e1 == Entry(Some(NameOr(es[k], k)), DecodeType(TypeCode(es[k].typ)), VNone)
    ensures var pair := ReadPair(ts, tk, e1, readE);
      if Comes(es, k, printE, readE) then
        pair.Moved? && pair.offset == Extra(es[k]) && pair.e == ParsedEntry(es[k], k, printE, readE)
      else !pair.Moved?
  {
    hide DecodeType, TypeCode, InElem, ReadPair, Escape, NameOr, DocTokens, Ranged, Shows;
    var e := es[k];
    if e.val.VStr? && e.typ.JSON? {
      SomeDocTokens(e);
      ShowsAt(ts, tk, ValueTokens(e, printE), 0);
      TypeCodeRoundTrip(JSON);
      JsonPair(ts, tk, es, k, e1, printE, readE);
      if DocRaw(e.val.s) == "" {
        EmptyDoc(e.val.s);
      }
    } else {
      PlainPair(ts, tk, e, k, e1, printE, readE);
    }
  }

  lemma JsonPair(ts: seq<Seen>, tk: nat, es: seq<Entry>, k: nat, e1: Entry, printE: PrintE, readE: ReadE)
    requires k < |es| && es[k].typ.JSON? && es[k].val.VStr? && Ranged(ts, tk + 1, es[k].val.s)
    requires At(ts, tk) == Key("v") && |DocTokens(es[k].val.s)| > 0
    requires k + 1 < |es| <==> tk + 1 + |DocTokens(es[k].val.s)| < |ts|
    requires e1 == Entry(Some(NameOr(es[k], k)), JSON, VNone)
    ensures var pair := ReadPair(ts, tk, e1, readE);
      if Comes(es, k, printE, readE) then
        pair.Moved? && pair.offset == (if DocRaw(es[k].val.s) == "" then 0 else |DocTokens(es[k].val.s)| - 1)
        && pair.e == e1.(val := VStr(DocRaw(es[k].val.s)))
      else !pair.Moved?
  {
    hide DocTokens, ReadJson, DocRaw, NameOr;
    JsonParsed(ts, tk + 1, es[k].val.s, e1);
  }

  /** Only an empty string has no text. */
  lemma EmptyRaw(v: T.Json)
    requires T.Good(v) && RawText(v) == ""
    ensures |Contents(v)| == 1
  {
    if v.JPad? {
      EmptyRaw(v.v);
    }
  }

  lemma EmptyDoc(s: string)
    requires IsDoc(s) && DocRaw(s) == ""
    ensures |DocTokens(s)| == 1
  {
    EmptyRaw(DocOf(s));
  }

  lemma SomeDocTokens(e: Entry)
    ensures e.val.VStr? && IsDoc(e.val.s) ==> |DocTokens(e.val.s)| > 0
  {
    if e.val.VStr? && IsDoc(e.val.s) {
      SomeContents(DocOf(e.val.s));
    }
  }

  lemma SomeContents(v: T.Json)
    ensures |Contents(v)| > 0
  {
    if v.JPad? {
      SomeContents(v.v);
    }
  }

  lemma JsonParsed(ts: seq<Seen>, tk: nat, s: string, e: Entry)
    requires Ranged(ts, tk, s) && |DocTokens(s)| > 0
    ensures ReadJson(ts, tk, e) ==
      if |DocRaw(s)| >= BPE_MAXARRAY_LEN then Bad
      else if DocRaw(s) == "" then Moved(0, 0, e.(val := VStr("")))
      else if tk + |DocTokens(s)| < |ts| then
        Moved(|DocTokens(s)| - 1, |DocTokens(s)| - 1, e.(val := VStr(DocRaw(s))))
      else Outside
  {
    hide DocRaw, DocTokens, SpanFrom;
  }

  /** An entry's tokens are read back as the entry, and what is returned leads to the token behind them. */
  lemma EntryParsed(ts: seq<Seen>, tk: nat, es: seq<Entry>, k: nat, printE: PrintE, readE: ReadE)
    requires k < |es| <= BRIDGE_PACKET_ENTRY_MAX && GoodEntry(es[k], printE)
    requires Shows(ts, tk, EntryTokens(es[k], k, printE))
    requires es[k].typ.JSON? && es[k].val.VStr? ==> Ranged(ts, tk + 5, es[k].val.s)
    requires k + 1 < |es| <==> tk + |EntryTokens(es[k], k, printE)| < |ts|
    ensures var r := ReadEntry(ts, tk, readE);
      if Comes(es, k, printE, readE) then
        r == Moved(0, |EntryTokens(es[k], k, printE)| - 1, ParsedEntry(es[k], k, printE, readE))
      else !r.Moved?
  {
    hide DecodeType, TypeCode, ReadPair, ReadPairs, GoodEntry, TextOf, NameOr, ValueTokens, Comes, Ranged;
    var e := es[k];
    var e0 := EMPTY.(name := Some(NameOr(e, k)));
    var e1 := e0.(typ := DecodeType(TypeCode(e.typ)));
    TypePair(ts, tk, e, k, printE, readE);
    EntryName(e, k, printE);
    if e.val.VNone? {
      NoValue(es, k, printE, readE);
      OnePair(ts, tk + 2, e0, e1, readE);
      NothingParsed(e, k, e1, printE, readE);
    } else {
      var head := [Key(NameOr(e, k)), Object(2), Key("t"), Quote(TypeCode(e.typ))];
      assert EntryTokens(e, k, printE) == head + ValueTokens(e, printE);
      ShowsSplit(ts, tk, head, ValueTokens(e, printE));
      ValuePair(ts, tk + 4, es, k, e1, printE, readE);
      var pair := ReadPair(ts, tk + 4, e1, readE);
      if pair.Moved? {
        TwoPairs(ts, tk + 2, e0, e1, pair.tokens, pair.offset, pair.e, readE);
      } else {
        SecondFails(ts, tk + 2, e0, e1, readE);
      }
    }
  }

  lemma NoValue(es: seq<Entry>, k: nat, printE: PrintE, readE: ReadE)
    requires k < |es| && es[k].val.VNone?
    ensures ValueTokens(es[k], printE) == [] && Comes(es, k, printE, readE)
  {
  }

  lemma SecondFails(ts: seq<Seen>, tk: nat, e: Entry, e1: Entry, readE: ReadE)
    requires ReadPair(ts, tk, e, readE) == Moved(0, 0, e1) && !ReadPair(ts, tk + 2, e1, readE).Moved?
    ensures !ReadPairs(ts, tk, 0, 2, e, readE).Moved?
  {
    hide ReadPair;
    assert !ReadPairs(ts, tk + 2, 2, 2, e1, readE).Moved?;
  }

  lemma EntryName(e: Entry, k: nat, printE: PrintE)
    requires GoodEntry(e, printE) && k < BRIDGE_PACKET_ENTRY_MAX
    ensures TextOf(Key(NameOr(e, k))) == Some(NameOr(e, k))
  {
    NameBack(e, k);
  }

  lemma NothingParsed(e: Entry, k: nat, e1: Entry, printE: PrintE, readE: ReadE)
    requires GoodEntry(e, printE) && e.val.VNone? && e1 == Entry(Some(NameOr(e, k)), DecodeType(TypeCode(e.typ)), VNone)
    ensures e1 == ParsedEntry(e, k, printE, readE)
  {
  }

  // ----- the header and the whole packet -----

  lemma FieldRead(ts: seq<Seen>, off: nat, c: char, i: int, h: Header, h': Header)
    requires h.Header? && off < 19 && At(ts, off + 1) == Key([c]) && c != 'e' && At(ts, off + 2) == Num(i)
    requires -TWO_63 <= i < TWO_64 && (c == 'X' ==> i < TWO_63)
    requires Put(c, Some(i % TWO_64), if i < TWO_63 then Some(i) else None, h) == Some(h')
    ensures ReadHeaderFrom(ts, off, 9, h) == ReadHeaderFrom(ts, off + 2, 9, h')
  {
    hide Put, Num, U64Of, I64Of;
    FieldSet(c, i, h);
    assert TextOf(Key([c])) == Some([c]);
  }

  /** Header fields are numbers in range of the conversion that is used, chidx being the only signed one. */
  lemma FieldSet(c: char, i: int, h: Header)
    requires h.Header? && -TWO_63 <= i < TWO_64
    ensures i < TWO_63 || c != 'X' ==>
      SetField(c, Num(i), h) == Put(c, Some(i % TWO_64), if i < TWO_63 then Some(i) else None, h)
  {
    hide Num, U64Of, I64Of;
    NumRead(i);
  }

  lemma HeaderFront(ts: seq<Seen>, p: Packet)
    requires Shows(ts, 0, HeaderTokens(p))
    ensures At(ts, 0) == Object(9) && At(ts, 1) == Key("v") && At(ts, 2) == Num(0) && At(ts, 3) == Key("s")
    ensures At(ts, 4) == Num(p.source) && At(ts, 5) == Key("f") && At(ts, 6) == Num(p.flags)
    ensures At(ts, 7) == Key("p") && At(ts, 8) == Num(Signed32(p.vpkt))
  {
    hide Num, Signed32, Shows, At;
    var x := HeaderTokens(p);
    ShowsAt(ts, 0, x, 0);
    ShowsAt(ts, 0, x, 1);
    ShowsAt(ts, 0, x, 2);
    ShowsAt(ts, 0, x, 3);
    ShowsAt(ts, 0, x, 4);
    ShowsAt(ts, 0, x, 5);
    ShowsAt(ts, 0, x, 6);
    ShowsAt(ts, 0, x, 7);
    ShowsAt(ts, 0, x, 8);
  }

  /** The header's fields up to the packet type. */
  lemma HeaderStart(ts: seq<Seen>, p: Packet, h: Header, h2: Header, h3: Header, printE: PrintE)
    requires GoodPacket(p, printE) && Shows(ts, 0, HeaderTokens(p)) && h == Header(0, NEW, 0)
    requires h2 == h.(p := h.p.(source := p.source)) && h3 == h2.(p := h2.p.(flags := p.flags))
    ensures ReadHeader(ts) == ReadHeaderFrom(ts, 6, 9, h3)
  {
    hide HeaderTokens, ReadHeaderFrom, Num, Signed32;
    HeaderFront(ts, p);
    FieldRead(ts, 0, 'v', 0, h, h);
    FieldRead(ts, 2, 's', p.source, h, h2);
    FieldRead(ts, 4, 'f', p.flags, h2, h3);
  }

  /** The fields behind the packet type. */
  lemma HeaderEnd(ts: seq<Seen>, p: Packet, h: Header, printE: PrintE)
    requires GoodPacket(p, printE) && Shows(ts, 0, HeaderTokens(p))
    requires h == Header(0, p.(phidid := 0, ocid := 0, chidx := 0, entries := []), 0)
    ensures ReadHeaderFrom(ts, 8, 9, h) == Header(19, p.(entries := []), |p.entries|)
  {
    hide HeaderTokens, ReadHeaderFrom, Num;
    HeaderBack(ts, p);
    var h5 := h.(p := h.p.(phidid := p.phidid));
    var h6 := h5.(p := h5.p.(ocid := p.ocid));
    var h7 := h6.(p := h6.p.(chidx := p.chidx));
    var h8 := h7.(cnt := |p.entries|);
    FieldRead(ts, 8, 'I', p.phidid, h, h5);
    FieldRead(ts, 10, 'O', p.ocid, h5, h6);
    FieldRead(ts, 12, 'X', p.chidx, h6, h7);
    FieldRead(ts, 14, 'c', |p.entries|, h7, h8);
    HeaderStops(ts, h8);
  }

  lemma HeaderBack(ts: seq<Seen>, p: Packet)
    requires Shows(ts, 0, HeaderTokens(p))
    ensures At(ts, 9) == Key("I") && At(ts, 10) == Num(p.phidid) && At(ts, 11) == Key("O")
    ensures At(ts, 12) == Num(p.ocid) && At(ts, 13) == Key("X") && At(ts, 14) == Num(p.chidx)
    ensures At(ts, 15) == Key("c") && At(ts, 16) == Num(|p.entries|) && At(ts, 17) == Key("e")
  {
    hide Num, Signed32, Shows, At;
    var x := HeaderTokens(p);
    ShowsAt(ts, 0, x, 9);
    ShowsAt(ts, 0, x, 10);
    ShowsAt(ts, 0, x, 11);
    ShowsAt(ts, 0, x, 12);
    ShowsAt(ts, 0, x, 13);
    ShowsAt(ts, 0, x, 14);
    ShowsAt(ts, 0, x, 15);
    ShowsAt(ts, 0, x, 16);
    ShowsAt(ts, 0, x, 17);
  }

  lemma HeaderStops(ts: seq<Seen>, h: Header)
    requires h.Header? && At(ts, 17) == Key("e")
    ensures ReadHeaderFrom(ts, 16, 9, h) == h.(at := 19)
  {
  }

  /** A packet type with the top bit is printed as a negative number, which is refused. */
  lemma TypeField(p: Packet, h: Header, printE: PrintE)
    requires GoodPacket(p, printE) && h.Header?
    ensures SetField('p', Num(Signed32(p.vpkt)), h) ==
      if p.vpkt < TWO_31 then Some(h.(p := h.p.(vpkt := p.vpkt))) else None
  {
    hide Num, U64Of, I64Of;
    FieldSet('p', Signed32(p.vpkt), h);
  }

  lemma TypeSet(p: Packet, h: Header, printE: PrintE)
    requires GoodPacket(p, printE) && h.Header? && p.vpkt < TWO_31
    ensures Signed32(p.vpkt) == p.vpkt
    ensures Put('p', Some(p.vpkt % TWO_64), Some(p.vpkt), h) == Some(h.(p := h.p.(vpkt := p.vpkt)))
  {
  }

  lemma FieldRefused(ts: seq<Seen>, off: nat, c: char, h: Header)
    requires h.Header? && off < 19 && At(ts, off + 1) == Key([c]) && c != 'e' && SetField(c, At(ts, off + 2), h) == None
    ensures ReadHeaderFrom(ts, off, 9, h) == BadHeader
  {
    hide SetField;
    assert TextOf(Key([c])) == Some([c]);
  }

  /** The header comes back, unless its packet type is refused. */
  lemma HeaderParsed(ts: seq<Seen>, p: Packet, printE: PrintE)
    requires GoodPacket(p, printE) && Shows(ts, 0, HeaderTokens(p))
    ensures ReadHeader(ts) == if p.vpkt < 0x8000_0000 then Header(19, p.(entries := []), |p.entries|) else BadHeader
  {
    hide HeaderTokens, SetField, ReadHeader, ReadHeaderFrom, Num, Put;
    var h0 := Header(0, NEW, 0);
    var h2 := h0.(p := h0.p.(source := p.source));
    var h := h2.(p := h2.p.(flags := p.flags));
    HeaderStart(ts, p, h0, h2, h, printE);
    HeaderFront(ts, p);
    if p.vpkt >= TWO_31 {
      TypeField(p, h, printE);
      FieldRefused(ts, 6, 'p', h);
    } else {
      TypeSet(p, h, printE);
      FieldRead(ts, 6, 'p', p.vpkt, h, h.(p := h.p.(vpkt := p.vpkt)));
      HeaderEnd(ts, p, h.(p := h.p.(vpkt := p.vpkt)), printE);
    }
  }

  ghost predicate AllCome(es: seq<Entry>, k: nat, printE: PrintE, readE: ReadE) {
    forall i :: k <= i < |es| ==> Comes(es, i, printE, readE)
  }

  lemma {:induction false} EntriesParsed(ts: seq<Seen>, res: nat, k: nat, es: seq<Entry>, q: Packet, printE: PrintE,
                                         readE: ReadE)
    requires k <= |es| <= BRIDGE_PACKET_ENTRY_MAX && (forall i :: 0 <= i < |es| ==> GoodEntry(es[i], printE))
    requires Shows(ts, res + k, EntriesTokens(es, k, printE)) && Ranges(ts, res + k, es, k, printE)
    requires |ts| == res + k + |EntriesTokens(es, k, printE)|
    ensures if AllCome(es, k, printE, readE) then
              ReadEntries(ts, res, k, |es|, q, readE) ==
                Parsed(q.(entries := q.entries + ParsedEntries(es, printE, readE)[k..]))
            else !ReadEntries(ts, res, k, |es|, q, readE).Parsed?
    decreases |es| - k
  {
    hide ReadEntry, EntryTokens, GoodEntry, ParsedEntry, Ranged, Shows, Comes;
    if k < |es| {
      var x := EntryTokens(es[k], k, printE);
      var q' := q.(entries := q.entries + [ParsedEntry(es[k], k, printE, readE)]);
      ShowsSplit(ts, res + k, x, EntriesTokens(es, k + 1, printE));
      SomeTokens(es[k], k, printE);
      MoreTokens(es, k + 1, printE);
      EntryParsed(ts, res + k, es, k, printE, readE);
      assert AllCome(es, k, printE, readE) <==> Comes(es, k, printE, readE) && AllCome(es, k + 1, printE, readE);
      if Comes(es, k, printE, readE) {
        EntriesParsed(ts, res + |x| - 1, k + 1, es, q', printE, readE);
        var back := ParsedEntries(es, printE, readE);
        assert q.entries + back[k..] == q'.entries + back[k + 1..];
      }
    } else {
      assert q.entries + [] == q.entries;
    }
  }

  lemma MoreTokens(es: seq<Entry>, k: nat, printE: PrintE)
    requires k <= |es|
    ensures k < |es| <==> |EntriesTokens(es, k, printE)| > 0
  {
    hide EntryTokens;
    if k < |es| {
      SomeTokens(es[k], k, printE);
    }
  }

  lemma SomeTokens(e: Entry, k: nat, printE: PrintE)
    ensures |EntryTokens(e, k, printE)| >= 4
  {
  }

  /** Parsing a rendered packet gives the packet back with every entry named and 32-bit arrays and inline JSON cut
    * down, as long as the parser has room for its tokens, the packet type is printed as a positive number and every
    * entry can come back. */
  lemma RoundTrip(p: Packet, ts: seq<Seen>, printE: PrintE, readE: ReadE)
    requires GoodPacket(p, printE) && |ts| == |RenderTokens(p, printE)| && Shows(ts, 0, RenderTokens(p, printE))
    requires Ranges(ts, 19, p.entries, 0, printE)
    ensures |ts| > 10000 || p.vpkt >= 0x8000_0000 ==> Parse(ts, readE) == Failed
    ensures |ts| <= 10000 && p.vpkt < 0x8000_0000 ==>
      if AllCome(p.entries, 0, printE, readE) then
        Parse(ts, readE) == Parsed(p.(entries := ParsedEntries(p.entries, printE, readE)))
      else !Parse(ts, readE).Parsed?
  {
    hide HeaderTokens, EntriesTokens, ReadEntries, ReadHeader, GoodPacket, Ranges, Shows, AllCome;
    HeaderLength(p);
    ShowsSplit(ts, 0, HeaderTokens(p), EntriesTokens(p.entries, 0, printE));
    HeaderParsed(ts, p, printE);
    if |ts| <= BRIDGE_JSON_TOKENS && p.vpkt < TWO_31 {
      GoodEntries(p, printE);
      EntriesParsed(ts, 19, 0, p.entries, p.(entries := []), printE, readE);
      var es := ParsedEntries(p.entries, printE, readE);
      assert es[0..] == es && [] + es == es;
    }
  }

  lemma HeaderLength(p: Packet)
    ensures |HeaderTokens(p)| == 19
  {
  }

  lemma GoodEntries(p: Packet, printE: PrintE)
    requires GoodPacket(p, printE)
    ensures |p.entries| <= BRIDGE_PACKET_ENTRY_MAX
    ensures forall i :: 0 <= i < |p.entries| ==> GoodEntry(p.entries[i], printE)
  {
  }

  /** Types and values survive exactly where there is no 32-bit array, no inline JSON that is a string or has white
    * space around it, and no floating point number that is read as another one than was printed; unnamed entries get
    * their index. */
  lemma EntrySurvives(e: Entry, k: nat, printE: PrintE, readE: ReadE)
    requires GoodEntry(e, printE) && RealsCome(e.val, printE, readE)
    ensures ParsedEntry(e, k, printE, readE).typ == e.typ && ParsedEntry(e, k, printE, readE).val == e.val <==>
      && !e.typ.I32ARRAY? && (e.typ.JSON? && e.val.VStr? ==> IsBare(e.val.s))
      && (e.val.VReal? ==> Same(e.val.r, printE, readE))
      && (e.val.VReals? ==> forall i :: 0 <= i < |e.val.reals| ==> Same(e.val.reals[i], printE, readE))
    ensures ParsedEntry(e, k, printE, readE).name == Some(if e.name.Some? then e.name.value else Decimal(k))
  {
    hide DocOf;
    TypeCodeRoundTrip(e.typ);
    if e.typ.JSON? && e.val.VStr? {
      RawIsText(DocOf(e.val.s));
    } else if e.val.VReals? && AllBack(e.val.reals, printE, readE) == e.val.reals {
      forall i | 0 <= i < |e.val.reals| ensures Same(e.val.reals[i], printE, readE) {
        assert AllBack(e.val.reals, printE, readE)[i] == e.val.reals[i];
      }
    }
  }

  /** The number is read as it was printed. */
  predicate Same(r: real, printE: PrintE, readE: ReadE) { Back(r, printE, readE) == Some(r) }

  /** Neither a string nor surrounded by white space. */
  predicate IsBare(s: string) { s != "" && s[0] != '"' && !J.IsSpace(s[0]) && !J.IsSpace(s[|s| - 1]) }

  lemma {:induction false} RawIsText(v: T.Json)
    requires T.Good(v)
    ensures T.Text(v) != "" && |RawText(v)| <= |T.Text(v)| && (RawText(v) == T.Text(v) <==> IsBare(T.Text(v)))
  {
    match v
    case JPad(pre, w, post) =>
      RawIsText(w);
      if pre != "" || post != "" {
        assert |RawText(v)| < |T.Text(v)|;
      } else {
        assert T.Text(v) == T.Text(w);
      }
    case _ =>
  }

  // ----- where names come from -----

  /** The texts of the string tokens can be quoted. */
  ghost predicate StringsQuotable(ts: seq<Seen>) {
    forall i :: 0 <= i < |ts| && ts[i].tok.Str? ==> Quotable(ts[i].tok.s)
  }

  /** A name that was not cut can be quoted. */
  predicate NameRead(name: Option<string>) {
    name.Some? && (|name.value| < 16384 ==> Quotable(name.value))
  }

  lemma {:induction false} PairsKeepName(ts: seq<Seen>, tk: nat, off: nat, size: int, e: Entry, readE: ReadE)
    ensures var r := ReadPairs(ts, tk, off, size, e, readE); r.Moved? ==> r.e.name == e.name
    decreases 2 * size - off
  {
    hide ReadPair;
    PairKeepsName(ts, tk, e, readE);
    if off < 2 * size {
      match ReadPair(ts, tk, e, readE)
      case Moved(dt, doff, e') => PairsKeepName(ts, tk + 2 + dt, off + 2 + doff, size, e', readE);
      case _ =>
    }
  }

  lemma PairKeepsName(ts: seq<Seen>, tk: nat, e: Entry, readE: ReadE)
    ensures var r := ReadPair(ts, tk, e, readE); r.Moved? ==> r.e.name == e.name
  {
    hide U64Of, I64Of, DecodeType, Elements, Convertible, ArrayCount;
  }

  lemma EntryNameRead(ts: seq<Seen>, tk: nat, readE: ReadE)
    requires StringsQuotable(ts)
    ensures var r := ReadEntry(ts, tk, readE); r.Moved? ==> NameRead(r.e.name)
  {
    hide ReadPairs, Quotable;
    if TextOf(At(ts, tk)).Some? {
      assert tk < |ts| && Quotable(ts[tk].tok.s);
      PairsKeepName(ts, tk + 2, 0, Size(At(ts, tk + 1)), EMPTY.(name := TextOf(At(ts, tk))), readE);
    }
  }

  lemma {:induction false} EntriesNamesRead(ts: seq<Seen>, res: nat, k: nat, cnt: nat, p: Packet, readE: ReadE)
    requires StringsQuotable(ts) && forall i :: 0 <= i < |p.entries| ==> NameRead(p.entries[i].name)
    ensures var r := ReadEntries(ts, res, k, cnt, p, readE);
      r.Parsed? ==> forall i :: 0 <= i < |r.p.entries| ==> NameRead(r.p.entries[i].name)
    decreases cnt - k
  {
    hide ReadEntry, NameRead;
    if k < cnt {
      EntryNameRead(ts, res + k, readE);
      match ReadEntry(ts, res + k, readE)
      case Moved(_, n, e) => EntriesNamesRead(ts, res + n, k + 1, cnt, p.(entries := p.entries + [e]), readE);
      case _ =>
    }
  }

  lemma {:induction false} HeaderKeepsEntries(ts: seq<Seen>, off: nat, size: int, h: Header)
    requires h.Header? && h.p.entries == []
    ensures var r := ReadHeaderFrom(ts, off, size, h); r.Header? ==> r.p.entries == []
    decreases 2 * size + 1 - off
  {
    hide U64Of, I64Of, TextOf;
    if off < 2 * size + 1 && TextOf(At(ts, off + 1)).Some? {
      match SetField(CharAt(TextOf(At(ts, off + 1)).value, 0), At(ts, off + 2), h)
      case None =>
      case Some(h') => HeaderKeepsEntries(ts, off + 2, size, h');
    }
  }

  /** Every entry of a parsed packet has a name, and one that was not cut can be quoted. */
  lemma NamesRead(ts: seq<Seen>, readE: ReadE)
    requires StringsQuotable(ts)
    ensures match Parse(ts, readE)
            case Parsed(p) => forall i :: 0 <= i < |p.entries| ==> NameRead(p.entries[i].name)
            case _ => true
  {
    hide ReadEntries, ReadHeaderFrom, NameRead;
    HeaderKeepsEntries(ts, 0, Size(At(ts, 0)), Header(0, NEW, 0));
    match ReadHeader(ts)
    case BadHeader =>
    case Header(at, p, cnt) => EntriesNamesRead(ts, at, 0, cnt, p, readE);
  }
}
