/** Bridge packets: their entries, the type codes of the text form, and that form as a sequence of JSON tokens. */
module Bridge {
  import opened Base
  import opened JsonText
  import N = Strton
  import T = JsmnTree

  const BRIDGE_PACKET_ENTRY_MAX := 36
  const BRIDGE_JSON_TOKENS := 10000
  const BPE_MAXARRAY_LEN := 8192
  const JSON_STRING_MAX := 16384
  const BPE_STR_LEN := 8192

  const TWO_15 := 0x8000
  const TWO_16 := 0x1_0000
  const TWO_31 := 0x8000_0000
  const TWO_32 := 0x1_0000_0000

  datatype EntryType =
    | NONE | UI8 | I16 | UI16 | I32 | UI32 | I64 | UI64 | FLOAT | DBL | STR | PTR
    | UI8ARRAY | I16ARRAY | UI16ARRAY | I32ARRAY | UI32ARRAY | I64ARRAY | UI64ARRAY | DBLARRAY | JSON

  predicate Unsigned(t: EntryType) { t.UI8? || t.UI16? || t.UI32? || t.UI64? }
  predicate Signed(t: EntryType) { t.I16? || t.I32? || t.I64? }
  predicate UnsignedArray(t: EntryType) { t.UI8ARRAY? || t.UI16ARRAY? || t.UI32ARRAY? || t.UI64ARRAY? }
  predicate SignedArray(t: EntryType) { t.I16ARRAY? || t.I32ARRAY? || t.I64ARRAY? }
  predicate IntArray(t: EntryType) { UnsignedArray(t) || SignedArray(t) }

  /** bridgePacketEntryType. */
  function TypeCode(t: EntryType): string {
    match t
    case NONE => "0" case UI8 => "c" case I16 => "h" case UI16 => "uh" case I32 => "d" case UI32 => "u"
    case I64 => "l" case UI64 => "ul" case FLOAT => "f" case DBL => "g" case STR => "s" case PTR => "p"
    case UI8ARRAY => "R" case I16ARRAY => "H" case UI16ARRAY => "UH" case I32ARRAY => "I" case UI32ARRAY => "U"
    case I64ARRAY => "L" case UI64ARRAY => "UL" case DBLARRAY => "G" case JSON => "J"
  }

  /** The i-th character, or the terminator behind the last. */
  function CharAt(s: string, i: nat): char { if i < |s| then s[i] else '\0' }

  /** decodeBridgePacketEntryType. */
  function DecodeType(s: string): EntryType {
    match CharAt(s, 0)
    case 'c' => UI8 case 'd' => I32 case 'f' => FLOAT case 'g' => DBL case 'h' => I16 case 'l' => I64 case 's' => STR
    case 'u' => (match CharAt(s, 1) case '\0' => UI32 case 'h' => UI16 case 'l' => UI64 case _ => NONE)
    case 'G' => DBLARRAY case 'H' => I16ARRAY case 'I' => I16ARRAY case 'J' => JSON case 'L' => I64ARRAY
    case 'R' => UI8ARRAY
    case 'U' => (match CharAt(s, 1) case '\0' => UI32ARRAY case 'H' => UI16ARRAY case 'L' => UI64ARRAY case _ => NONE)
    case _ => NONE
  }

  /** Two types do not come back from their code: a 32-bit array comes back as a 16-bit one, and a pointer,
    * which has no value in the text form, as nothing. */
  lemma TypeCodeRoundTrip(t: EntryType)
    ensures DecodeType(TypeCode(t)) == t <==> !t.I32ARRAY? && !t.PTR?
    ensures t.I32ARRAY? ==> DecodeType(TypeCode(t)) == I16ARRAY
  {
  }

  /** How a floating point number is printed (%e) and what strtod makes of a text, if anything. */
  type PrintE = real -> string
  type ReadE = string -> Option<real>

  // ----- packets -----

  datatype Value =
    | VNone | VInt(i: int) | VStr(s: string) | VArray(elems: seq<int>) | VReal(r: real) | VReals(reals: seq<real>)
    | VPtr

  datatype Entry = Entry(name: Option<string>, typ: EntryType, val: Value)

  const EMPTY := Entry(None, NONE, VNone)

  datatype Packet = Packet(source: int, flags: int, vpkt: int, phidid: int, ocid: int, chidx: int, entries: seq<Entry>)

  function ElemSize(t: EntryType): int {
    if t.UI8ARRAY? then 1
    else if t.I16ARRAY? || t.UI16ARRAY? then 2
    else if t.I32ARRAY? || t.UI32ARRAY? then 4
    else 8
  }

  function Wrap(v: int, m: int): int
    requires m > 0
  {
    (v + m) % (2 * m) - m
  }

  /** The cast to the array's element type. */
  function Cast(t: EntryType, v: int): int {
    match t
    case UI8ARRAY => v % 256
    case UI16ARRAY => v % TWO_16
    case UI32ARRAY => v % TWO_32
    case I16ARRAY => Wrap(v, TWO_15)
    case I32ARRAY => Wrap(v, TWO_31)
    case _ => v
  }

  /** A value a variable of the element type can hold. */
  predicate InElem(t: EntryType, v: int) {
    match t
    case UI8ARRAY => 0 <= v < 256
    case UI16ARRAY => 0 <= v < TWO_16
    case UI32ARRAY => 0 <= v < TWO_32
    case UI64ARRAY => 0 <= v < TWO_64
    case I16ARRAY => -TWO_15 <= v < TWO_15
    case I32ARRAY => -TWO_31 <= v < TWO_31
    case _ => -TWO_63 <= v < TWO_63
  }

  lemma CastIn(t: EntryType, v: int)
    requires IntArray(t) && InElem(t, v)
    ensures Cast(t, v) == v
  {
  }

  /** allocArray: the length in bytes is kept in sixteen bits, and the count is worked out from it. */
  function ArrayCount(t: EntryType, cnt: nat): nat { cnt * ElemSize(t) % TWO_16 / ElemSize(t) }

  lemma ArrayCountFits(t: EntryType, cnt: nat)
    ensures cnt * ElemSize(t) < TWO_16 ==> ArrayCount(t, cnt) == cnt
    ensures ArrayCount(t, cnt) <= cnt
  {
    var size := ElemSize(t);
    assert cnt * size % TWO_16 <= cnt * size;
    assert cnt * size / size == cnt;
  }

  // ----- the text form, as tokens -----

  /** A JSON token in preorder.  size counts its children: the members of an object, the elements of an array and
    * the value behind a key; s is the text of a string, between its quotes, or of a primitive.  Junk is what lies
    * behind the last token. */
  datatype Token = Object(size: int) | Array(size: int) | Str(s: string, size: int) | Prim(s: string, size: int) | Junk

  /** A token as the parser finds it: where it is in the text, and raw, the text there. */
  datatype Seen = Seen(tok: Token, raw: string, start: int, end: int)

  function At(ts: seq<Seen>, i: int): Token { if 0 <= i < |ts| then ts[i].tok else Junk }

  function Cut(s: string, n: nat): string { if |s| <= n then s else s[..n] }

  /** pjsmn_string. */
  function TextOf(t: Token): Option<string> { if t.Str? then Some(Cut(t.s, JSON_STRING_MAX)) else None }

  /** pjsmn_uint64 and pjsmn_int64. */
  function U64Of(t: Token): Option<int> { if t.Prim? then N.StrToU64(Cut(t.s, 32)) else None }
  function I64Of(t: Token): Option<int> { if t.Prim? then N.StrToI64(Cut(t.s, 32)) else None }

  // The tokens of keys, strings and numbers in a rendered packet.

  function Key(s: string): Token { Str(s, 1) }
  function Quote(s: string): Token { Str(s, 0) }
  function Num(i: int): Token { Prim(Decimal(i), 0) }

  /** A printed number is converted back, a negative one by pjsmn_uint64 to its complement. */
  lemma NumRead(i: int)
    requires -TWO_63 <= i < TWO_64
    ensures U64Of(Num(i)) == Some(i % TWO_64) && (i < TWO_63 ==> I64Of(Num(i)) == Some(i))
  {
    N.DecimalLength(i);
    N.U64RoundTrip(i);
    if i < TWO_63 {
      N.I64RoundTrip(i);
    }
  }

  function NameOr(e: Entry, k: nat): string { if e.name.Some? then e.name.value else Decimal(k) }

  function Numbers(v: seq<int>): (ts: seq<Token>)
    ensures |ts| == |v| && forall i :: 0 <= i < |v| ==> ts[i] == Num(v[i])
  {
    seq(|v|, i requires 0 <= i < |v| => Num(v[i]))
  }

  /** The values of a document in preorder. */
  function Contents(v: T.Json): seq<Token> {
    match v
    case JStr(s) => [Quote(s)]
    case JPrim(s) => [Prim(s, 0)]
    case JArr(es) => [Array(T.ElemsLen(es))] + ElemContents(es)
    case JObj(ms) => [Object(T.MembersLen(ms))] + MemberContents(ms)
    case JPad(_, w, _) => Contents(w)
  }

  function ElemContents(es: T.Elems): seq<Token> {
    match es case ENil(_) => [] case ECons(v, rest) => Contents(v) + ElemContents(rest)
  }

  function MemberContents(ms: T.Members): seq<Token> {
    match ms case MNil(_) => [] case MCons(_, key, _, v, rest) => [Key(key)] + Contents(v) + MemberContents(rest)
  }

  /** s is the text of a JSON document. */
  ghost predicate IsDoc(s: string) { exists v :: T.Good(v) && T.Text(v) == s }

  ghost function DocOf(s: string): (v: T.Json)
    requires IsDoc(s)
    ensures T.Good(v) && T.Text(v) == s
  {
    var v :| T.Good(v) && T.Text(v) == s;
    v
  }

  /** The tokens of inline JSON. */
  ghost function DocTokens(s: string): seq<Token> { if IsDoc(s) then Contents(DocOf(s)) else [] }

  /** The tokens of an entry's value; printE is %e. */
  ghost function ValueTokens(e: Entry, printE: PrintE): seq<Token> {
    match e.val
    case VNone => []
    case VInt(i) => [Str("v", 1), Prim(Decimal(i), 0)]
    case VStr(s) => [Str("v", 1)] + if e.typ.JSON? then DocTokens(s) else [Str(Escape(s), 0)]
    case VArray(v) => [Str("v", 1), Array(|v|)] + seq(|v|, i requires 0 <= i < |v| => Prim(Decimal(v[i]), 0))
    case VReal(r) => [Str("v", 1), Prim(printE(r), 0)]
    case VReals(rs) => [Str("v", 1), Array(|rs|)] + seq(|rs|, i requires 0 <= i < |rs| => Prim(printE(rs[i]), 0))
    case VPtr => []
  }

  /** renderBridgePacketJSON on the k-th entry. */
  ghost function EntryTokens(e: Entry, k: nat, printE: PrintE): seq<Token> {
    [Str(if e.name.Some? then e.name.value else Decimal(k), 1), Object(if e.val.VNone? then 1 else 2), Str("t", 1),
     Str(TypeCode(e.typ), 0)] + ValueTokens(e, printE)
  }

  ghost function EntriesTokens(es: seq<Entry>, k: nat, printE: PrintE): seq<Token>
    requires k <= |es|
    decreases |es| - k
  {
    if k == |es| then [] else EntryTokens(es[k], k, printE) + EntriesTokens(es, k + 1, printE)
  }

  /** printf's %d on a 32-bit value. */
  function Signed32(v: int): int { Wrap(v, TWO_31) }

  function HeaderTokens(p: Packet): seq<Token> {
    [Object(9), Key("v"), Num(0), Key("s"), Num(p.source), Key("f"), Num(p.flags), Key("p"), Num(Signed32(p.vpkt)),
     Key("I"), Num(p.phidid), Key("O"), Num(p.ocid), Key("X"), Num(p.chidx), Key("c"), Num(|p.entries|),
     Key("e"), Object(|p.entries|)]
  }

  /** renderBridgePacketJSON: the tokens of the text it writes. */
  ghost function RenderTokens(p: Packet, printE: PrintE): seq<Token> {
    HeaderTokens(p) + EntriesTokens(p.entries, 0, printE)
  }

  // ----- packets that can be rendered -----

  /** The value has the form its type calls for, in range, and what is printed for a floating point number is a JSON
    * primitive.  Pointers are not rendered. */
  ghost predicate GoodValue(t: EntryType, v: Value, printE: PrintE) {
    match v
    case VNone => t.NONE?
    case VInt(i) => if Unsigned(t) then 0 <= i < TWO_64 else Signed(t) && -TWO_63 <= i < TWO_63
    case VStr(s) => (t.STR? && '\0' !in s && Escapes(s)) || (t.JSON? && IsDoc(s) && |s| <= 8192)
    case VArray(elems) =>
      IntArray(t) && |elems| * ElemSize(t) <= 8192 && forall i :: 0 <= i < |elems| ==> InElem(t, elems[i])
    case VReal(r) => (t.FLOAT? || t.DBL?) && T.IsPrimitive(printE(r))
    case VReals(rs) => t.DBLARRAY? && |rs| * 8 <= 8192 && forall i :: 0 <= i < |rs| ==> T.IsPrimitive(printE(rs[i]))
    case VPtr => false
  }

  /** Does json_escape find room for the string? */
  predicate Escapes(s: string) { |Escape(s)| < JSON_STRING_MAX }

  /** A name comes back cut to what a token's buffer holds. */
  predicate ShortName(name: Option<string>) { name.Some? ==> |name.value| < 16384 }

  ghost predicate GoodEntry(e: Entry, printE: PrintE) { ShortName(e.name) && GoodValue(e.typ, e.val, printE) }

  /** The names can stand between quotes as they are, which is how they are rendered. */
  predicate NamesQuotable(es: seq<Entry>) {
    forall k :: 0 <= k < |es| && es[k].name.Some? ==> Quotable(es[k].name.value)
  }

  ghost predicate GoodPacket(p: Packet, printE: PrintE) {
    && (p.source == 1 || p.source == 2) && 0 <= p.flags < 0x1_0000_0000 && 0 <= p.vpkt < 0x1_0000_0000
    && 0 <= p.phidid < TWO_64 && 0 <= p.ocid < TWO_64 && -0x8000_0000 <= p.chidx < 0x8000_0000
    && |p.entries| <= 36 && forall k :: 0 <= k < |p.entries| ==> GoodEntry(p.entries[k], printE)
  }
}
