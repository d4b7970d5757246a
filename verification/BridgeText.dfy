/** Packets as text: the rendered text is a JSON document, the tokenizer finds the tokens in it that the parser
  * expects, and so parsing what was rendered gives the packet back. */
module BridgeText {
  import opened Base
  import opened Bridge
  import opened JsonText
  import R = BridgeRender
  import P = BridgeParse
  import BP = BridgePackets
  import J = Jsmn
  import T = JsmnTree

  // ----- tokens and the text they cover -----

  function Slice(js: string, i: int, j: int): string { if 0 <= i <= j <= |js| then js[i..j] else "" }

  /** What the parser gets to see of a token. */
  function View(js: string, t: J.JTok): Token {
    match t.typ
    case OBJECT => Object(t.size)
    case ARRAY => Array(t.size)
    case STRING => Str(Slice(js, t.start, t.end), t.size)
    case PRIMITIVE => Prim(Slice(js, t.start, t.end), t.size)
  }

  function ViewAll(js: string, ts: seq<J.JTok>): (r: seq<Token>)
    ensures |r| == |ts| && forall i :: 0 <= i < |ts| ==> r[i] == View(js, ts[i])
  {
    seq(|ts|, i requires 0 <= i < |ts| => View(js, ts[i]))
  }

  /** The tokens as the parser finds them. */
  function SeenAll(js: string, ts: seq<J.JTok>): (r: seq<Seen>)
    ensures |r| == |ts|
    ensures forall i :: 0 <= i < |ts| ==>
      r[i] == Seen(View(js, ts[i]), Slice(js, ts[i].start, ts[i].end), ts[i].start, ts[i].end)
  {
    seq(|ts|, i requires 0 <= i < |ts| =>
      Seen(View(js, ts[i]), Slice(js, ts[i].start, ts[i].end), ts[i].start, ts[i].end))
  }

  lemma ViewJoin(js: string, ts: seq<J.JTok>, us: seq<J.JTok>)
    ensures ViewAll(js, ts + us) == ViewAll(js, ts) + ViewAll(js, us)
  {
    hide View;
  }

  lemma ViewOne(js: string, t: J.JTok)
    ensures ViewAll(js, [t]) == [View(js, t)]
  {
  }

  lemma SliceStands(js: string, pos: nat, x: string)
    requires Stands(js, pos, x)
    ensures Slice(js, pos, pos + |x|) == x
  {
  }

  lemma KeySlice(js: string, pos: nat, key: string)
    requires Stands(js, pos, T.KeyText(key))
    ensures Slice(js, pos + 1, pos + 1 + |key|) == key
  {
    StandsSplit(js, pos, "\"", key + "\"");
    StandsSplit(js, pos + 1, key, "\"");
    SliceStands(js, pos + 1, key);
  }

  /** The tokens of a document that stands in the text show its values. */
  lemma {:induction false} ToksView(js: string, v: T.Json, i: nat, parent: int, pos: nat)
    requires Stands(js, pos, T.Text(v))
    ensures ViewAll(js, T.Toks(v, i, parent, pos)) == Contents(v)
    decreases v, 0
  {
    hide Stands, ViewAll, Slice;
    match v
    case JStr(s) =>
      KeySlice(js, pos, s);
      ViewOne(js, J.JTok(J.STRING, pos + 1, pos + 1 + |s|, 0, parent));
    case JPrim(s) =>
      SliceStands(js, pos, s);
      ViewOne(js, J.JTok(J.PRIMITIVE, pos, pos + |s|, 0, parent));
    case JArr(es) => ArrayView(js, v, i, parent, pos);
    case JObj(ms) => ObjectView(js, v, i, parent, pos);
    case JPad(pre, w, post) =>
      StandsSplit(js, pos, pre, T.Text(w) + post);
      StandsSplit(js, pos + |pre|, T.Text(w), post);
      ToksView(js, w, i, parent, pos + |pre|);
  }

  lemma {:induction false} ArrayView(js: string, v: T.Json, i: nat, parent: int, pos: nat)
    requires v.JArr? && Stands(js, pos, T.Text(v))
    ensures ViewAll(js, T.Toks(v, i, parent, pos)) == Contents(v)
    decreases v.es, 2
  {
    hide Stands, ViewAll, T.ElemsText, T.ElemToks, ElemContents;
    StandsSplit(js, pos, "[", T.ElemsText(v.es) + "]");
    StandsSplit(js, pos + 1, T.ElemsText(v.es), "]");
    ElemToksView(js, v.es, i + 1, i, pos + 1);
    ViewContainer(js, J.JTok(J.ARRAY, pos, pos + |T.Text(v)|, T.ElemsLen(v.es), parent),
                  T.ElemToks(v.es, i + 1, i, pos + 1));
  }

  lemma {:induction false} ObjectView(js: string, v: T.Json, i: nat, parent: int, pos: nat)
    requires v.JObj? && Stands(js, pos, T.Text(v))
    ensures ViewAll(js, T.Toks(v, i, parent, pos)) == Contents(v)
    decreases v.ms, 2
  {
    hide Stands, ViewAll, T.MembersText, T.MemberToks, MemberContents;
    var x := T.MembersText(v.ms);
    StandsSplit(js, pos, "{", x + "}");
    StandsSplit(js, pos + 1, x, "}");
    MemberToksView(js, v.ms, i + 1, i, pos + 1);
    ViewContainer(js, J.JTok(J.OBJECT, pos, pos + |T.Text(v)|, T.MembersLen(v.ms), parent),
                  T.MemberToks(v.ms, i + 1, i, pos + 1));
  }

  lemma ViewContainer(js: string, t: J.JTok, ts: seq<J.JTok>)
    ensures ViewAll(js, [t] + ts) == [View(js, t)] + ViewAll(js, ts)
  {
    ViewJoin(js, [t], ts);
    ViewOne(js, t);
  }

  lemma {:induction false} ElemToksView(js: string, es: T.Elems, i: nat, parent: int, pos: nat)
    requires Stands(js, pos, T.ElemsText(es))
    ensures ViewAll(js, T.ElemToks(es, i, parent, pos)) == ElemContents(es)
    decreases es, 1
  {
    hide Stands, T.Text, T.Toks, Contents;
    match es
    case ENil(_) =>
    case ECons(v, rest) =>
      var comma, ts := if rest.ENil? then "" else ",", T.Toks(v, i, parent, pos);
      StandsSplit(js, pos, T.Text(v), comma + T.ElemsText(rest));
      StandsSplit(js, pos + |T.Text(v)|, comma, T.ElemsText(rest));
      ToksView(js, v, i, parent, pos);
      ElemToksView(js, rest, i + |ts|, parent, pos + |T.Text(v)| + |comma|);
      ViewJoin(js, ts, T.ElemToks(rest, i + |ts|, parent, pos + |T.Text(v)| + |comma|));
  }

  lemma {:induction false} MemberToksView(js: string, ms: T.Members, i: nat, parent: int, pos: nat)
    requires Stands(js, pos, T.MembersText(ms))
    ensures ViewAll(js, T.MemberToks(ms, i, parent, pos)) == MemberContents(ms)
    decreases ms, 1
  {
    hide Stands, T.Text, T.Toks, T.MembersText, T.ValueAt, T.BehindAt, Contents, ViewAll, Slice;
    if ms.MCons? {
      var ts, at := T.Toks(ms.v, i + 1, i, T.ValueAt(ms, pos)), T.BehindAt(ms, pos);
      T.MemberParts(js, pos, ms);
      KeySlice(js, pos + |ms.pre|, ms.key);
      ToksView(js, ms.v, i + 1, i, T.ValueAt(ms, pos));
      MemberToksView(js, ms.rest, i + 1 + |ts|, parent, at);
      var k, us := T.KeyTok(ms, parent, pos, 1), T.MemberToks(ms.rest, i + 1 + |ts|, parent, at);
      ViewJoin(js, [k] + ts, us);
      ViewContainer(js, k, ts);
    } else {
      ViewNone(js);
    }
  }

  lemma ViewNone(js: string)
    ensures ViewAll(js, []) == []
  {
  }

  // ----- a packet as a document -----

  // The renderer puts a line break in front of every entry and behind the last one, and no other white space.

  const END := T.MNil("")

  function Mem(key: string, v: T.Json, rest: T.Members): (r: T.Members)
    ensures r.MCons?
  {
    T.MCons("", key, "", v, rest)
  }

  /** An array of primitives. */
  function PrimElems(texts: seq<string>): T.Elems {
    if texts == [] then T.ENil("") else T.ECons(T.JPrim(texts[0]), PrimElems(texts[1..]))
  }

  ghost function ValueMembers(e: Entry, printE: PrintE): T.Members {
    match e.val
    case VInt(i) => Mem("v", T.JPrim(Decimal(i)), END)
    case VStr(s) => if e.typ.JSON? && IsDoc(s) then Mem("v", DocOf(s), END) else Mem("v", T.JStr(Escape(s)), END)
    case VReal(r) => Mem("v", T.JPrim(printE(r)), END)
    case _ => if R.IsArray(e.typ) then Mem("v", T.JArr(PrimElems(R.Elements(e, printE))), END) else END
  }

  ghost function EntryTree(e: Entry, printE: PrintE): T.Json { Wrapped(e.typ, ValueMembers(e, printE)) }

  function Wrapped(t: EntryType, ms: T.Members): T.Json { T.JObj(Mem("t", T.JStr(TypeCode(t)), ms)) }

  ghost function EntryMembers(es: seq<Entry>, k: nat, printE: PrintE): T.Members
    requires k <= |es|
    decreases |es| - k
  {
    if k == |es| then T.MNil("\n")
    else T.MCons("\n", NameOr(es[k], k), "", EntryTree(es[k], printE), EntryMembers(es, k + 1, printE))
  }

  function Field(key: string, i: int, rest: T.Members): (r: T.Members)
    ensures r.MCons?
  {
    Mem(key, T.JPrim(Decimal(i)), rest)
  }

  ghost function Tree(p: Packet, printE: PrintE): T.Json {
    T.JObj(Field("v", 0, Field("s", p.source, Field("f", p.flags, Field("p", Signed32(p.vpkt), Field("I", p.phidid,
           Field("O", p.ocid, Field("X", p.chidx, Field("c", |p.entries|, Mem("e", EntriesTree(p, printE), END))))))))))
  }

  ghost function EntriesTree(p: Packet, printE: PrintE): T.Json { T.JObj(EntryMembers(p.entries, 0, printE)) }

  // Its values are the tokens of the packet.

  function Prims(texts: seq<string>): (ts: seq<Token>)
    ensures |ts| == |texts| && forall i :: 0 <= i < |texts| ==> ts[i] == Prim(texts[i], 0)
  {
    seq(|texts|, i requires 0 <= i < |texts| => Prim(texts[i], 0))
  }

  lemma {:induction false} PrimContents(texts: seq<string>)
    ensures ElemContents(PrimElems(texts)) == Prims(texts) && T.ElemsLen(PrimElems(texts)) == |texts|
  {
    if texts != [] {
      PrimContents(texts[1..]);
      PrimsFirst(texts);
      hide Prims;
      var rest := PrimElems(texts[1..]);
      assert PrimElems(texts) == T.ECons(T.JPrim(texts[0]), rest);
      assert Contents(T.JPrim(texts[0])) == [Prim(texts[0], 0)];
    }
  }

  lemma PrimsFirst(texts: seq<string>)
    requires texts != []
    ensures Prims(texts) == [Prim(texts[0], 0)] + Prims(texts[1..])
  {
  }

  /** The entry can be shown in a packet's document: its value suits its type and is not a pointer, inline JSON is
    * JSON, and what is printed for a floating point number is a JSON primitive. */
  ghost predicate Shown(e: Entry, printE: PrintE) {
    match e.val
    case VNone => e.typ.NONE?
    case VInt(_) => Unsigned(e.typ) || Signed(e.typ)
    case VStr(s) => (e.typ.STR? && '\0' !in s) || (e.typ.JSON? && IsDoc(s))
    case VArray(_) => IntArray(e.typ)
    case VReal(r) => (e.typ.FLOAT? || e.typ.DBL?) && T.IsPrimitive(printE(r))
    case VReals(rs) => e.typ.DBLARRAY? && forall i :: 0 <= i < |rs| ==> T.IsPrimitive(printE(rs[i]))
    case VPtr => false
  }

  lemma GoodShown(e: Entry, printE: PrintE)
    requires GoodEntry(e, printE)
    ensures Shown(e, printE)
  {
    hide T.IsPrimitive;
  }

  lemma EntryContents(e: Entry, k: nat, printE: PrintE)
    requires Shown(e, printE)
    ensures [Key(NameOr(e, k))] + Contents(EntryTree(e, printE)) == EntryTokens(e, k, printE)
  {
    hide TypeCode, Escape, Decimal, MemberContents, ValueMembers, ValueTokens;
    ValueContents(e, printE);
    ValueMember(e, printE);
    MemberContentsAt("t", T.JStr(TypeCode(e.typ)), ValueMembers(e, printE));
  }

  lemma ValueMember(e: Entry, printE: PrintE)
    requires Shown(e, printE)
    ensures T.MembersLen(ValueMembers(e, printE)) == if e.val.VNone? then 0 else 1
  {
  }

  lemma MemberContentsAt(key: string, v: T.Json, rest: T.Members)
    ensures MemberContents(Mem(key, v, rest)) == [Key(key)] + Contents(v) + MemberContents(rest)
  {
  }

  lemma ValueContents(e: Entry, printE: PrintE)
    requires Shown(e, printE)
    ensures MemberContents(ValueMembers(e, printE)) == ValueTokens(e, printE)
  {
    hide Escape, Decimal, DocOf, PrimElems, Numbers, Prims, R.Elements, T.IsPrimitive;
    match e.val
    case VArray(v) => ArrayContents(e, printE);
    case VReals(v) => ArrayContents(e, printE);
    case VInt(i) => OneContents(T.JPrim(Decimal(i)));
    case VReal(r) => OneContents(T.JPrim(printE(r)));
    case VStr(s) => OneContents(if e.typ.JSON? then DocOf(s) else T.JStr(Escape(s)));
    case _ =>
  }

  lemma ArrayContents(e: Entry, printE: PrintE)
    requires e.val.VArray? || e.val.VReals?
    ensures var texts := R.Elements(e, printE);
      MemberContents(Mem("v", T.JArr(PrimElems(texts)), END)) == ValueTokens(e, printE)
  {
    var texts := R.Elements(e, printE);
    PrimContents(texts);
    OneContents(T.JArr(PrimElems(texts)));
    assert Contents(T.JArr(PrimElems(texts))) == [Array(|texts|)] + Prims(texts);
    hide Decimal;
    if e.val.VArray? {
      var v := e.val.elems;
      assert Prims(texts) == seq(|v|, i requires 0 <= i < |v| => Prim(Decimal(v[i]), 0));
    } else {
      var rs := e.val.reals;
      assert Prims(texts) == seq(|rs|, i requires 0 <= i < |rs| => Prim(printE(rs[i]), 0));
    }
  }

  lemma OneContents(v: T.Json)
    ensures MemberContents(Mem("v", v, END)) == [Key("v")] + Contents(v)
  {
  }

  lemma {:induction false} EntriesContents(es: seq<Entry>, k: nat, printE: PrintE)
    requires k <= |es| && forall i :: 0 <= i < |es| ==> Shown(es[i], printE)
    ensures MemberContents(EntryMembers(es, k, printE)) == EntriesTokens(es, k, printE)
    ensures T.MembersLen(EntryMembers(es, k, printE)) == |es| - k
    decreases |es| - k
  {
    hide Shown, EntryTree, EntryTokens;
    if k < |es| {
      EntryContents(es[k], k, printE);
      EntriesContents(es, k + 1, printE);
    }
  }

  lemma FieldContents(key: string, i: int, rest: T.Members)
    ensures MemberContents(Field(key, i, rest)) == [Key(key), Num(i)] + MemberContents(rest)
    ensures T.MembersLen(Field(key, i, rest)) == 1 + T.MembersLen(rest)
  {
    hide Decimal;
  }

  ghost predicate AllShown(es: seq<Entry>, printE: PrintE) {
    forall i :: 0 <= i < |es| ==> Shown(es[i], printE)
  }

  lemma GoodAllShown(p: Packet, printE: PrintE)
    requires GoodPacket(p, printE)
    ensures AllShown(p.entries, printE)
  {
    hide GoodPacket, Shown, GoodEntry;
    P.GoodEntries(p, printE);
    forall i | 0 <= i < |p.entries| ensures Shown(p.entries[i], printE) {
      GoodShown(p.entries[i], printE);
    }
  }

  lemma TreeContents(p: Packet, printE: PrintE)
    requires AllShown(p.entries, printE)
    ensures Contents(Tree(p, printE)) == HeaderTokens(p) + EntriesTokens(p.entries, 0, printE)
  {
    hide EntriesTokens, EntryMembers, Field, Decimal, Signed32, MemberContents, T.MembersLen, Num, Shown;
    hide RoutingFields, Tree;
    EntriesContents(p.entries, 0, printE);
    var e := Mem("e", EntriesTree(p, printE), END);
    LastContents(EntriesTree(p, printE));
    RoutingContents(p, e);
    FrontContents(p, RoutingFields(p, e));
    TreeIs(p, printE);
    assert Contents(Tree(p, printE)) == HeaderTokens(p) + EntriesTokens(p.entries, 0, printE);
  }

  lemma TreeIs(p: Packet, printE: PrintE)
    ensures Tree(p, printE) == T.JObj(FrontFields(p, RoutingFields(p, Mem("e", EntriesTree(p, printE), END))))
  {
    hide Field;
  }

  ghost function FrontFields(p: Packet, rest: T.Members): T.Members {
    Field("v", 0, Field("s", p.source, Field("f", p.flags, Field("p", Signed32(p.vpkt), rest))))
  }

  lemma FrontContents(p: Packet, rest: T.Members)
    ensures MemberContents(FrontFields(p, rest)) ==
      [Key("v"), Num(0), Key("s"), Num(p.source), Key("f"), Num(p.flags), Key("p"), Num(Signed32(p.vpkt))]
      + MemberContents(rest)
    ensures T.MembersLen(FrontFields(p, rest)) == 4 + T.MembersLen(rest)
  {
    hide Field, Decimal, MemberContents, T.MembersLen, Num, Signed32;
    var y := Field("p", Signed32(p.vpkt), rest);
    var f := Field("f", p.flags, y);
    FieldContents("p", Signed32(p.vpkt), rest);
    FieldContents("f", p.flags, y);
    FieldContents("s", p.source, f);
    FieldContents("v", 0, Field("s", p.source, f));
  }

  /** The fields that say where the packet goes, and the number of its entries. */
  ghost function RoutingFields(p: Packet, e: T.Members): T.Members {
    Field("I", p.phidid, Field("O", p.ocid, Field("X", p.chidx, Field("c", |p.entries|, e))))
  }

  lemma RoutingContents(p: Packet, e: T.Members)
    ensures MemberContents(RoutingFields(p, e)) ==
      [Key("I"), Num(p.phidid), Key("O"), Num(p.ocid), Key("X"), Num(p.chidx), Key("c"), Num(|p.entries|)]
      + MemberContents(e)
    ensures T.MembersLen(RoutingFields(p, e)) == 4 + T.MembersLen(e)
  {
    hide Field, Decimal, MemberContents, T.MembersLen, Num;
    var c := Field("c", |p.entries|, e);
    var x := Field("X", p.chidx, c);
    var o := Field("O", p.ocid, x);
    FieldContents("c", |p.entries|, e);
    FieldContents("X", p.chidx, c);
    FieldContents("O", p.ocid, x);
    FieldContents("I", p.phidid, o);
  }

  lemma LastContents(v: T.Json)
    ensures MemberContents(Mem("e", v, END)) == [Key("e")] + Contents(v)
    ensures T.MembersLen(Mem("e", v, END)) == 1
  {
  }

  // It is a good document.

  lemma DecimalPrimitive(i: int)
    ensures T.IsPrimitive(Decimal(i))
  {
    var ds := Digits(if i < 0 then -i else i);
    var s := Decimal(i);
    forall j | 0 <= j < |s| ensures s[j] == '-' || '0' <= s[j] <= '9' {
      var d := if i >= 0 then s[j] else if j == 0 then '0' else ds[j - 1];
      assert i >= 0 || j > 0 ==> d in ds && s[j] == d;
    }
  }

  lemma {:induction false} PrimsGood(texts: seq<string>)
    requires forall i :: 0 <= i < |texts| ==> T.IsPrimitive(texts[i])
    ensures T.GoodElems(PrimElems(texts))
  {
    hide T.IsPrimitive;
    if texts != [] {
      PrimsGood(texts[1..]);
    }
  }

  lemma ElementsPrimitive(e: Entry, printE: PrintE)
    requires Shown(e, printE) && (e.val.VArray? || e.val.VReals?)
    ensures forall i :: 0 <= i < |R.Elements(e, printE)| ==> T.IsPrimitive(R.Elements(e, printE)[i])
  {
    hide T.IsPrimitive, Decimal;
    if e.val.VArray? {
      forall i | 0 <= i < |e.val.elems| ensures T.IsPrimitive(Decimal(e.val.elems[i])) {
        DecimalPrimitive(e.val.elems[i]);
      }
    }
  }

  lemma CodeQuotable(t: EntryType)
    ensures Quotable(TypeCode(t)) && Quotable("t")
  {
  }

  lemma StringGood(s: string)
    requires '\0' !in s
    ensures T.Good(T.JStr(Escape(s)))
  {
    EscapeRoundTrip(s);
  }

  lemma ValueGood(e: Entry, printE: PrintE)
    requires Shown(e, printE)
    ensures T.GoodMembers(ValueMembers(e, printE))
  {
    hide Decimal, Escape, T.IsPrimitive, DocOf, R.Elements;
    PlainQuotable("v");
    match e.val
    case VInt(i) => DecimalPrimitive(i);
    case VStr(s) => if !e.typ.JSON? { StringGood(s); }
    case VArray(_) => ArrayGood(e, printE);
    case VReals(_) => ArrayGood(e, printE);
    case _ =>
  }

  lemma ArrayGood(e: Entry, printE: PrintE)
    requires Shown(e, printE) && (e.val.VArray? || e.val.VReals?)
    ensures T.Good(T.JArr(PrimElems(R.Elements(e, printE))))
  {
    hide R.Elements, T.IsPrimitive;
    ElementsPrimitive(e, printE);
    PrimsGood(R.Elements(e, printE));
  }

  lemma EntryGood(e: Entry, printE: PrintE)
    requires Shown(e, printE)
    ensures T.Good(EntryTree(e, printE))
  {
    hide TypeCode, ValueMembers;
    CodeQuotable(e.typ);
    ValueGood(e, printE);
    assert T.Good(T.JStr(TypeCode(e.typ)));
  }

  lemma NameQuotable(e: Entry, k: nat)
    requires e.name.Some? ==> Quotable(e.name.value)
    ensures Quotable(NameOr(e, k))
  {
    if e.name.None? {
      DecimalPrimitive(k);
      forall j | 0 <= j < |Decimal(k)| ensures Decimal(k)[j] != '"' && Decimal(k)[j] != '\\' && Decimal(k)[j] != '\0' {
        assert Decimal(k)[j] in Digits(k);
      }
      PlainQuotable(Decimal(k));
    }
  }

  lemma {:induction false} EntriesGood(es: seq<Entry>, k: nat, printE: PrintE)
    requires k <= |es| && AllShown(es, printE) && NamesQuotable(es)
    ensures T.GoodMembers(EntryMembers(es, k, printE))
    decreases |es| - k
  {
    hide Shown, EntryTree, Quotable, NameOr;
    if k < |es| {
      EntryGood(es[k], printE);
      NameQuotable(es[k], k);
      EntriesGood(es, k + 1, printE);
    }
  }

  lemma FieldGood(c: char, i: int, rest: T.Members)
    requires T.GoodMembers(rest) && c != '"' && c != '\\' && c != '\0'
    ensures T.GoodMembers(Field([c], i, rest))
  {
    hide Decimal, T.IsPrimitive;
    PlainQuotable([c]);
    DecimalPrimitive(i);
  }

  lemma TreeGood(p: Packet, printE: PrintE)
    requires AllShown(p.entries, printE) && NamesQuotable(p.entries)
    ensures T.Good(Tree(p, printE)) && Tree(p, printE).JObj?
  {
    hide EntryMembers, Field, Signed32, Shown;
    EntriesGood(p.entries, 0, printE);
    PlainQuotable("e");
    var e := Mem("e", EntriesTree(p, printE), END);
    var c := Field("c", |p.entries|, e);
    var x := Field("X", p.chidx, c);
    var o := Field("O", p.ocid, x);
    var i := Field("I", p.phidid, o);
    var y := Field("p", Signed32(p.vpkt), i);
    var f := Field("f", p.flags, y);
    FieldGood('c', |p.entries|, e);
    FieldGood('X', p.chidx, c);
    FieldGood('O', p.ocid, x);
    FieldGood('I', p.phidid, o);
    FieldGood('p', Signed32(p.vpkt), i);
    FieldGood('f', p.flags, y);
    FieldGood('s', p.source, f);
    FieldGood('v', 0, Field("s", p.source, f));
  }

  // Its text is the rendered text.

  /** The elements from the n-th on. */
  lemma {:induction false} ElemsText(all: seq<string>, n: nat)
    requires n <= |all|
    ensures R.ElemsText(all, |all|) == R.ElemsText(all, n) + T.ElemsText(PrimElems(all[n..]))
    decreases |all| - n
  {
    if n < |all| {
      ElemsText(all, n + 1);
      assert all[n..][1..] == all[n + 1..];
      var comma, rest := if n + 1 < |all| then "," else "", T.ElemsText(PrimElems(all[n + 1..]));
      assert (R.ElemsText(all, n) + (all[n] + comma)) + rest == R.ElemsText(all, n) + (all[n] + (comma + rest));
    } else {
      assert all[n..] == [];
      assert R.ElemsText(all, n) + "" == R.ElemsText(all, n);
    }
  }

  lemma ArrayText(e: Entry, printE: PrintE)
    requires R.IsArray(e.typ)
    ensures R.ValueText(e, printE) == R.OpenText(e.typ) + (T.ElemsText(PrimElems(R.Elements(e, printE))) + "]}")
  {
    hide Decimal, TypeCode, R.Elements;
    var all := R.Elements(e, printE);
    ElemsText(all, 0);
    assert all[0..] == all;
    assert "" + T.ElemsText(PrimElems(all)) == T.ElemsText(PrimElems(all));
  }

  /** The text of the members behind "t". */
  lemma ValueText(e: Entry, printE: PrintE)
    requires Shown(e, printE)
    ensures R.ValueText(e, printE) == T.Text(EntryTree(e, printE))
  {
    hide Decimal, TypeCode, Escape, Wrapped, DocOf, T.IsPrimitive, R.Elements;
    match e.val
    case VArray(_) => ArrayText(e, printE); ArrayTree(e.typ, PrimElems(R.Elements(e, printE)));
    case VReals(_) => ArrayText(e, printE); ArrayTree(e.typ, PrimElems(R.Elements(e, printE)));
    case VInt(i) => ScalarTree(e.typ, T.JPrim(Decimal(i)), Decimal(i));
    case VReal(r) => ScalarTree(e.typ, T.JPrim(printE(r)), printE(r));
    case VStr(s) =>
      if e.typ.JSON? {
        ScalarTree(e.typ, DocOf(s), s);
      } else {
        ScalarTree(e.typ, T.JStr(Escape(s)), "\"" + Escape(s) + "\"");
      }
    case _ => EmptyTree(e.typ);
  }

  lemma EmptyTree(t: EntryType)
    ensures T.Text(Wrapped(t, END)) == "{\"t\":\"" + TypeCode(t) + "\"" + "}"
  {
    hide TypeCode;
  }

  lemma ScalarTree(t: EntryType, v: T.Json, x: string)
    requires T.Text(v) == x
    ensures T.Text(Wrapped(t, Mem("v", v, END))) == "{\"t\":\"" + TypeCode(t) + "\"" + (",\"v\":" + x + "}")
  {
    hide TypeCode, T.Text;
    var ms := Mem("v", v, END);
    BareText(Mem("t", T.JStr(TypeCode(t)), ms));
    MemberText("t", T.JStr(TypeCode(t)), ms);
    MemberText("v", v, END);
    CodeText(TypeCode(t));
    Flat(TypeCode(t), x);
  }

  lemma BareText(ms: T.Members)
    ensures T.Text(T.JObj(ms)) == "{" + (T.MembersText(ms) + "}")
  {
    hide T.MembersText;
  }

  /** A member without white space. */
  lemma MemberText(key: string, v: T.Json, rest: T.Members)
    ensures T.MembersText(Mem(key, v, rest)) ==
      T.KeyText(key) + (":" + (T.Text(v) + ((if rest.MNil? then "" else ",") + T.MembersText(rest))))
  {
    hide T.Text;
    var x := ":" + (T.Text(v) + ((if rest.MNil? then "" else ",") + T.MembersText(rest)));
    assert "" + x == x && "" + (T.KeyText(key) + x) == T.KeyText(key) + x;
  }

  lemma CodeText(code: string)
    ensures T.Text(T.JStr(code)) == T.KeyText(code)
  {
  }

  lemma Flat(code: string, x: string)
    ensures "{" + (T.KeyText("t")
                   + (":" + (T.KeyText(code) + ("," + (T.KeyText("v") + (":" + (x + ("" + ""))))))) + "}")
         == "{\"t\":\"" + code + "\"" + (",\"v\":" + x + "}")
  {
  }

  lemma ArrayTree(t: EntryType, es: T.Elems)
    ensures T.Text(Wrapped(t, Mem("v", T.JArr(es), END))) == R.OpenText(t) + (T.ElemsText(es) + "]}")
  {
    hide TypeCode, T.ElemsText, Wrapped;
    var x := T.ElemsText(es);
    ScalarTree(t, T.JArr(es), "[" + (x + "]"));
    assert "{\"t\":\"" + TypeCode(t) + "\"" + (",\"v\":" + ("[" + (x + "]")) + "}")
        == "{\"t\":\"" + TypeCode(t) + "\",\"v\":[" + (x + "]}");
  }

  /** The members from the k-th entry on, but for the line break in front. */
  ghost function TailText(es: seq<Entry>, k: nat, printE: PrintE): string
    requires k <= |es|
  {
    if k == |es| then ""
    else
      T.KeyText(NameOr(es[k], k)) + (":" + (T.Text(EntryTree(es[k], printE))
        + ((if k + 1 == |es| then "" else ",") + T.MembersText(EntryMembers(es, k + 1, printE)))))
  }

  lemma TailMembers(es: seq<Entry>, k: nat, printE: PrintE)
    requires k <= |es|
    ensures T.MembersText(EntryMembers(es, k, printE)) == "\n" + TailText(es, k, printE)
  {
    hide T.Text, EntryTree, NameOr;
    if k < |es| {
      var comma := if k + 1 == |es| then "" else ",";
      var x := ":" + (T.Text(EntryTree(es[k], printE)) + (comma + T.MembersText(EntryMembers(es, k + 1, printE))));
      assert "" + x == x;
    }
  }

  lemma TailStep(es: seq<Entry>, k: nat, printE: PrintE)
    requires k < |es|
    ensures TailText(es, k, printE) == T.KeyText(NameOr(es[k], k)) + (":" + (T.Text(EntryTree(es[k], printE))
              + ((if k + 1 == |es| then "" else ",") + ("\n" + TailText(es, k + 1, printE)))))
  {
    hide T.Text, EntryTree, NameOr, EntryMembers;
    TailMembers(es, k + 1, printE);
  }

  /** The entries from the k-th on. */
  lemma {:induction false} EntriesText(es: seq<Entry>, k: nat, printE: PrintE)
    requires k <= |es| && AllShown(es, printE)
    ensures R.EntriesText(es, |es|, printE) == R.EntriesText(es, k, printE) + TailText(es, k, printE)
    decreases |es| - k
  {
    hide Shown, EntryTree, NameOr, R.ValueText, T.Text, T.KeyText, TailText, R.EntriesText;
    if k < |es| {
      EntriesText(es, k + 1, printE);
      ValueText(es[k], printE);
      TailStep(es, k, printE);
      EntriesGrow(es, k, printE);
      var comma := if k + 1 < |es| then "," else "";
      EntryParts(R.EntriesText(es, k, printE), NameOr(es[k], k), R.ValueText(es[k], printE), comma,
                 TailText(es, k + 1, printE));
    } else {
      NoTail(es, printE);
      assert R.EntriesText(es, k, printE) + "" == R.EntriesText(es, k, printE);
    }
  }

  lemma EntriesGrow(es: seq<Entry>, k: nat, printE: PrintE)
    requires k < |es|
    ensures R.EntriesText(es, k + 1, printE) == R.EntriesText(es, k, printE)
      + ("\"" + NameOr(es[k], k) + "\":" + R.ValueText(es[k], printE) + ((if k + 1 < |es| then "," else "") + "\n"))
  {
    hide NameOr, R.ValueText;
  }

  lemma NoTail(es: seq<Entry>, printE: PrintE)
    ensures TailText(es, |es|, printE) == ""
  {
  }

  lemma EntryParts(before: string, name: string, value: string, comma: string, rest: string)
    ensures before + ("\"" + name + "\":" + value + (comma + "\n")) + rest
         == before + (T.KeyText(name) + (":" + (value + (comma + ("\n" + rest)))))
  {
    assert "\"" + name + "\":" == T.KeyText(name) + ":";
    assert before + (T.KeyText(name) + ":" + value + (comma + "\n")) + rest
        == before + (T.KeyText(name) + (":" + (value + (comma + ("\n" + rest)))));
  }

  /** One field of the header, in front of the rest. */
  lemma FieldText(before: string, c: char, i: int, rest: T.Members)
    requires !rest.MNil?
    ensures before + T.MembersText(Field([c], i, rest))
         == before + ("\"" + [c] + "\":") + Decimal(i) + "," + T.MembersText(rest)
  {
    hide T.MembersText, Decimal;
    var x := T.MembersText(rest);
    MemberText([c], T.JPrim(Decimal(i)), rest);
    assert "\"" + [c] + "\":" == T.KeyText([c]) + ":";
    assert before + (T.KeyText([c]) + (":" + (Decimal(i) + ("," + x))))
        == before + (T.KeyText([c]) + ":") + Decimal(i) + "," + x;
  }

  lemma Glue(before: string, c: char)
    ensures before + "," + ("\"" + [c] + "\":") == before + (",\"" + [c] + "\":")
  {
  }

  /** What stands in front of the value of "e". */
  function HeadText(p: Packet): string {
    "{\"v\":0,\"s\":" + Decimal(p.source) + ",\"f\":" + Decimal(p.flags) + ",\"p\":" + Decimal(Signed32(p.vpkt))
    + ",\"I\":" + Decimal(p.phidid) + ",\"O\":" + Decimal(p.ocid) + ",\"X\":" + Decimal(p.chidx)
    + ",\"c\":" + Decimal(|p.entries|) + ",\"e\":"
  }

  lemma TreeHead(p: Packet, printE: PrintE)
    ensures T.Text(Tree(p, printE)) == HeadText(p) + T.Text(EntriesTree(p, printE)) + "}"
  {
    hide Decimal, Signed32, EntriesTree, Field, T.MembersText, T.Text, HeadText;
    var e := Mem("e", EntriesTree(p, printE), END);
    var x := Field("X", p.chidx, Field("c", |p.entries|, e));
    var i := Field("I", p.phidid, Field("O", p.ocid, x));
    var y := Field("p", Signed32(p.vpkt), i);
    var s := Field("s", p.source, Field("f", p.flags, y));
    var b1 := "{" + ("\"" + ['v'] + "\":") + Decimal(0) + ",";
    var b4 := b1 + ("\"" + ['s'] + "\":") + Decimal(p.source) + "," + ("\"" + ['f'] + "\":") + Decimal(p.flags) + ","
      + ("\"" + ['p'] + "\":") + Decimal(Signed32(p.vpkt)) + ",";
    var b8 := b4 + ("\"" + ['I'] + "\":") + Decimal(p.phidid) + "," + ("\"" + ['O'] + "\":") + Decimal(p.ocid) + ","
      + ("\"" + ['X'] + "\":") + Decimal(p.chidx) + "," + ("\"" + ['c'] + "\":") + Decimal(|p.entries|) + ",";
    BareText(Field("v", 0, s));
    FieldText("{", 'v', 0, s);
    TypeFields(p, b1, i);
    IdFields(p, b4, e);
    var m := T.MembersText(Field("v", 0, s));
    assert "{" + (m + "}") == ("{" + m) + "}";
    LastText(b8, EntriesTree(p, printE));
    HeadParts(p, b1, b8 + ("\"" + ['e'] + "\":"));
  }

  lemma TypeFields(p: Packet, b: string, rest: T.Members)
    requires rest.MCons?
    ensures b + T.MembersText(Field("s", p.source, Field("f", p.flags, Field("p", Signed32(p.vpkt), rest)))) ==
      b + ("\"" + ['s'] + "\":") + Decimal(p.source) + "," + ("\"" + ['f'] + "\":") + Decimal(p.flags) + ","
      + ("\"" + ['p'] + "\":") + Decimal(Signed32(p.vpkt)) + "," + T.MembersText(rest)
  {
    hide Decimal, Signed32, Field, T.MembersText;
    var y := Field("p", Signed32(p.vpkt), rest);
    var b1 := b + ("\"" + ['s'] + "\":") + Decimal(p.source) + ",";
    var b2 := b1 + ("\"" + ['f'] + "\":") + Decimal(p.flags) + ",";
    FieldText(b, 's', p.source, Field("f", p.flags, y));
    FieldText(b1, 'f', p.flags, y);
    FieldText(b2, 'p', Signed32(p.vpkt), rest);
  }

  lemma IdFields(p: Packet, b: string, rest: T.Members)
    requires rest.MCons?
    ensures b + T.MembersText(RoutingFields(p, rest)) ==
      b + ("\"" + ['I'] + "\":") + Decimal(p.phidid) + "," + ("\"" + ['O'] + "\":") + Decimal(p.ocid) + ","
      + ("\"" + ['X'] + "\":") + Decimal(p.chidx) + "," + ("\"" + ['c'] + "\":") + Decimal(|p.entries|) + ","
      + T.MembersText(rest)
  {
    hide Decimal, Field, T.MembersText;
    var c := Field("c", |p.entries|, rest);
    var x := Field("X", p.chidx, c);
    var b1 := b + ("\"" + ['I'] + "\":") + Decimal(p.phidid) + ",";
    var b2 := b1 + ("\"" + ['O'] + "\":") + Decimal(p.ocid) + ",";
    var b3 := b2 + ("\"" + ['X'] + "\":") + Decimal(p.chidx) + ",";
    FieldText(b, 'I', p.phidid, Field("O", p.ocid, x));
    FieldText(b1, 'O', p.ocid, x);
    FieldText(b2, 'X', p.chidx, c);
    FieldText(b3, 'c', |p.entries|, rest);
  }

  lemma LastText(before: string, v: T.Json)
    ensures before + T.MembersText(Mem("e", v, END)) == before + ("\"" + ['e'] + "\":") + T.Text(v)
  {
    hide T.Text;
    MemberText("e", v, END);
    assert T.KeyText("e") + (":" + (T.Text(v) + ("" + ""))) == ("\"" + ['e'] + "\":") + T.Text(v);
    assert before + (("\"" + ['e'] + "\":") + T.Text(v)) == before + ("\"" + ['e'] + "\":") + T.Text(v);
  }

  lemma HeadParts(p: Packet, b1: string, b9: string)
    requires b1 == "{" + ("\"" + ['v'] + "\":") + Decimal(0) + ","
    requires b9 == b1 + ("\"" + ['s'] + "\":") + Decimal(p.source) + ","
      + ("\"" + ['f'] + "\":") + Decimal(p.flags) + ","
      + ("\"" + ['p'] + "\":") + Decimal(Signed32(p.vpkt)) + "," + ("\"" + ['I'] + "\":") + Decimal(p.phidid) + ","
      + ("\"" + ['O'] + "\":") + Decimal(p.ocid) + "," + ("\"" + ['X'] + "\":") + Decimal(p.chidx) + ","
      + ("\"" + ['c'] + "\":") + Decimal(|p.entries|) + "," + ("\"" + ['e'] + "\":")
    ensures b9 == HeadText(p)
  {
    hide Signed32;
    assert Decimal(0) == "0";
    hide Decimal;
    assert b1 + ("\"" + ['s'] + "\":") == "{\"v\":0,\"s\":";
    var t1 := "{\"v\":0,\"s\":" + Decimal(p.source);
    Glue(t1, 'f');
    var t2 := t1 + (",\"" + ['f'] + "\":") + Decimal(p.flags);
    Glue(t2, 'p');
    var t3 := t2 + (",\"" + ['p'] + "\":") + Decimal(Signed32(p.vpkt));
    Glue(t3, 'I');
    var t4 := t3 + (",\"" + ['I'] + "\":") + Decimal(p.phidid);
    Glue(t4, 'O');
    var t5 := t4 + (",\"" + ['O'] + "\":") + Decimal(p.ocid);
    Glue(t5, 'X');
    var t6 := t5 + (",\"" + ['X'] + "\":") + Decimal(p.chidx);
    Glue(t6, 'c');
    var t7 := t6 + (",\"" + ['c'] + "\":") + Decimal(|p.entries|);
    Glue(t7, 'e');
    Literals();
  }

  lemma Literals()
    ensures ",\"" + ['f'] + "\":" == ",\"f\":" && ",\"" + ['p'] + "\":" == ",\"p\":"
    ensures ",\"" + ['I'] + "\":" == ",\"I\":"
    ensures ",\"" + ['O'] + "\":" == ",\"O\":" && ",\"" + ['X'] + "\":" == ",\"X\":"
    ensures ",\"" + ['c'] + "\":" == ",\"c\":"
    ensures ",\"" + ['e'] + "\":" == ",\"e\":"
  {
  }

  /** The rendered text is the text of the packet's document. */
  lemma TreeText(p: Packet, printE: PrintE)
    requires AllShown(p.entries, printE)
    ensures T.Text(Tree(p, printE)) == R.BodyText(p, printE) + "}}"
  {
    hide Decimal, Signed32, AllShown, EntryMembers, R.EntriesText, HeadText, T.MembersText, TailText;
    TreeHead(p, printE);
    EntriesText(p.entries, 0, printE);
    TailMembers(p.entries, 0, printE);
    BareText(EntryMembers(p.entries, 0, printE));
    var m := TailText(p.entries, 0, printE);
    assert R.EntriesText(p.entries, |p.entries|, printE) == m by {
      NoEntries(p.entries, printE);
      assert "" + m == m;
    }
    HeaderHead(p);
    var h := HeadText(p);
    assert h + ("{" + (("\n" + m) + "}")) + "}" == h + "{\n" + m + "}}";
  }

  lemma NoEntries(es: seq<Entry>, printE: PrintE)
    ensures R.EntriesText(es, 0, printE) == ""
  {
  }

  lemma HeaderHead(p: Packet)
    ensures R.HeaderText(p) == HeadText(p) + "{\n"
  {
    hide Decimal, Signed32;
    var x := HeadText(p);
  }

  /** What the tokenizer finds in a rendered packet, whatever its entries but pointers: the header's nine fields, and
    * each entry's name, code and value, in order, the elements of an array one by one; or no room for that many. */
  lemma RenderedTokens(p: Packet, printE: PrintE, max: nat)
    requires AllShown(p.entries, printE) && NamesQuotable(p.entries)
    ensures var js := R.BodyText(p, printE) + "}}";
      var header := [
        Object(9), Str("v", 1), Prim("0", 0), Str("s", 1), Prim(Decimal(p.source), 0),
        Str("f", 1), Prim(Decimal(p.flags), 0), Str("p", 1), Prim(Decimal(Signed32(p.vpkt)), 0),
        Str("I", 1), Prim(Decimal(p.phidid), 0), Str("O", 1), Prim(Decimal(p.ocid), 0),
        Str("X", 1), Prim(Decimal(p.chidx), 0), Str("c", 1), Prim(Decimal(|p.entries|), 0),
        Str("e", 1), Object(|p.entries|)];
      match J.Tokenize(js, max)
      case Tokens(ts) => |ts| <= max && ViewAll(js, ts) == header + EntriesTokens(p.entries, 0, printE)
      case Refused(code) => code == J.NOMEM && |header + EntriesTokens(p.entries, 0, printE)| > max
      case Undefined => false
  {
    hide Tree, T.Text, T.Toks, J.Tokenize, Contents, R.BodyText, AllShown, EntriesTokens, NamesQuotable, Signed32;
    var js, ts := T.Text(Tree(p, printE)), T.Toks(Tree(p, printE), 0, -1, 0);
    TreeText(p, printE);
    TreeGood(p, printE);
    TreeContents(p, printE);
    T.DocumentTokens(Tree(p, printE), max);
    assert Stands(js, 0, js);
    ToksView(js, Tree(p, printE), 0, -1, 0);
    Zero();
    hide Decimal;
    assert |ts| == |ViewAll(js, ts)|;
  }

  lemma Zero()
    ensures Decimal(0) == "0"
  {
  }

  // ----- where inline JSON is -----

  /** The first token of a document has its text. */
  lemma {:induction false} RawStands(js: string, v: T.Json, i: nat, parent: int, pos: nat)
    requires Stands(js, pos, T.Text(v))
    ensures var t := T.Toks(v, i, parent, pos)[0];
      && Slice(js, t.start, t.end) == P.RawText(v) && t.end - t.start == |P.RawText(v)|
      && pos <= t.start <= t.end <= pos + |T.Text(v)|
  {
    hide Slice, Stands;
    match v
    case JStr(s) => KeySlice(js, pos, s);
    case JPad(pre, w, post) =>
      StandsSplit(js, pos, pre, T.Text(w) + post);
      StandsSplit(js, pos + |pre|, T.Text(w), post);
      RawStands(js, w, i, parent, pos + |pre|);
    case _ => SliceStands(js, pos, T.Text(v));
  }

  ghost predicate Within(ts: seq<J.JTok>, pos: int, end: int) {
    forall j :: 0 <= j < |ts| ==> pos <= ts[j].start < end
  }

  /** The tokens of a document start inside its text. */
  lemma {:induction false} ToksWithin(v: T.Json, i: nat, parent: int, pos: nat)
    requires T.Good(v)
    ensures Within(T.Toks(v, i, parent, pos), pos, pos + |T.Text(v)|)
    decreases v, 0
  {
    match v
    case JStr(_) =>
    case JPrim(_) =>
    case JArr(es) => ArrayWithin(es, i, parent, pos);
    case JObj(ms) => ObjectWithin(ms, i, parent, pos);
    case JPad(pre, w, _) => ToksWithin(w, i, parent, pos + |pre|);
  }

  lemma {:induction false} ArrayWithin(es: T.Elems, i: nat, parent: int, pos: nat)
    requires T.GoodElems(es)
    ensures Within(T.Toks(T.JArr(es), i, parent, pos), pos, pos + |T.Text(T.JArr(es))|)
    decreases es, 1
  {
    hide T.ElemToks, T.ElemsText, T.GoodElems;
    ElemToksWithin(es, i + 1, i, pos + 1);
  }

  lemma {:induction false} ObjectWithin(ms: T.Members, i: nat, parent: int, pos: nat)
    requires T.GoodMembers(ms)
    ensures Within(T.Toks(T.JObj(ms), i, parent, pos), pos, pos + |T.Text(T.JObj(ms))|)
    decreases ms, 1
  {
    hide T.MemberToks, T.MembersText, T.GoodMembers;
    MemberToksWithin(ms, i + 1, i, pos + 1);
  }

  lemma {:induction false} ElemToksWithin(es: T.Elems, i: nat, parent: int, pos: nat)
    requires T.GoodElems(es)
    ensures Within(T.ElemToks(es, i, parent, pos), pos, pos + |T.ElemsText(es)|)
    decreases es, 0
  {
    hide T.Toks, T.Text, T.Good;
    if es.ECons? {
      var ts := T.Toks(es.v, i, parent, pos);
      ToksWithin(es.v, i, parent, pos);
      ElemToksWithin(es.rest, i + |ts|, parent, pos + |T.Text(es.v)| + if es.rest.ENil? then 0 else 1);
    }
  }

  lemma {:induction false} MemberToksWithin(ms: T.Members, i: nat, parent: int, pos: nat)
    requires T.GoodMembers(ms)
    ensures Within(T.MemberToks(ms, i, parent, pos), pos, pos + |T.MembersText(ms)|)
    decreases ms, 0
  {
    hide T.Toks, T.Text, T.Good, T.MembersText;
    if ms.MCons? {
      var ts := T.Toks(ms.v, i + 1, i, T.ValueAt(ms, pos));
      ToksWithin(ms.v, i + 1, i, T.ValueAt(ms, pos));
      MemberToksWithin(ms.rest, i + 1 + |ts|, parent, T.BehindAt(ms, pos));
      T.BehindEnd(ms, pos);
    }
  }

  /** Unless it is empty, they start in front of the end of the first. */
  lemma {:induction false} ToksInFirst(v: T.Json, i: nat, parent: int, pos: nat)
    requires T.Good(v)
    ensures var ts := T.Toks(v, i, parent, pos); ts[0].start < ts[0].end ==> Within(ts, pos, ts[0].end)
  {
    ToksWithin(v, i, parent, pos);
    if v.JPad? {
      ToksInFirst(v.v, i, parent, pos + |v.pre|);
    }
  }

  lemma {:induction false} SpanIs(ts: seq<Seen>, d: nat, n: nat, end: int)
    requires d + n <= |ts| && (forall j :: d <= j < d + n ==> ts[j].start < end)
    requires d + n < |ts| ==> ts[d + n].start >= end
    ensures P.SpanFrom(ts, d, end) == if d + n < |ts| then Some(n) else None
    decreases n
  {
    if n > 0 {
      SpanIs(ts, d + 1, n - 1, end);
    }
  }

  /** The tokens of the inline JSON s stand at d among ts, and what follows them starts behind its text. */
  lemma JsonRanged(js: string, ts: seq<J.JTok>, d: nat, s: string, parent: int, pos: nat)
    requires IsDoc(s) && Stands(js, pos, s)
    requires var x := T.Toks(DocOf(s), d, parent, pos);
      d + |x| <= |ts| && ts[d..d + |x|] == x && (d + |x| < |ts| ==> ts[d + |x|].start >= pos + |s|)
    ensures P.Ranged(SeenAll(js, ts), d, s)
  {
    hide DocOf, T.Toks, Slice, Stands, P.SpanFrom, P.RawText, Contents;
    var v := DocOf(s);
    var x, seen := T.Toks(v, d, parent, pos), SeenAll(js, ts);
    RawStands(js, v, d, parent, pos);
    ToksView(js, v, d, parent, pos);
    ToksInFirst(v, d, parent, pos);
    assert ts[d] == ts[d..d + |x|][0];
    if x[0].start < x[0].end {
      forall j | d <= j < d + |x| ensures seen[j].start < x[0].end {
        assert ts[j] == ts[d..d + |x|][j - d];
      }
      SpanIs(seen, d, |x|, x[0].end);
    }
  }

  /** Where the inline JSON of an entry is, in its text and among its tokens. */
  lemma EntryDoc(js: string, e: Entry, s: string, i: nat, parent: int, pos: nat, printE: PrintE)
    returns (at: nat)
    requires e.typ.JSON? && e.val == VStr(s) && IsDoc(s) && Stands(js, pos, T.Text(EntryTree(e, printE)))
    ensures Stands(js, at, s) && at + |s| <= pos + |T.Text(EntryTree(e, printE))|
    ensures var ts, x := T.Toks(EntryTree(e, printE), i, parent, pos), T.Toks(DocOf(s), i + 4, i + 3, at);
      |ts| == 4 + |x| && ts[4..] == x
  {
    hide DocOf, TypeCode, Stands, T.ValueAt, T.BehindAt;
    var v, code := DocOf(s), T.JStr(TypeCode(e.typ));
    var vs := Mem("v", v, END);
    var ms := Mem("t", code, vs);
    BareText(ms);
    StandsSplit(js, pos, "{", T.MembersText(ms) + "}");
    StandsSplit(js, pos + 1, T.MembersText(ms), "}");
    T.MemberParts(js, pos + 1, ms);
    T.MemberParts(js, T.BehindAt(ms, pos + 1), vs);
    at := T.ValueAt(vs, T.BehindAt(ms, pos + 1));
    T.BehindEnd(ms, pos + 1);
    T.BehindEnd(vs, T.BehindAt(ms, pos + 1));
    ValueEnds(vs, T.BehindAt(ms, pos + 1));
    DocToks(e, s, i, parent, pos, printE);
  }

  lemma ValueEnds(ms: T.Members, pos: nat)
    requires ms.MCons?
    ensures T.ValueAt(ms, pos) + |T.Text(ms.v)| <= T.BehindAt(ms, pos)
  {
  }

  lemma DocToks(e: Entry, s: string, i: nat, parent: int, pos: nat, printE: PrintE)
    requires e.typ.JSON? && e.val == VStr(s) && IsDoc(s)
    ensures var vs := Mem("v", DocOf(s), END);
      var ms := Mem("t", T.JStr(TypeCode(e.typ)), vs);
      var at := T.ValueAt(vs, T.BehindAt(ms, pos + 1));
      var ts, x := T.Toks(EntryTree(e, printE), i, parent, pos), T.Toks(DocOf(s), i + 4, i + 3, at);
      |ts| == 4 + |x| && ts[4..] == x
  {
    hide DocOf, TypeCode, T.ValueAt, T.BehindAt, T.MemberToks, T.Text, T.Toks;
    var v, code := DocOf(s), T.JStr(TypeCode(e.typ));
    var vs := Mem("v", v, END);
    var ms := Mem("t", code, vs);
    var at1 := T.BehindAt(ms, pos + 1);
    OneToks(vs, i + 3, i, at1);
    TwoToks(ms, i + 1, i, pos + 1);
    var t := J.JTok(J.OBJECT, pos, pos + |T.Text(EntryTree(e, printE))|, T.MembersLen(ms), parent);
    ObjectToks(ms, i, parent, pos);
    Fourth(t, T.MemberToks(ms, i + 1, i, pos + 1), T.KeyTok(vs, i, at1, 1),
           T.Toks(v, i + 4, i + 3, T.ValueAt(vs, at1)));
  }

  lemma ObjectToks(ms: T.Members, i: nat, parent: int, pos: nat)
    ensures T.Toks(T.JObj(ms), i, parent, pos) ==
      [J.JTok(J.OBJECT, pos, pos + |T.Text(T.JObj(ms))|, T.MembersLen(ms), parent)]
      + T.MemberToks(ms, i + 1, i, pos + 1)
  {
    hide T.MemberToks, T.Text;
  }

  lemma Fourth<A>(t: A, ts: seq<A>, u: A, x: seq<A>)
    requires |ts| >= 2 && ts[2..] == [u] + x
    ensures |[t] + ts| == 4 + |x| && ([t] + ts)[4..] == x
  {
    assert ts[3..] == ts[2..][1..];
    assert ([t] + ts)[4..] == ts[3..];
  }

  lemma OneToks(ms: T.Members, i: nat, parent: int, pos: nat)
    requires ms.MCons? && ms.rest == END
    ensures T.MemberToks(ms, i, parent, pos)
         == [T.KeyTok(ms, parent, pos, 1)] + T.Toks(ms.v, i + 1, i, T.ValueAt(ms, pos))
  {
    hide T.Toks, T.ValueAt, T.BehindAt;
  }

  lemma TwoToks(ms: T.Members, i: nat, parent: int, pos: nat)
    requires ms.MCons? && (ms.v.JStr? || ms.v.JPrim?)
    ensures var ts := T.MemberToks(ms, i, parent, pos);
      |ts| >= 2 && ts[2..] == T.MemberToks(ms.rest, i + 2, parent, T.BehindAt(ms, pos))
  {
    hide T.ValueAt, T.BehindAt;
  }

  /** The entries' tokens from the k-th on are the last, and their inline JSON is where it says. */
  lemma {:induction false} EntriesRanged(js: string, ts: seq<J.JTok>, es: seq<Entry>, k: nat, i: nat, parent: int,
                                         pos: nat, printE: PrintE)
    requires k <= |es| && (forall n :: 0 <= n < |es| ==> GoodEntry(es[n], printE)) && NamesQuotable(es)
    requires i <= |ts| && ts[i..] == T.MemberToks(EntryMembers(es, k, printE), i, parent, pos)
    requires Stands(js, pos, T.MembersText(EntryMembers(es, k, printE)))
    ensures P.Ranges(SeenAll(js, ts), i, es, k, printE)
    decreases |es| - k
  {
    hide GoodEntry, Shown, EntryTree, EntryTokens, NameOr, Stands, T.MembersText, T.Toks, T.Text;
    hide P.Ranged, SeenAll, NamesQuotable;
    if k < |es| {
      var ms := EntryMembers(es, k, printE);
      var at, next := T.ValueAt(ms, pos), T.BehindAt(ms, pos);
      hide T.ValueAt, T.BehindAt;
      var vs := T.Toks(EntryTree(es[k], printE), i + 1, i, at);
      var rest := T.MemberToks(ms.rest, i + 1 + |vs|, parent, next);
      T.MemberParts(js, pos, ms);
      assert ts[i..] == [T.KeyTok(ms, parent, pos, 1)] + vs + rest;
      ThreeParts(ts, i, T.KeyTok(ms, parent, pos, 1), vs, rest);
      EntryLength(js, es[k], k, i + 1, i, at, printE);
      EntriesRanged(js, ts, es, k + 1, i + 1 + |vs|, parent, next, printE);
      if es[k].typ.JSON? && es[k].val.VStr? {
        forall n | 0 <= n < |es| ensures Shown(es[n], printE) {
          GoodShown(es[n], printE);
        }
        EntriesGood(es, k + 1, printE);
        MemberToksWithin(ms.rest, i + 1 + |vs|, parent, next);
        ValueEnds(ms, pos);
        EntryRanged(js, ts, es[k], i, at, next, printE);
      }
    }
  }

  lemma ThreeParts<A>(ts: seq<A>, i: nat, t: A, us: seq<A>, vs: seq<A>)
    requires i <= |ts| && ts[i..] == [t] + us + vs
    ensures i + 1 + |us| <= |ts| && ts[i + 1..i + 1 + |us|] == us && ts[i + 1 + |us|..] == vs
  {
    var all := ts[i..];
    assert |all| == 1 + |us| + |vs|;
    assert all[1..1 + |us|] == us && all[1 + |us|..] == vs;
    assert ts[i + 1..i + 1 + |us|] == all[1..1 + |us|];
    assert ts[i + 1 + |us|..] == all[1 + |us|..];
  }

  lemma EntryLength(js: string, e: Entry, k: nat, i: nat, parent: int, pos: nat, printE: PrintE)
    requires GoodEntry(e, printE) && Stands(js, pos, T.Text(EntryTree(e, printE)))
    ensures |EntryTokens(e, k, printE)| == 1 + |T.Toks(EntryTree(e, printE), i, parent, pos)|
  {
    hide EntryTree, ValueTokens, TypeCode, IsDoc, T.Toks, T.Text, Contents, Stands, NameOr;
    GoodShown(e, printE);
    hide GoodEntry, EntryTokens, Shown;
    EntryContents(e, k, printE);
    ToksView(js, EntryTree(e, printE), i, parent, pos);
  }

  lemma EntryRanged(js: string, ts: seq<J.JTok>, e: Entry, i: nat, at: nat, next: nat, printE: PrintE)
    requires GoodEntry(e, printE) && e.typ.JSON? && e.val.VStr? && Stands(js, at, T.Text(EntryTree(e, printE)))
    requires at + |T.Text(EntryTree(e, printE))| <= next
    requires var vs := T.Toks(EntryTree(e, printE), i + 1, i, at);
      i + 1 + |vs| <= |ts| && ts[i + 1..i + 1 + |vs|] == vs
      && (i + 1 + |vs| < |ts| ==> next <= ts[i + 1 + |vs|].start)
    ensures P.Ranged(SeenAll(js, ts), i + 5, e.val.s)
  {
    hide EntryTree, T.Toks, T.Text, P.Ranged, SeenAll, Stands, DocOf;
    var s, vs := e.val.s, T.Toks(EntryTree(e, printE), i + 1, i, at);
    var pos := EntryDoc(js, e, s, i + 1, i, at, printE);
    var x := T.Toks(DocOf(s), i + 5, i + 4, pos);
    assert ts[i + 5..i + 5 + |x|] == x by {
      assert ts[i + 5..i + 5 + |x|] == ts[i + 1..i + 1 + |vs|][4..];
    }
    JsonRanged(js, ts, i + 5, s, i + 4, pos);
  }

  lemma FieldPassed(js: string, ts: seq<J.JTok>, n: nat, key: string, i: int, rest: T.Members,
                    pos: nat) returns (next: nat)
    requires n <= |ts| && ts[n..] == T.MemberToks(Field(key, i, rest), n, 0, pos)
    requires Stands(js, pos, T.MembersText(Field(key, i, rest)))
    ensures n + 2 <= |ts| && ts[n + 2..] == T.MemberToks(rest, n + 2, 0, next) && Stands(js, next, T.MembersText(rest))
  {
    hide Stands, T.MembersText, T.MemberToks, Decimal;
    var ms := Field(key, i, rest);
    next := T.BehindAt(ms, pos);
    T.MemberParts(js, pos, ms);
    TwoToks(ms, n, 0, pos);
    assert ts[n + 2..] == ts[n..][2..];
  }

  /** The inline JSON of a rendered packet is where it says. */
  lemma TreeRanged(p: Packet, printE: PrintE)
    requires GoodPacket(p, printE) && NamesQuotable(p.entries)
    ensures P.Ranges(SeenAll(T.Text(Tree(p, printE)), T.Toks(Tree(p, printE), 0, -1, 0)), 19, p.entries, 0, printE)
  {
    hide Field, EntriesTree, Signed32, GoodPacket, Stands, T.Text, T.Toks, T.MembersText, T.MemberToks;
    hide P.Ranges, SeenAll, NamesQuotable;
    var js, ts := T.Text(Tree(p, printE)), T.Toks(Tree(p, printE), 0, -1, 0);
    var e := Mem("e", EntriesTree(p, printE), END);
    var c := Field("c", |p.entries|, e);
    var x := Field("X", p.chidx, c);
    var o := Field("O", p.ocid, x);
    var i := Field("I", p.phidid, o);
    var y := Field("p", Signed32(p.vpkt), i);
    var f := Field("f", p.flags, y);
    var s := Field("s", p.source, f);
    var ms := Field("v", 0, s);
    TreeInside(js, ms, -1, 0);
    var a1 := FieldPassed(js, ts, 1, "v", 0, s, 1);
    var a2 := FieldPassed(js, ts, 3, "s", p.source, f, a1);
    var a3 := FieldPassed(js, ts, 5, "f", p.flags, y, a2);
    var a4 := FieldPassed(js, ts, 7, "p", Signed32(p.vpkt), i, a3);
    var a5 := FieldPassed(js, ts, 9, "I", p.phidid, o, a4);
    var a6 := FieldPassed(js, ts, 11, "O", p.ocid, x, a5);
    var a7 := FieldPassed(js, ts, 13, "X", p.chidx, c, a6);
    var a8 := FieldPassed(js, ts, 15, "c", |p.entries|, e, a7);
    LastPassed(js, ts, p, a8, printE);
  }

  lemma TreeInside(js: string, ms: T.Members, parent: int, i: nat)
    requires js == T.Text(T.JObj(ms))
    ensures var ts := T.Toks(T.JObj(ms), i, parent, 0); |ts| >= 1 && ts[1..] == T.MemberToks(ms, i + 1, i, 1)
    ensures Stands(js, 1, T.MembersText(ms))
  {
    hide T.MembersText, T.MemberToks;
    assert Stands(js, 0, js);
    BareText(ms);
    StandsSplit(js, 0, "{", T.MembersText(ms) + "}");
    StandsSplit(js, 1, T.MembersText(ms), "}");
  }

  lemma LastPassed(js: string, ts: seq<J.JTok>, p: Packet, pos: nat, printE: PrintE)
    requires GoodPacket(p, printE) && NamesQuotable(p.entries) && 17 <= |ts|
    requires ts[17..] == T.MemberToks(Mem("e", EntriesTree(p, printE), END), 17, 0, pos)
    requires Stands(js, pos, T.MembersText(Mem("e", EntriesTree(p, printE), END)))
    ensures P.Ranges(SeenAll(js, ts), 19, p.entries, 0, printE)
  {
    hide EntryMembers, GoodPacket, Stands, T.MembersText, T.MemberToks, P.Ranges, SeenAll, NamesQuotable;
    var ms, es := Mem("e", EntriesTree(p, printE), END), EntryMembers(p.entries, 0, printE);
    var at := T.ValueAt(ms, pos);
    P.GoodEntries(p, printE);
    T.MemberParts(js, pos, ms);
    OneToks(ms, 17, 0, pos);
    BareText(es);
    StandsSplit(js, at, "{", T.MembersText(es) + "}");
    StandsSplit(js, at + 1, T.MembersText(es), "}");
    ObjToks(es, 18, 17, at);
    assert |ts[17..]| == 1 + |T.Toks(EntriesTree(p, printE), 18, 17, at)|;
    assert ts[18..] == T.Toks(EntriesTree(p, printE), 18, 17, at);
    assert ts[19..] == ts[18..][1..];
    EntriesRanged(js, ts, p.entries, 0, 19, 18, at + 1, printE);
  }

  lemma ObjToks(ms: T.Members, i: nat, parent: int, pos: nat)
    ensures T.Toks(T.JObj(ms), i, parent, pos)[1..] == T.MemberToks(ms, i + 1, i, pos + 1)
  {
    hide T.MemberToks, T.MembersText;
  }

  // ----- the round trip, text to text -----

  /** parseBridgePacketJSON. */
  function ParseText(js: string, readE: ReadE): P.Parsed {
    match J.Tokenize(js, BRIDGE_JSON_TOKENS)
    case Tokens(ts) => P.Parse(SeenAll(js, ts), readE)
    case Refused(_) => P.Failed
    case Undefined => P.NotCovered
  }

  /** What a packet comes back as: every entry named, 32-bit arrays cut down, floating point numbers as they are
    * printed and read, and inline JSON without white space around it and without its quotes. */
  ghost function Returned(p: Packet, printE: PrintE, readE: ReadE): Packet {
    p.(entries := P.ParsedEntries(p.entries, printE, readE))
  }

  /** If the names can stand between quotes: too many tokens, or a packet type that is printed as a negative number,
    * make the parse fail; and otherwise the packet comes back exactly if all its entries can. */
  lemma TextParsed(p: Packet, printE: PrintE, readE: ReadE)
    requires GoodPacket(p, printE) && NamesQuotable(p.entries)
    ensures var r := ParseText(R.BodyText(p, printE) + "}}", readE);
      if |RenderTokens(p, printE)| > 10000 || p.vpkt >= 0x8000_0000 then r == P.Failed
      else if P.AllCome(p.entries, 0, printE, readE) then r == P.Parsed(Returned(p, printE, readE))
      else !r.Parsed?
  {
    hide GoodPacket, Tree, T.Text, T.Toks, J.Tokenize, Contents, RenderTokens, P.Parse, R.BodyText, P.Ranges, P.AllCome;
    hide AllShown, EntriesTokens, HeaderTokens;
    var js, ts := T.Text(Tree(p, printE)), T.Toks(Tree(p, printE), 0, -1, 0);
    GoodAllShown(p, printE);
    TreeText(p, printE);
    TreeGood(p, printE);
    TreeContents(p, printE);
    RenderIs(p, printE);
    T.DocumentTokens(Tree(p, printE), BRIDGE_JSON_TOKENS);
    ToksView(js, Tree(p, printE), 0, -1, 0);
    assert |ts| == |ViewAll(js, ts)| == |RenderTokens(p, printE)|;
    SeenShows(js, ts);
    TreeRanged(p, printE);
    P.RoundTrip(p, SeenAll(js, ts), printE, readE);
  }

  lemma RenderIs(p: Packet, printE: PrintE)
    ensures RenderTokens(p, printE) == HeaderTokens(p) + EntriesTokens(p.entries, 0, printE)
  {
  }

  lemma SeenShows(js: string, ts: seq<J.JTok>)
    ensures P.Shows(SeenAll(js, ts), 0, ViewAll(js, ts))
  {
    hide View;
  }

  // A name that was not escaped does not come back, because the text of every string token can be quoted.

  lemma TextNames(js: string, readE: ReadE)
    ensures match ParseText(js, readE)
            case Parsed(q) => forall i :: 0 <= i < |q.entries| ==> P.NameRead(q.entries[i].name)
            case _ => true
  {
    hide Quotable, P.Parse, P.NameRead;
    match J.Tokenize(js, BRIDGE_JSON_TOKENS)
    case Tokens(ts) =>
      T.RunStrings(js, J.St([], -1), 0, BRIDGE_JSON_TOKENS);
      P.NamesRead(SeenAll(js, ts), readE);
    case _ =>
  }

  /** A packet comes back from its text, cut down in these ways, exactly when its names can stand between quotes as they
    * are, there is room for its tokens, its packet type is printed as a positive number, its inline JSON is below the
    * limit and not in the last entry, and its floating point numbers can be read as they are printed. */
  lemma TextRoundTrip(p: Packet, printE: PrintE, readE: ReadE)
    requires GoodPacket(p, printE)
    ensures ParseText(R.BodyText(p, printE) + "}}", readE) == P.Parsed(Returned(p, printE, readE)) <==>
      && NamesQuotable(p.entries) && |RenderTokens(p, printE)| <= 10000 && p.vpkt < 0x8000_0000
      && P.AllCome(p.entries, 0, printE, readE)
  {
    hide R.BodyText, RenderTokens, ParseText, Quotable, P.ParsedEntry, P.AllCome;
    if NamesQuotable(p.entries) {
      TextParsed(p, printE, readE);
    } else if ParseText(R.BodyText(p, printE) + "}}", readE) == P.Parsed(Returned(p, printE, readE)) {
      TextNames(R.BodyText(p, printE) + "}}", readE);
      NamesBack(p, printE, readE);
    }
  }

  lemma NamesBack(p: Packet, printE: PrintE, readE: ReadE)
    requires GoodPacket(p, printE)
    requires forall i :: 0 <= i < |p.entries| ==> P.NameRead(P.ParsedEntries(p.entries, printE, readE)[i].name)
    ensures NamesQuotable(p.entries)
  {
    hide Quotable;
    forall k | 0 <= k < |p.entries| && p.entries[k].name.Some? ensures Quotable(p.entries[k].name.value) {
      assert P.NameRead(P.ParsedEntries(p.entries, printE, readE)[k].name) && GoodEntry(p.entries[k], printE);
    }
  }

  /** parseBridgePacketJSON, with its tokens in an array. */
  method ParseBridgePacketJSON(js: string, readE: ReadE) returns (err: int, bp: BP.BridgePacket?)
    ensures match ParseText(js, readE)
            case Failed => err == P.UNEXPECTED && bp == null
            case NotCovered => err == P.OUTSIDE
            case Parsed(p) => err == P.OK && bp != null && bp.Valid() && bp.Upto(bp.entrycnt) == p
  {
    var tokens := new J.JTok[BRIDGE_JSON_TOKENS](_ => J.JTok(J.PRIMITIVE, 0, 0, 0, 0));
    var p := new J.Tokenizer(js, tokens);
    var res := p.Parse();
    if res == J.UNDEFINED {
      return P.OUTSIDE, null;
    } else if res < 0 {
      return P.UNEXPECTED, null;
    }
    err, bp := BP.ParseTokens(SeenAll(js, tokens[..p.toknext]), readE);
  }
}
