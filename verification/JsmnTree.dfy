/** The tokenizer is right about every JSON document, of any depth and with white space anywhere: its tokens are the
  * document's values in preorder, each with its text, its number of children and its parent. */
module JsmnTree {
  import opened Base
  import opened JsonText
  import opened Jsmn

  // ----- documents -----

  /** A document as it is laid out: s and key are the texts between the quotes, and pre, post, mid and gap are white
    * space, around a value, before and behind a key, and in front of a closing bracket. */
  datatype Json =
    | JStr(s: string)
    | JPrim(s: string)
    | JArr(es: Elems)
    | JObj(ms: Members)
    | JPad(pre: string, v: Json, post: string)
  datatype Elems = ENil(gap: string) | ECons(v: Json, rest: Elems)
  datatype Members = MNil(gap: string) | MCons(pre: string, key: string, mid: string, v: Json, rest: Members)

  function Text(v: Json): string {
    match v
    case JStr(s) => KeyText(s)
    case JPrim(s) => s
    case JArr(es) => "[" + (ElemsText(es) + "]")
    case JObj(ms) => "{" + (MembersText(ms) + "}")
    case JPad(pre, w, post) => pre + (Text(w) + post)
  }

  function ElemsText(es: Elems): string {
    match es
    case ENil(gap) => gap
    case ECons(v, rest) => Text(v) + ((if rest.ENil? then "" else ",") + ElemsText(rest))
  }

  function KeyText(key: string): string { "\"" + (key + "\"") }

  function MembersText(ms: Members): string {
    match ms
    case MNil(gap) => gap
    case MCons(pre, key, mid, v, rest) =>
      pre + (KeyText(key) + (mid + (":" + (Text(v) + ((if rest.MNil? then "" else ",") + MembersText(rest))))))
  }

  predicate IsPrimitive(s: string) {
    && s != "" && StartsPrimitive(s[0])
    && forall i :: 0 <= i < |s| ==> !EndsPrimitive(s[i]) && 32 <= s[i] as int < 127
  }

  predicate AllSpace(s: string) { forall i :: 0 <= i < |s| ==> IsSpace(s[i]) }

  predicate Good(v: Json) {
    match v
    case JStr(s) => Quotable(s)
    case JPrim(s) => IsPrimitive(s)
    case JArr(es) => GoodElems(es)
    case JObj(ms) => GoodMembers(ms)
    case JPad(pre, w, post) => AllSpace(pre) && Good(w) && AllSpace(post)
  }

  predicate GoodElems(es: Elems) {
    match es case ENil(gap) => AllSpace(gap) case ECons(v, rest) => Good(v) && GoodElems(rest)
  }

  predicate GoodMembers(ms: Members) {
    match ms
    case MNil(gap) => AllSpace(gap)
    case MCons(pre, key, mid, v, rest) =>
      AllSpace(pre) && Quotable(key) && AllSpace(mid) && Good(v) && GoodMembers(rest)
  }

  predicate IsContainer(v: Json) { if v.JPad? then IsContainer(v.v) else v.JArr? || v.JObj? }

  /** A primitive is the last thing in the text of v, so that something has to end it. */
  predicate EndsBare(v: Json) { if v.JPad? then v.post == "" && EndsBare(v.v) else v.JPrim? }

  // ----- their tokens -----

  function ElemsLen(es: Elems): nat { if es.ENil? then 0 else 1 + ElemsLen(es.rest) }
  function MembersLen(ms: Members): nat { if ms.MNil? then 0 else 1 + MembersLen(ms.rest) }

  /** The tokens of v, the first of which is the i-th of all, when the text of v starts at pos. */
  function Toks(v: Json, i: nat, parent: int, pos: nat): (r: seq<JTok>)
    ensures |r| > 0
  {
    match v
    case JStr(s) => [JTok(STRING, pos + 1, pos + 1 + |s|, 0, parent)]
    case JPrim(s) => [JTok(PRIMITIVE, pos, pos + |s|, 0, parent)]
    case JArr(es) => [JTok(ARRAY, pos, pos + |Text(v)|, ElemsLen(es), parent)] + ElemToks(es, i + 1, i, pos + 1)
    case JObj(ms) => [JTok(OBJECT, pos, pos + |Text(v)|, MembersLen(ms), parent)] + MemberToks(ms, i + 1, i, pos + 1)
    case JPad(pre, w, _) => Toks(w, i, parent, pos + |pre|)
  }

  function ElemToks(es: Elems, i: nat, parent: int, pos: nat): seq<JTok> {
    match es
    case ENil(_) => []
    case ECons(v, rest) =>
      var ts := Toks(v, i, parent, pos);
      ts + ElemToks(rest, i + |ts|, parent, pos + |Text(v)| + if rest.ENil? then 0 else 1)
  }

  /** Where the value of the first member starts, and what follows it. */
  function ValueAt(ms: Members, pos: nat): nat
    requires ms.MCons?
  {
    pos + |ms.pre| + |KeyText(ms.key)| + |ms.mid| + 1
  }

  function BehindAt(ms: Members, pos: nat): nat
    requires ms.MCons?
  {
    ValueAt(ms, pos) + |Text(ms.v)| + if ms.rest.MNil? then 0 else 1
  }

  function KeyTok(ms: Members, parent: int, pos: nat, size: int): JTok
    requires ms.MCons?
  {
    JTok(STRING, pos + |ms.pre| + 1, pos + |ms.pre| + 1 + |ms.key|, size, parent)
  }

  function MemberToks(ms: Members, i: nat, parent: int, pos: nat): seq<JTok> {
    match ms
    case MNil(_) => []
    case MCons(pre, key, mid, v, rest) =>
      var ts := Toks(v, i + 1, i, ValueAt(ms, pos));
      [KeyTok(ms, parent, pos, 1)] + ts + MemberToks(rest, i + 1 + |ts|, parent, BehindAt(ms, pos))
  }

  // ----- the tokens of a finished value -----

  ghost predicate Closed(ts: seq<JTok>, i: nat, low: int) {
    forall j :: 0 <= j < |ts| ==> !Open(ts[j]) && low <= ts[j].parent < i + j
  }

  lemma {:induction false} ToksClosed(v: Json, i: nat, parent: int, pos: nat)
    requires parent < i
    ensures Closed(Toks(v, i, parent, pos), i, parent)
  {
    match v
    case JStr(_) =>
    case JPrim(_) =>
    case JArr(es) => ElemToksClosed(es, i + 1, i, pos + 1);
    case JObj(ms) => MemberToksClosed(ms, i + 1, i, pos + 1);
    case JPad(pre, w, _) => ToksClosed(w, i, parent, pos + |pre|);
  }

  lemma {:induction false} ElemToksClosed(es: Elems, i: nat, parent: int, pos: nat)
    requires parent < i
    ensures Closed(ElemToks(es, i, parent, pos), i, parent)
  {
    hide Toks, Text;
    if es.ECons? {
      var ts := Toks(es.v, i, parent, pos);
      ToksClosed(es.v, i, parent, pos);
      ElemToksClosed(es.rest, i + |ts|, parent, pos + |Text(es.v)| + if es.rest.ENil? then 0 else 1);
    }
  }

  lemma {:induction false} MemberToksClosed(ms: Members, i: nat, parent: int, pos: nat)
    requires parent < i
    ensures Closed(MemberToks(ms, i, parent, pos), i, parent)
  {
    hide Toks, Text, ValueAt, BehindAt;
    if ms.MCons? {
      var ts := Toks(ms.v, i + 1, i, ValueAt(ms, pos));
      ToksClosed(ms.v, i + 1, i, ValueAt(ms, pos));
      MemberToksClosed(ms.rest, i + 1 + |ts|, parent, BehindAt(ms, pos));
    }
  }

  /** From the last token the way up leads to the container that is still open. */
  lemma {:induction false} InnermostIs(toks: seq<JTok>, c: nat, i: nat)
    requires c <= i < |toks| && Open(toks[c])
    requires forall j :: c < j < |toks| ==> !Open(toks[j]) && c <= toks[j].parent < j
    ensures Innermost(toks, i) == c
    decreases i
  {
    if i > c {
      InnermostIs(toks, c, toks[i].parent);
    }
  }

  // ----- where strings and primitives end -----

  lemma {:induction false} StringEnds(js: string, pos: nat, s: string)
    requires Quotable(s) && Stands(js, pos, s + "\"")
    ensures StringEnd(js, pos) == End(pos + |s|)
    decreases |s|
  {
    var x := s + "\"";
    StandsAt(js, pos, x, 0);
    if s != "" {
      var n := if s[0] != '\\' then 1 else if s[1] == 'u' then 6 else 2;
      StringStep(js, pos, s, n);
      assert x == s[..n] + (s[n..] + "\"");
      StandsSplit(js, pos, s[..n], s[n..] + "\"");
      StringEnds(js, pos + n, s[n..]);
    }
  }

  lemma StringStep(js: string, pos: nat, s: string, n: nat)
    requires s != "" && Quotable(s) && Stands(js, pos, s + "\"")
    requires n == if s[0] != '\\' then 1 else if s[1] == 'u' then 6 else 2
    ensures n <= |s| && Quotable(s[n..]) && StringEnd(js, pos) == StringEnd(js, pos + n)
  {
    assert forall j :: 0 <= j < |s| ==> (s + "\"")[j] == s[j];
    StandsAt(js, pos, s + "\"", 0);
    if s[0] == '\\' {
      StandsAt(js, pos, s + "\"", 1);
      if s[1] == 'u' {
        StandsAt(js, pos, s + "\"", 2);
        StandsAt(js, pos, s + "\"", 3);
        StandsAt(js, pos, s + "\"", 4);
        StandsAt(js, pos, s + "\"", 5);
        HexEnds(js, pos + 2);
      }
    }
  }

  lemma HexEnds(js: string, pos: nat)
    requires pos + 4 <= |js| && IsHex(js[pos]) && IsHex(js[pos + 1]) && IsHex(js[pos + 2]) && IsHex(js[pos + 3])
    ensures HexEnd(js, pos, 4) == End(pos + 4)
  {
    assert HexEnd(js, pos + 3, 1) == End(pos + 4);
    assert HexEnd(js, pos + 2, 2) == End(pos + 4);
  }

  lemma {:induction false} PrimitiveEnds(js: string, pos: nat, s: string)
    requires Stands(js, pos, s) && pos + |s| < |js| && EndsPrimitive(js[pos + |s|])
    requires forall i :: 0 <= i < |s| ==> !EndsPrimitive(s[i]) && 32 <= s[i] as int < 127
    ensures PrimitiveEnd(js, pos) == End(pos + |s|)
    decreases |s|
  {
    if s != "" {
      StandsAt(js, pos, s, 0);
      assert s == s[..1] + s[1..];
      StandsSplit(js, pos, s[..1], s[1..]);
      PrimitiveEnds(js, pos + 1, s[1..]);
    }
  }

  // ----- single steps -----

  /** The run goes on from st at pos as it does from st' at pos'. */
  ghost predicate Leads(js: string, st: St, pos: nat, st': St, pos': nat, max: nat) {
    Run(js, st, pos, max) == if |st'.toks| <= max then Run(js, st', pos', max) else Refused(NOMEM)
  }

  lemma LeadsOn(js: string, st: St, pos: nat, st1: St, pos1: nat, st2: St, pos2: nat, max: nat)
    requires Leads(js, st, pos, st1, pos1, max) && |st1.toks| <= |st2.toks|
    requires |st1.toks| <= max ==> Leads(js, st1, pos1, st2, pos2, max)
    ensures Leads(js, st, pos, st2, pos2, max)
  {
    hide Run;
  }

  /** The step at pos leads from st to st', which has one token more or as many. */
  lemma StepLeads(js: string, st: St, pos: nat, st': St, pos': nat, max: nat)
    requires More(js, pos) && |st.toks| <= |st'.toks|
    requires |st.toks| <= max && |st'.toks| <= max ==> Step(js, st, pos, max) == Go(st', pos')
    requires |st.toks| <= max && |st'.toks| > max ==> Step(js, st, pos, max) == Stop(Refused(NOMEM))
    requires |st.toks| <= max
    ensures Leads(js, st, pos, st', pos', max)
  {
    hide Step;
  }

  /** st' is st with n more children of its super, then ts, and super s. */
  function Grown(st: St, n: int, ts: seq<JTok>, s: int): St { St(BumpBy(st.toks, st.super, n) + ts, s) }

  function BumpBy(toks: seq<JTok>, i: int, n: int): (r: seq<JTok>)
    ensures |r| == |toks|
  {
    if 0 <= i < |toks| then toks[i := toks[i].(size := toks[i].size + n)] else toks
  }

  lemma Space(js: string, st: St, pos: nat, max: nat)
    requires pos < |js| && IsSpace(js[pos]) && |st.toks| <= max
    ensures Leads(js, st, pos, st, pos + 1, max)
  {
    StepLeads(js, st, pos, st, pos + 1, max);
  }

  lemma {:induction false} Spaces(js: string, st: St, pos: nat, max: nat, s: string)
    requires Stands(js, pos, s) && AllSpace(s) && |st.toks| <= max
    ensures Leads(js, st, pos, st, pos + |s|, max)
    decreases |s|
  {
    hide Run, Step;
    if s == "" {
    } else {
      StandsAt(js, pos, s, 0);
      Space(js, st, pos, max);
      assert s == s[..1] + s[1..];
      StandsSplit(js, pos, s[..1], s[1..]);
      Spaces(js, st, pos + 1, max, s[1..]);
      LeadsOn(js, st, pos, st, pos + 1, st, pos + |s|, max);
    }
  }

  lemma Colon(js: string, st: St, pos: nat, max: nat)
    requires pos < |js| && js[pos] == ':' && |st.toks| <= max
    ensures Leads(js, st, pos, st.(super := |st.toks| - 1), pos + 1, max)
  {
    StepLeads(js, st, pos, st.(super := |st.toks| - 1), pos + 1, max);
  }

  lemma Comma(js: string, st: St, pos: nat, max: nat)
    requires pos < |js| && js[pos] == ',' && |st.toks| <= max && 0 <= st.super < |st.toks|
    ensures var t := st.toks[st.super];
      Leads(js, st, pos, if t.typ == ARRAY || t.typ == OBJECT then st else st.(super := t.parent), pos + 1, max)
  {
    var t := st.toks[st.super];
    StepLeads(js, st, pos, if t.typ == ARRAY || t.typ == OBJECT then st else st.(super := t.parent), pos + 1, max);
  }

  lemma Quoted(js: string, st: St, pos: nat, max: nat, s: string)
    requires Stands(js, pos, KeyText(s)) && Quotable(s) && |st.toks| <= max
    ensures Leads(js, st, pos, Grown(st, 1, [JTok(STRING, pos + 1, pos + 1 + |s|, 0, st.super)], st.super),
                  pos + |s| + 2, max)
  {
    hide StringEnd, Stands, Quotable, Leads;
    StandsAt(js, pos, KeyText(s), 0);
    StandsSplit(js, pos, "\"", s + "\"");
    StringEnds(js, pos + 1, s);
    QuotedStep(js, st, pos, max, pos + 1 + |s|);
  }

  lemma QuotedStep(js: string, st: St, pos: nat, max: nat, at: nat)
    requires pos < |js| && js[pos] == '"' && StringEnd(js, pos + 1) == End(at) && |st.toks| <= max
    ensures Leads(js, st, pos, Grown(st, 1, [JTok(STRING, pos + 1, at, 0, st.super)], st.super), at + 1, max)
  {
    hide StringEnd;
    StepLeads(js, st, pos, Grown(st, 1, [JTok(STRING, pos + 1, at, 0, st.super)], st.super), at + 1, max);
  }

  lemma Primitive(js: string, st: St, pos: nat, max: nat, s: string)
    requires Stands(js, pos, s) && IsPrimitive(s) && |st.toks| <= max
    requires pos + |s| < |js| && EndsPrimitive(js[pos + |s|])
    requires 0 <= st.super < |st.toks| && TakesValue(st.toks[st.super])
    ensures Leads(js, st, pos, Grown(st, 1, [JTok(PRIMITIVE, pos, pos + |s|, 0, st.super)], st.super), pos + |s|, max)
  {
    hide PrimitiveEnd;
    StandsAt(js, pos, s, 0);
    PrimitiveEnds(js, pos, s);
    var st' := Grown(st, 1, [JTok(PRIMITIVE, pos, pos + |s|, 0, st.super)], st.super);
    StepLeads(js, st, pos, st', pos + |s|, max);
  }

  lemma Opening(js: string, st: St, pos: nat, max: nat, typ: JType)
    requires pos < |js| && |st.toks| <= max
    requires (typ == OBJECT && js[pos] == '{') || (typ == ARRAY && js[pos] == '[')
    ensures Leads(js, st, pos, Grown(st, 1, [JTok(typ, pos, -1, 0, st.super)], |st.toks|), pos + 1, max)
  {
    StepLeads(js, st, pos, Grown(st, 1, [JTok(typ, pos, -1, 0, st.super)], |st.toks|), pos + 1, max);
  }

  lemma Closing(js: string, st: St, pos: nat, max: nat, before: seq<JTok>, o: JTok, inside: seq<JTok>)
    requires pos < |js| && |st.toks| <= max && st.toks == before + [o] + inside
    requires (o.typ == OBJECT && js[pos] == '}') || (o.typ == ARRAY && js[pos] == ']')
    requires Open(o) && Closed(inside, |before| + 1, |before|)
    ensures Leads(js, st, pos, St(before + [o.(end := pos + 1)] + inside, o.parent), pos + 1, max)
  {
    hide Innermost;
    var c := |before|;
    forall j | c < j < |st.toks| ensures !Open(st.toks[j]) && c <= st.toks[j].parent < j {
      assert st.toks[j] == inside[j - c - 1];
    }
    InnermostIs(st.toks, c, |st.toks| - 1);
    assert st.toks[c := o.(end := pos + 1)] == before + [o.(end := pos + 1)] + inside;
    StepLeads(js, st, pos, St(before + [o.(end := pos + 1)] + inside, o.parent), pos + 1, max);
  }

  // ----- whole values -----

  predicate TakesValue(t: JTok) { t.typ == ARRAY || (t.typ == STRING && t.size == 0) }

  /** A value may come next. */
  predicate Expects(st: St, v: Json) {
    if 0 <= st.super < |st.toks| then TakesValue(st.toks[st.super]) else st.super == -1 && IsContainer(v)
  }

  predicate Follows(js: string, pos: nat) { pos < |js| && EndsPrimitive(js[pos]) }

  function After(st: St, v: Json, pos: nat): St { Grown(st, 1, Toks(v, |st.toks|, st.super, pos), st.super) }

  lemma {:induction false} ValueLeads(js: string, st: St, pos: nat, max: nat, v: Json)
    requires Good(v) && Stands(js, pos, Text(v)) && |st.toks| <= max && Expects(st, v)
    requires EndsBare(v) ==> Follows(js, pos + |Text(v)|)
    ensures Leads(js, st, pos, After(st, v, pos), pos + |Text(v)|, max)
    decreases v, 1
  {
    hide Leads, Quotable, Stands;
    match v
    case JStr(s) => Quoted(js, st, pos, max, s);
    case JPrim(s) => Primitive(js, st, pos, max, s);
    case JArr(es) => ArrayLeads(js, st, pos, max, v);
    case JObj(_) => ObjectLeads(js, st, pos, max, v);
    case JPad(_, _, _) => PadLeads(js, st, pos, max, v);
  }

  lemma {:induction false} PadLeads(js: string, st: St, pos: nat, max: nat, v: Json)
    requires v.JPad? && Good(v) && Stands(js, pos, Text(v)) && |st.toks| <= max && Expects(st, v)
    requires EndsBare(v) ==> Follows(js, pos + |Text(v)|)
    ensures Leads(js, st, pos, After(st, v, pos), pos + |Text(v)|, max)
    decreases v, 0
  {
    hide Leads, Stands;
    var at := pos + |v.pre|;
    var at1 := at + |Text(v.v)|;
    StandsSplit(js, pos, v.pre, Text(v.v) + v.post);
    StandsSplit(js, at, Text(v.v), v.post);
    if v.post != "" {
      StandsAt(js, at1, v.post, 0);
      StandsWithin(js, at1, v.post);
    }
    Spaces(js, st, pos, max, v.pre);
    ValueLeads(js, st, at, max, v.v);
    var st1 := After(st, v, pos);
    LeadsOn(js, st, pos, st, at, st1, at1, max);
    if |st1.toks| <= max {
      Spaces(js, st1, at1, max, v.post);
    }
    LeadsOn(js, st, pos, st1, at1, st1, at1 + |v.post|, max);
  }

  /** The container token that opens at pos and the state inside it. */
  function Inside(st: St, pos: nat, typ: JType): St { Grown(st, 1, [JTok(typ, pos, -1, 0, st.super)], |st.toks|) }

  lemma {:induction false} ArrayLeads(js: string, st: St, pos: nat, max: nat, v: Json)
    requires v.JArr? && Good(v) && Stands(js, pos, Text(v)) && |st.toks| <= max && Expects(st, v)
    ensures Leads(js, st, pos, After(st, v, pos), pos + |Text(v)|, max)
    decreases v, 0
  {
    hide Leads, Stands, ElemsText, ElemToks, Expects;
    var es, x := v.es, ElemsText(v.es);
    StandsAt(js, pos, Text(v), 0);
    StandsSplit(js, pos, "[", x + "]");
    StandsSplit(js, pos + 1, x, "]");
    StandsAt(js, pos + 1 + |x|, "]", 0);
    var st1 := Inside(st, pos, ARRAY);
    Opening(js, st, pos, max, ARRAY);
    var inside := ElemToks(es, |st1.toks|, |st.toks|, pos + 1);
    var st2 := Grown(st1, ElemsLen(es), inside, |st.toks|);
    if |st1.toks| <= max {
      ElemsLead(js, st1, pos + 1, max, es);
    }
    LeadsOn(js, st, pos, st1, pos + 1, st2, pos + 1 + |x|, max);
    var before, o := BumpBy(st.toks, st.super, 1), JTok(ARRAY, pos, -1, ElemsLen(es), st.super);
    assert st2.toks == before + [o] + inside;
    ElemToksClosed(es, |st1.toks|, |st.toks|, pos + 1);
    if |st2.toks| <= max {
      Closing(js, st2, pos + 1 + |x|, max, before, o, inside);
    }
    assert St(before + [o.(end := pos + 1 + |x| + 1)] + inside, st.super) == After(st, v, pos) by {
      assert before + [o.(end := pos + 1 + |x| + 1)] + inside == before + ([o.(end := pos + 1 + |x| + 1)] + inside);
    }
    LeadsOn(js, st, pos, st2, pos + 1 + |x|, After(st, v, pos), pos + |Text(v)|, max);
  }

  lemma {:induction false} ElemsLead(js: string, st: St, pos: nat, max: nat, es: Elems)
    requires GoodElems(es) && Stands(js, pos, ElemsText(es)) && |st.toks| <= max
    requires 0 <= st.super < |st.toks| && st.toks[st.super].typ == ARRAY
    requires pos + |ElemsText(es)| < |js| && js[pos + |ElemsText(es)|] == ']'
    ensures Leads(js, st, pos, Grown(st, ElemsLen(es), ElemToks(es, |st.toks|, st.super, pos), st.super),
                  pos + |ElemsText(es)|, max)
    decreases es, 1
  {
    hide Leads, Stands, Text, Toks;
    match es
    case ENil(gap) =>
      assert Grown(st, 0, [], st.super) == st;
      Spaces(js, st, pos, max, gap);
    case ECons(v, rest) =>
      var st1, pos1 := After(st, v, pos), pos + |Text(v)| + if rest.ENil? then 0 else 1;
      FirstLeads(js, st, pos, max, v, rest);
      var st2 := Grown(st1, ElemsLen(rest), ElemToks(rest, |st1.toks|, st1.super, pos1), st1.super);
      if |st1.toks| <= max {
        ElemsLead(js, st1, pos1, max, rest);
      }
      LeadsOn(js, st, pos, st1, pos1, st2, pos + |ElemsText(es)|, max);
      GrownTwice(st, Toks(v, |st.toks|, st.super, pos), ElemsLen(rest), ElemToks(rest, |st1.toks|, st1.super, pos1),
                 st.super);
  }

  lemma GrownTwice(st: St, ts: seq<JTok>, n: int, us: seq<JTok>, s: int)
    requires 0 <= st.super < |st.toks|
    ensures Grown(Grown(st, 1, ts, st.super), n, us, s) == Grown(st, n + 1, ts + us, s)
  {
    assert BumpBy(BumpBy(st.toks, st.super, 1) + ts, st.super, n) == BumpBy(st.toks, st.super, n + 1) + ts;
    assert BumpBy(st.toks, st.super, n + 1) + ts + us == BumpBy(st.toks, st.super, n + 1) + (ts + us);
  }

  /** A closing bracket, or the white space in front of one, ends a primitive. */
  lemma GapFollows(js: string, pos: nat, gap: string)
    requires AllSpace(gap) && Stands(js, pos, gap) && Follows(js, pos + |gap|)
    ensures Follows(js, pos)
  {
    hide Stands;
    if gap != "" {
      StandsAt(js, pos, gap, 0);
      StandsWithin(js, pos, gap);
    }
  }

  /** The first element and the comma behind it. */
  lemma {:induction false} FirstLeads(js: string, st: St, pos: nat, max: nat, v: Json, rest: Elems)
    requires Good(v) && GoodElems(rest) && Stands(js, pos, ElemsText(ECons(v, rest))) && |st.toks| <= max
    requires 0 <= st.super < |st.toks| && st.toks[st.super].typ == ARRAY
    requires rest.ENil? ==> Follows(js, pos + |Text(v)| + |rest.gap|)
    ensures var pos1 := pos + |Text(v)| + if rest.ENil? then 0 else 1;
      Leads(js, st, pos, After(st, v, pos), pos1, max) && Stands(js, pos1, ElemsText(rest))
    decreases v, 2
  {
    hide Leads, Stands, Text, Toks;
    var comma := if rest.ENil? then "" else ",";
    StandsSplit(js, pos, Text(v), comma + ElemsText(rest));
    StandsSplit(js, pos + |Text(v)|, comma, ElemsText(rest));
    if rest.ENil? {
      GapFollows(js, pos + |Text(v)|, rest.gap);
    } else {
      StandsAt(js, pos + |Text(v)|, comma, 0);
      StandsWithin(js, pos + |Text(v)|, comma);
    }
    ValueLeads(js, st, pos, max, v);
    var st1 := After(st, v, pos);
    if rest.ECons? {
      if |st1.toks| <= max {
        Comma(js, st1, pos + |Text(v)|, max);
      }
      LeadsOn(js, st, pos, st1, pos + |Text(v)|, st1, pos + |Text(v)| + 1, max);
    }
  }

  // ----- objects -----

  /** The last key, or the object itself: what the state's super is behind the members. */
  function LastKey(ms: Members, i: nat, c: int, pos: nat): int {
    if ms.MNil? then c
    else if ms.rest.MNil? then i
    else LastKey(ms.rest, i + 1 + |Toks(ms.v, i + 1, i, ValueAt(ms, pos))|, c, BehindAt(ms, pos))
  }

  lemma {:induction false} ObjectLeads(js: string, st: St, pos: nat, max: nat, v: Json)
    requires v.JObj? && Good(v) && Stands(js, pos, Text(v)) && |st.toks| <= max && Expects(st, v)
    ensures Leads(js, st, pos, After(st, v, pos), pos + |Text(v)|, max)
    decreases v, 0
  {
    hide Leads, Stands, MembersText, MemberToks, Expects, LastKey;
    var ms, x := v.ms, MembersText(v.ms);
    StandsAt(js, pos, Text(v), 0);
    StandsSplit(js, pos, "{", x + "}");
    StandsSplit(js, pos + 1, x, "}");
    StandsAt(js, pos + 1 + |x|, "}", 0);
    var st1 := Inside(st, pos, OBJECT);
    Opening(js, st, pos, max, OBJECT);
    var inside := MemberToks(ms, |st1.toks|, |st.toks|, pos + 1);
    var st2 := Grown(st1, MembersLen(ms), inside, LastKey(ms, |st1.toks|, |st.toks|, pos + 1));
    if |st1.toks| <= max {
      MembersLead(js, st1, pos + 1, max, ms);
    }
    LeadsOn(js, st, pos, st1, pos + 1, st2, pos + 1 + |x|, max);
    var before, o := BumpBy(st.toks, st.super, 1), JTok(OBJECT, pos, -1, MembersLen(ms), st.super);
    assert st2.toks == before + [o] + inside;
    MemberToksClosed(ms, |st1.toks|, |st.toks|, pos + 1);
    if |st2.toks| <= max {
      Closing(js, st2, pos + 1 + |x|, max, before, o, inside);
    }
    assert St(before + [o.(end := pos + 1 + |x| + 1)] + inside, st.super) == After(st, v, pos) by {
      assert before + [o.(end := pos + 1 + |x| + 1)] + inside == before + ([o.(end := pos + 1 + |x| + 1)] + inside);
    }
    LeadsOn(js, st, pos, st2, pos + 1 + |x|, After(st, v, pos), pos + |Text(v)|, max);
  }

  lemma {:induction false} MembersLead(js: string, st: St, pos: nat, max: nat, ms: Members)
    requires GoodMembers(ms) && Stands(js, pos, MembersText(ms)) && |st.toks| <= max
    requires 0 <= st.super < |st.toks| && st.toks[st.super].typ == OBJECT
    requires pos + |MembersText(ms)| < |js| && js[pos + |MembersText(ms)|] == '}'
    ensures Leads(js, st, pos,
                  Grown(st, MembersLen(ms), MemberToks(ms, |st.toks|, st.super, pos),
                        LastKey(ms, |st.toks|, st.super, pos)),
                  pos + |MembersText(ms)|, max)
    decreases ms, 1
  {
    hide Leads, Stands, Text, Toks;
    if ms.MNil? {
      assert Grown(st, 0, [], st.super) == st;
      Spaces(js, st, pos, max, ms.gap);
    } else {
      hide ValueAt, MemberHead;
      var rest, st1, pos1 := ms.rest, Behind(st, ms, pos), BehindAt(ms, pos);
      var us, n := MemberToks(rest, |st1.toks|, st.super, pos1), MembersLen(rest);
      var last := LastKey(ms, |st.toks|, st.super, pos);
      var st2, at2 := Grown(st, MembersLen(ms), MemberHead(st, ms, pos) + us, last), pos + |MembersText(ms)|;
      MemberLeads(js, st, pos, max, ms);
      BehindEnd(ms, pos);
      HeadLength(st, ms, pos);
      if rest.MCons? {
        if |st1.toks| <= max {
          MembersLead(js, st1, pos1, max, rest);
        }
        GrownTwice(st, MemberHead(st, ms, pos), n, us, last);
      } else {
        assert MemberHead(st, ms, pos) + [] == MemberHead(st, ms, pos);
        if |st1.toks| <= max {
          Spaces(js, st1, pos1, max, rest.gap);
        }
      }
      LeadsOn(js, st, pos, st1, pos1, st2, at2, max);
      HeadToks(st, ms, pos);
    }
  }

  function MemberHead(st: St, ms: Members, pos: nat): seq<JTok>
    requires ms.MCons?
  {
    [KeyTok(ms, st.super, pos, 1)] + Toks(ms.v, |st.toks| + 1, |st.toks|, ValueAt(ms, pos))
  }

  lemma HeadLength(st: St, ms: Members, pos: nat)
    requires ms.MCons?
    ensures |MemberHead(st, ms, pos)| == 1 + |Toks(ms.v, |st.toks| + 1, |st.toks|, ValueAt(ms, pos))|
  {
  }

  lemma HeadToks(st: St, ms: Members, pos: nat)
    requires ms.MCons?
    ensures var rest := MemberToks(ms.rest, |st.toks| + |MemberHead(st, ms, pos)|, st.super, BehindAt(ms, pos));
      MemberToks(ms, |st.toks|, st.super, pos) == MemberHead(st, ms, pos) + rest
  {
    hide Toks, Text, ValueAt, BehindAt;
  }

  lemma BehindEnd(ms: Members, pos: nat)
    requires ms.MCons?
    ensures BehindAt(ms, pos) + |MembersText(ms.rest)| == pos + |MembersText(ms)|
  {
    hide Text;
  }

  /** Behind the first member. */
  function Behind(st: St, ms: Members, pos: nat): St
    requires ms.MCons?
  {
    Grown(st, 1, MemberHead(st, ms, pos), if ms.rest.MNil? then |st.toks| else st.super)
  }

  lemma {:induction false} MemberLeads(js: string, st: St, pos: nat, max: nat, ms: Members)
    requires ms.MCons? && GoodMembers(ms) && Stands(js, pos, MembersText(ms)) && |st.toks| <= max
    requires 0 <= st.super < |st.toks| && st.toks[st.super].typ == OBJECT
    requires pos + |MembersText(ms)| < |js| && js[pos + |MembersText(ms)|] == '}'
    ensures Leads(js, st, pos, Behind(st, ms, pos), BehindAt(ms, pos), max)
    ensures Stands(js, BehindAt(ms, pos), MembersText(ms.rest))
    decreases ms, 0
  {
    hide Leads, Stands, Text, Toks, MembersText, ValueAt;
    var at := ValueAt(ms, pos);
    var at1 := at + |Text(ms.v)|;
    MemberParts(js, pos, ms);
    ValueFollowed(js, pos, ms);
    var st1 := AtColon(st, ms, pos);
    var st2 := After(st1, ms.v, at);
    KeyLeads(js, st, pos, max, ms);
    if |st1.toks| <= max {
      ValueLeads(js, st1, at, max, ms.v);
    }
    LeadsOn(js, st, pos, st1, at, st2, at1, max);
    BehindValue(st, ms, pos);
    if ms.rest.MCons? {
      if |st2.toks| <= max {
        Comma(js, st2, at1, max);
      }
      LeadsOn(js, st, pos, st2, at1, Behind(st, ms, pos), at1 + 1, max);
    }
  }

  /** Where the parts of the first member stand. */
  lemma MemberParts(js: string, pos: nat, ms: Members)
    requires ms.MCons? && Stands(js, pos, MembersText(ms))
    ensures Stands(js, pos, ms.pre) && Stands(js, pos + |ms.pre|, KeyText(ms.key))
    ensures Stands(js, pos + |ms.pre| + |KeyText(ms.key)|, ms.mid)
    ensures Stands(js, ValueAt(ms, pos) - 1, ":") && Stands(js, ValueAt(ms, pos), Text(ms.v))
    ensures Stands(js, ValueAt(ms, pos) + |Text(ms.v)|, if ms.rest.MNil? then "" else ",")
    ensures Stands(js, BehindAt(ms, pos), MembersText(ms.rest))
  {
    hide Stands, Text, KeyText;
    var k, t := KeyText(ms.key), Text(ms.v);
    var comma, rest := if ms.rest.MNil? then "" else ",", MembersText(ms.rest);
    FourParts(js, pos, ms.pre, k, ms.mid, ":" + (t + (comma + rest)));
    FourParts(js, ValueAt(ms, pos) - 1, ":", t, comma, rest);
  }

  lemma FourParts(js: string, pos: nat, a: string, b: string, c: string, d: string)
    requires Stands(js, pos, a + (b + (c + d)))
    ensures Stands(js, pos, a) && Stands(js, pos + |a|, b) && Stands(js, pos + |a| + |b|, c)
    ensures Stands(js, pos + |a| + |b| + |c|, d)
  {
    hide Stands;
    StandsSplit(js, pos, a, b + (c + d));
    StandsSplit(js, pos + |a|, b, c + d);
    StandsSplit(js, pos + |a| + |b|, c, d);
  }

  /** A comma, white space or the closing brace follows a member's value. */
  lemma ValueFollowed(js: string, pos: nat, ms: Members)
    requires ms.MCons? && GoodMembers(ms) && Stands(js, pos, MembersText(ms))
    requires pos + |MembersText(ms)| < |js| && js[pos + |MembersText(ms)|] == '}'
    ensures var at := ValueAt(ms, pos) + |Text(ms.v)|; Follows(js, at) && (ms.rest.MCons? ==> js[at] == ',')
  {
    hide Stands, Text, MembersText, ValueAt, Good;
    var at := ValueAt(ms, pos) + |Text(ms.v)|;
    MemberParts(js, pos, ms);
    BehindEnd(ms, pos);
    if ms.rest.MNil? {
      NoMembers(ms.rest);
      GapFollows(js, at, ms.rest.gap);
    } else {
      StandsAt(js, at, ",", 0);
      StandsWithin(js, at, ",");
    }
  }

  lemma NoMembers(ms: Members)
    requires ms.MNil?
    ensures MembersText(ms) == ms.gap
  {
  }

  lemma StandsWithin(js: string, pos: nat, x: string)
    requires Stands(js, pos, x)
    ensures pos + |x| <= |js|
  {
  }

  /** The state behind a key and its colon. */
  function AtColon(st: St, ms: Members, pos: nat): St
    requires ms.MCons?
  {
    Grown(st, 1, [KeyTok(ms, st.super, pos, 0)], |st.toks|)
  }

  lemma KeyLeads(js: string, st: St, pos: nat, max: nat, ms: Members)
    requires ms.MCons? && GoodMembers(ms) && Stands(js, pos, MembersText(ms)) && |st.toks| <= max
    ensures Leads(js, st, pos, AtColon(st, ms, pos), ValueAt(ms, pos), max)
  {
    hide Leads, Stands, Quotable, MembersText, Good;
    MemberParts(js, pos, ms);
    var at := pos + |ms.pre|;
    var at1 := at + |KeyText(ms.key)|;
    var at2 := at1 + |ms.mid|;
    Spaces(js, st, pos, max, ms.pre);
    Quoted(js, st, at, max, ms.key);
    var st1 := Grown(st, 1, [KeyTok(ms, st.super, pos, 0)], st.super);
    LeadsOn(js, st, pos, st, at, st1, at1, max);
    if |st1.toks| <= max {
      Spaces(js, st1, at1, max, ms.mid);
    }
    LeadsOn(js, st, pos, st1, at1, st1, at2, max);
    StandsAt(js, at2, ":", 0);
    StandsWithin(js, at2, ":");
    if |st1.toks| <= max {
      Colon(js, st1, at2, max);
    }
    LeadsOn(js, st, pos, st1, at2, AtColon(st, ms, pos), at2 + 1, max);
  }

  /** The value counts as the key's child. */
  lemma BehindValue(st: St, ms: Members, pos: nat)
    requires ms.MCons?
    ensures var st2 := After(AtColon(st, ms, pos), ms.v, ValueAt(ms, pos));
      && st2.super == |st.toks| < |st2.toks|
      && st2.toks == BumpBy(st.toks, st.super, 1) + MemberHead(st, ms, pos)
      && st2.toks[st2.super].typ == STRING && st2.toks[st2.super].parent == st.super
  {
    hide Text, Toks, ValueAt;
    var a, k := BumpBy(st.toks, st.super, 1), KeyTok(ms, st.super, pos, 0);
    var ts := Toks(ms.v, |st.toks| + 1, |st.toks|, ValueAt(ms, pos));
    assert BumpBy(a + [k], |a|, 1) == a + [k.(size := 1)];
    assert a + [k.(size := 1)] + ts == a + ([k.(size := 1)] + ts);
  }

  // ----- whole documents -----

  lemma ContainerEnds(v: Json)
    requires IsContainer(v)
    ensures !EndsBare(v)
  {
    if v.JPad? {
      ContainerEnds(v.v);
    }
  }

  /** The tokens of a document that is an array or an object are those of its values in preorder, as long as
    * there is room for them; with too little room the tokenizer says so. */
  lemma DocumentTokens(v: Json, max: nat)
    requires Good(v) && IsContainer(v)
    ensures Tokenize(Text(v), max) ==
      if |Toks(v, 0, -1, 0)| <= max then Tokens(Toks(v, 0, -1, 0)) else Refused(NOMEM)
  {
    hide Text, Toks, Step;
    ContainerEnds(v);
    var js, st := Text(v), St([], -1);
    assert Stands(js, 0, js);
    ValueLeads(js, st, 0, max, v);
    var ts := Toks(v, 0, -1, 0);
    assert After(st, v, 0) == St(ts, -1) by {
      assert [] + ts == ts;
    }
    ToksClosed(v, 0, -1, 0);
    assert Finish(St(ts, -1)) == Tokens(ts);
  }

  // ----- any text -----

  /** The string tokens of the text can be quoted. */
  ghost predicate StringsQuotable(js: string, ts: seq<JTok>) {
    forall i :: 0 <= i < |ts| && ts[i].typ == STRING ==>
      0 <= ts[i].start <= ts[i].end <= |js| && Quotable(js[ts[i].start..ts[i].end])
  }

  lemma {:induction false} EndQuotable(js: string, pos: nat)
    ensures var r := StringEnd(js, pos); r.End? ==> Quotable(js[pos..r.at])
    decreases |js| - pos
  {
    var r := StringEnd(js, pos);
    if r.End? && r.at > pos {
      var n := if js[pos] != '\\' then 1 else if js[pos + 1] == 'u' then 6 else 2;
      EndStep(js, pos, n);
      EndQuotable(js, pos + n);
      var s := js[pos..r.at];
      assert s[n..] == js[pos + n..r.at];
      if n == 6 {
        assert s[2..6] == js[pos + 2..pos + 6];
      }
    }
  }

  lemma EndStep(js: string, pos: nat, n: nat)
    requires StringEnd(js, pos).End? && StringEnd(js, pos).at > pos
    requires n == if js[pos] != '\\' then 1 else if js[pos + 1] == 'u' then 6 else 2
    ensures pos + n <= StringEnd(js, pos).at && StringEnd(js, pos + n) == StringEnd(js, pos)
    ensures js[pos] != '\0' && js[pos] != '"'
    ensures n == 6 ==> IsHex4(js[pos + 2..pos + 6])
    ensures n == 2 ==> IsSimple(js[pos + 1])
  {
  }

  lemma StepStrings(js: string, st: St, pos: nat, max: nat)
    requires More(js, pos) && StringsQuotable(js, st.toks)
    ensures var r := Step(js, st, pos, max); r.Go? ==> StringsQuotable(js, r.st.toks)
  {
    hide Innermost, StringEnd, PrimitiveEnd, Quotable;
    if js[pos] == '"' {
      EndQuotable(js, pos + 1);
    }
  }

  /** Whatever the text, the strings among its tokens can be quoted. */
  lemma {:induction false} RunStrings(js: string, st: St, pos: nat, max: nat)
    requires StringsQuotable(js, st.toks)
    ensures var r := Run(js, st, pos, max); r.Tokens? ==> StringsQuotable(js, r.toks)
    decreases |js| - pos
  {
    hide Step, Quotable;
    if More(js, pos) {
      StepStrings(js, st, pos, max);
      var r := Step(js, st, pos, max);
      if r.Go? {
        RunStrings(js, r.st, r.pos, max);
      }
    }
  }
}
