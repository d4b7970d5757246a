/** Rendering a packet into a buffer of bounded size, piece by piece. */
module BridgeRender {
  import opened Base
  import opened Bridge
  import opened JsonText

  const OK := 0
  const INVALID := 0xd
  const INVALIDARG := 0x15
  const NR_MAXDATALEN := 128 * 1024

  // ----- the text -----

  function HeaderText(p: Packet): string {
    "{\"v\":0,\"s\":" + Decimal(p.source) + ",\"f\":" + Decimal(p.flags) + ",\"p\":" + Decimal(Signed32(p.vpkt))
    + ",\"I\":" + Decimal(p.phidid) + ",\"O\":" + Decimal(p.ocid) + ",\"X\":" + Decimal(p.chidx)
    + ",\"c\":" + Decimal(|p.entries|) + ",\"e\":{\n"
  }

  function NameText(e: Entry, k: nat): string { "\"" + NameOr(e, k) + "\":" }

  function ElemText(v: seq<string>, i: nat): string
    requires i < |v|
  {
    v[i] + if i < |v| - 1 then "," else ""
  }

  /** The first n elements of an array. */
  function ElemsText(v: seq<string>, n: nat): string
    requires n <= |v|
  {
    if n == 0 then "" else ElemsText(v, n - 1) + ElemText(v, n - 1)
  }

  function OpenText(t: EntryType): string { "{\"t\":\"" + TypeCode(t) + "\",\"v\":[" }

  /** The value suits the type: any entry but a pointer, which is not rendered. */
  predicate Renderable(e: Entry) {
    if e.typ.NONE? then true
    else if Signed(e.typ) || Unsigned(e.typ) then e.val.VInt?
    else if e.typ.FLOAT? || e.typ.DBL? then e.val.VReal?
    else if e.typ.STR? || e.typ.JSON? then e.val.VStr?
    else if IntArray(e.typ) then e.val.VArray?
    else e.typ.DBLARRAY? && e.val.VReals?
  }

  /** The texts of an array's elements; printE is %e. */
  function Elements(e: Entry, printE: PrintE): seq<string> {
    match e.val
    case VArray(v) => seq(|v|, i requires 0 <= i < |v| => Decimal(v[i]))
    case VReals(v) => seq(|v|, i requires 0 <= i < |v| => printE(v[i]))
    case _ => []
  }

  predicate IsArray(t: EntryType) { IntArray(t) || t.DBLARRAY? }

  function ScalarText(e: Entry, printE: PrintE): string {
    "{\"t\":\"" + TypeCode(e.typ) + "\"" +
    if e.typ.NONE? then "}"
    else if e.val.VInt? then ",\"v\":" + Decimal(e.val.i) + "}"
    else if e.val.VReal? then ",\"v\":" + printE(e.val.r) + "}"
    else if e.val.VStr? && e.typ.STR? then ",\"v\":\"" + Escape(e.val.s) + "\"}"
    else if e.val.VStr? then ",\"v\":" + e.val.s + "}"
    else "}"
  }

  function ValueText(e: Entry, printE: PrintE): string {
    if IsArray(e.typ) then OpenText(e.typ) + ElemsText(Elements(e, printE), |Elements(e, printE)|) + "]}"
    else ScalarText(e, printE)
  }

  function SepText(k: nat, cnt: nat): string { if k + 1 < cnt then ",\n" else "\n" }

  function EntryText(es: seq<Entry>, k: nat, printE: PrintE): string
    requires k < |es|
  {
    NameText(es[k], k) + ValueText(es[k], printE) + SepText(k, |es|)
  }

  /** The first k entries. */
  function EntriesText(es: seq<Entry>, k: nat, printE: PrintE): string
    requires k <= |es|
  {
    if k == 0 then "" else EntriesText(es, k - 1, printE) + EntryText(es, k - 1, printE)
  }

  /** Everything but the two closing braces. */
  function BodyText(p: Packet, printE: PrintE): string {
    HeaderText(p) + EntriesText(p.entries, |p.entries|, printE)
  }

  /** The entry is not a string that json_escape has no room for. */
  predicate Fits(e: Entry) { e.typ.STR? && e.val.VStr? ==> |Escape(e.val.s)| < 16384 }

  predicate AllFit(es: seq<Entry>, k: nat)
    requires k <= |es|
  {
    forall i :: 0 <= i < k ==> Fits(es[i])
  }

  /** The k-th entry is the first with a string that json_escape has no room for, and what stands in front of that
    * string fits. */
  predicate Fails(p: Packet, k: nat, printE: PrintE, bufsz: nat)
    requires k < |p.entries|
  {
    && AllFit(p.entries, k) && !Fits(p.entries[k])
    && |HeaderText(p) + EntriesText(p.entries, k, printE) + NameText(p.entries[k], k)| <= bufsz
  }

  // ----- the buffer -----

  class Printer {
    const buf: array<char>
    const size: nat
    var p: nat
    var n: nat
    // what has been printed, whether or not it all fitted
    ghost var text: string

    /** The next piece goes to buf[p], where n characters are left.  If the last piece took all that was left,
      * its last character has been replaced by the terminator; but then nothing is left either. */
    ghost predicate Valid()
      reads this, buf
    {
      size <= buf.Length && p + n == size && p == |text| && (n > 0 ==> buf[..p] == text)
    }

    constructor (buf: array<char>, size: nat)
      requires size <= buf.Length
      ensures Valid() && this.buf == buf && this.size == size && n == size && text == ""
    {
      this.buf, this.size, p, n, text := buf, size, 0, size, "";
    }

    /** snprintf, and the test behind every one of them: w is the length of the whole piece. */
    method Print(s: string) returns (ok: bool)
      requires Valid()
      modifies this, buf
      ensures buf[size..] == old(buf[size..])
      ensures ok == (|old(text)| + |s| <= size)
      ensures ok ==> Valid() && text == old(text) + s
    {
      var w := |s|;
      if n > 0 {
        var m := if w < n then w else n - 1;
        forall i | 0 <= i < m {
          buf[p + i] := s[i];
        }
        buf[p + m] := '\0';
      }
      if w > n {
        return false;
      }
      p, n, text := p + w, n - w, text + s;
      return true;
    }

    /** The two braces at the end, and the terminator. */
    method Close() returns (ok: bool)
      requires Valid()
      modifies buf
      ensures buf[size..] == old(buf[size..]) && ok == (|text| + 3 <= size)
      ensures ok ==> buf[..p + 3] == text + "}}" + ['\0']
    {
      if n < 3 {
        return false;
      }
      buf[p], buf[p + 1], buf[p + 2] := '}', '}', '\0';
      assert buf[..p] == text;
      return true;
    }

    /** The loop over an array's elements. */
    method PrintElems(v: seq<string>) returns (ok: bool)
      requires Valid()
      modifies this, buf
      ensures buf[size..] == old(buf[size..])
      ensures ok == (|old(text)| + |ElemsText(v, |v|)| <= size)
      ensures ok ==> Valid() && text == old(text) + ElemsText(v, |v|)
    {
      hide ElemsText, ElemText;
      var i := 0;
      ghost var before := text;
      ElemsStep(before, v, 0);
      while i < |v|
        invariant i <= |v| && Valid() && buf[size..] == old(buf[size..]) && text == before + ElemsText(v, i)
      {
        ElemsStep(before, v, i);
        ok := Print(ElemText(v, i));
        if !ok {
          ElemsLonger(v, i + 1, |v|);
          return false;
        }
        i := i + 1;
      }
      return true;
    }

    /** The switch on an entry's type. */
    method PrintValue(e: Entry, printE: PrintE) returns (res: int)
      requires Valid() && Renderable(e)
      modifies this, buf
      ensures buf[size..] == old(buf[size..])
      ensures res ==
        if !Fits(e) then INVALID else if |old(text)| + |ValueText(e, printE)| <= size then OK else INVALIDARG
      ensures res == OK ==> Valid() && text == old(text) + ValueText(e, printE)
    {
      hide Escape, Decimal, TypeCode, ElemsText, ScalarText, Elements;
      if IsArray(e.typ) {
        var v := Elements(e, printE);
        var ok := Print(OpenText(e.typ));
        if ok {
          ok := PrintElems(v);
        }
        if ok {
          assert old(text) + OpenText(e.typ) + ElemsText(v, |v|) == old(text) + (OpenText(e.typ) + ElemsText(v, |v|));
          ok := Print("]}");
        }
        return if ok then OK else INVALIDARG;
      }
      if e.typ.STR? && !Escapes(e.val.s) {
        return INVALID;
      }
      var ok := Print(ScalarText(e, printE));
      return if ok then OK else INVALIDARG;
    }

    method PrintEntry(es: seq<Entry>, k: nat, printE: PrintE) returns (res: int)
      requires Valid() && k < |es| && Renderable(es[k])
      modifies this, buf
      ensures buf[size..] == old(buf[size..])
      ensures res == OK || res == INVALIDARG || res == INVALID
      ensures res == INVALIDARG ==> |old(text)| + |EntryText(es, k, printE)| > size
      ensures res == INVALID <==> !Fits(es[k]) && |old(text)| + |NameText(es[k], k)| <= size
      ensures res == OK ==> Valid() && text == old(text) + EntryText(es, k, printE) && Fits(es[k])
    {
      hide ValueText, NameText, Escape;
      var ok := Print(NameText(es[k], k));
      if !ok {
        return INVALIDARG;
      }
      res := PrintValue(es[k], printE);
      if res != OK {
        return;
      }
      ok := Print(SepText(k, |es|));
      assert old(text) + NameText(es[k], k) + ValueText(es[k], printE) + SepText(k, |es|)
          == old(text) + EntryText(es, k, printE);
      return if ok then OK else INVALIDARG;
    }
  }

  lemma ElemsStep(before: string, v: seq<string>, i: nat)
    requires i <= |v|
    ensures i == 0 ==> before + ElemsText(v, i) == before
    ensures i < |v| ==> before + ElemsText(v, i) + ElemText(v, i) == before + ElemsText(v, i + 1)
  {
    hide ElemText;
  }

  lemma ElemsLonger(v: seq<string>, i: nat, j: nat)
    requires i <= j <= |v|
    ensures |ElemsText(v, i)| <= |ElemsText(v, j)|
  {
    hide ElemText;
  }

  lemma EntriesLonger(es: seq<Entry>, i: nat, j: nat, printE: PrintE)
    requires i <= j <= |es|
    ensures |EntriesText(es, i, printE)| <= |EntriesText(es, j, printE)|
  {
    hide EntryText;
  }

  lemma EntriesStep(p: Packet, off: nat, printE: PrintE, bufsz: nat)
    requires off < |p.entries| && AllFit(p.entries, off)
    ensures var text := HeaderText(p) + EntriesText(p.entries, off, printE);
      && text + EntryText(p.entries, off, printE) == HeaderText(p) + EntriesText(p.entries, off + 1, printE)
      && (Fails(p, off, printE, bufsz) <==>
            !Fits(p.entries[off]) && |text| + |NameText(p.entries[off], off)| <= bufsz)
    ensures Fits(p.entries[off]) <==> AllFit(p.entries, off + 1)
    ensures !Fits(p.entries[off]) ==> !AllFit(p.entries, |p.entries|)
  {
    hide HeaderText, EntryText, NameText, Fits;
  }

  lemma NothingYet(p: Packet, printE: PrintE)
    ensures EntriesText(p.entries, 0, printE) == "" && AllFit(p.entries, 0)
  {
  }

  /** Where there is no room for the header, or nothing is wrong with any string, none fails. */
  lemma NeverFails(p: Packet, printE: PrintE, bufsz: nat)
    requires |HeaderText(p)| > bufsz || AllFit(p.entries, |p.entries|)
    ensures forall k :: 0 <= k < |p.entries| ==> !Fails(p, k, printE, bufsz)
  {
    hide Fits, HeaderText, NameText, EntriesText;
  }

  /** Where there is no room for the entry at off, no string has failed before. */
  lemma NoneFails(p: Packet, off: nat, printE: PrintE, bufsz: nat)
    requires off < |p.entries| && AllFit(p.entries, off) && !Fails(p, off, printE, bufsz)
    requires |HeaderText(p) + EntriesText(p.entries, off + 1, printE)| > bufsz
    ensures forall k :: 0 <= k < |p.entries| ==> !Fails(p, k, printE, bufsz)
  {
    hide Fits, HeaderText, NameText, EntriesText;
    forall k | 0 <= k < |p.entries| ensures !Fails(p, k, printE, bufsz) {
      if k > off {
        EntriesLonger(p.entries, off + 1, k, printE);
      }
    }
  }

  /** renderBridgePacketJSON.  It succeeds exactly when every string can be escaped and the whole text, its two
    * braces and the terminator fit; the buffer then holds all of it, and len is its length. */
  method RenderBridgePacketJSON(p: Packet, printE: PrintE, buf: array<char>, bufsz: nat)
    returns (res: int, len: nat)
    requires bufsz <= buf.Length && forall k :: 0 <= k < |p.entries| ==> Renderable(p.entries[k])
    modifies buf
    ensures buf[bufsz..] == old(buf[bufsz..])
    ensures res == OK <==>
      bufsz <= 131072 && AllFit(p.entries, |p.entries|) && |BodyText(p, printE)| + 3 <= bufsz
    ensures res == OK ==> len == |BodyText(p, printE)| + 2 && buf[..len + 1] == BodyText(p, printE) + "}}" + ['\0']
    ensures res == OK || res == INVALIDARG || res == INVALID
    ensures res == INVALID <==> bufsz <= 131072 && exists k :: 0 <= k < |p.entries| && Fails(p, k, printE, bufsz)
  {
    hide HeaderText, EntryText, Renderable, Fits, NameText, EntriesText, Fails, AllFit;
    len := bufsz;
    if bufsz > NR_MAXDATALEN {
      return INVALIDARG, len;
    }
    var out := new Printer(buf, bufsz);
    var es := p.entries;
    var ok := out.Print(HeaderText(p));
    NothingYet(p, printE);
    if !ok {
      EntriesLonger(es, 0, |es|, printE);
      NeverFails(p, printE, bufsz);
      return INVALIDARG, len;
    }
    assert HeaderText(p) + "" == HeaderText(p) && "" + HeaderText(p) == HeaderText(p);
    var off := 0;
    while off < |es|
      invariant off <= |es| && out.Valid() && fresh(out) && out.buf == buf && out.size == bufsz
      invariant buf[bufsz..] == old(buf[bufsz..])
      invariant out.text == HeaderText(p) + EntriesText(es, off, printE) && AllFit(es, off)
    {
      EntriesStep(p, off, printE, bufsz);
      res := out.PrintEntry(es, off, printE);
      if res != OK {
        if res == INVALIDARG {
          EntriesLonger(es, off + 1, |es|, printE);
          NoneFails(p, off, printE, bufsz);
        }
        return res, len;
      }
      off := off + 1;
    }
    NeverFails(p, printE, bufsz);
    ok := out.Close();
    if !ok {
      return INVALIDARG, len;
    }
    len := out.p + 2;
    return OK, len;
  }
}
