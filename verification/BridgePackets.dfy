/** The packet object: filled in place by the parser, while two counters walk the tokens, and by the calls that
  * add entries; and read by the base64 decoder. */
module BridgePackets {
  import opened Base
  import opened Bridge
  import opened BridgeParse
  import opened JsonText
  import D = BridgeBase64
  import B = Base64

  const BAD := -1

  class BridgePacket {
    var source: int
    var flags: int
    var vpkt: int
    var phidid: int
    var ocid: int
    var chidx: int
    var entrycnt: nat
    const entry: array<Entry>

    ghost predicate Valid()
      reads this
    {
      entry.Length == BRIDGE_PACKET_ENTRY_MAX && entrycnt <= BRIDGE_PACKET_ENTRY_MAX
    }

    /** The packet with its first k entries. */
    ghost function Upto(k: nat): Packet
      reads this, entry
      requires k <= entry.Length
    {
      Packet(source, flags, vpkt, phidid, ocid, chidx, entry[..k])
    }

    /** allocBridgePacket, and the source parseBridgePacketJSON starts with. */
    constructor ()
      ensures Valid() && Upto(0) == NEW && entrycnt == 0 && fresh(entry)
      ensures forall i :: 0 <= i < entry.Length ==> entry[i] == EMPTY
    {
      source, flags, vpkt, phidid, ocid, chidx, entrycnt := 2, 0, 0, 0, 0, 0, 0;
      entry := new Entry[BRIDGE_PACKET_ENTRY_MAX](_ => EMPTY);
    }

    /** The switch on a header key. */
    method SetHeaderField(c: char, t: Token) returns (ok: bool)
      requires Valid()
      modifies this
      ensures Valid()
      ensures SetField(c, t, old(Header(0, Upto(0), entrycnt))) ==
        if ok then Some(Header(0, Upto(0), entrycnt)) else None
    {
      var u := U64Of(t);
      ok := true;
      match c
      case 'p' => if u.Some? && u.value < TWO_32 { vpkt := u.value; } else { ok := false; }
      case 'v' => ok := u == Some(0);
      case 's' => if u == Some(1) || u == Some(2) { source := u.value; } else { ok := false; }
      case 'f' => if u.Some? { flags := u.value % TWO_32; } else { ok := false; }
      case 'c' => if u.Some? && u.value <= BRIDGE_PACKET_ENTRY_MAX { entrycnt := u.value; } else { ok := false; }
      case 'I' => if u.Some? { phidid := u.value; } else { ok := false; }
      case 'O' => if u.Some? { ocid := u.value; } else { ok := false; }
      case 'X' => if I64Of(t).Some? { chidx := Wrap(I64Of(t).value, TWO_31); } else { ok := false; }
      case _ =>
    }

    method ProcessBPHeader(ts: seq<Seen>) returns (res: int)
      requires Valid() && Upto(0) == NEW && entrycnt == 0
      modifies this
      ensures Valid() && ReadHeader(ts) == if res >= 0 then Header(res, Upto(0), entrycnt) else BadHeader
    {
      hide SetField;
      if !At(ts, 0).Object? {
        return -1;
      }
      var size, off, token := At(ts, 0).size, 0, 1;
      while off < size * 2 + 1
        invariant Valid() && token == off + 1
        invariant ReadHeaderFrom(ts, off, size, Header(0, Upto(0), entrycnt)) == ReadHeader(ts)
        decreases size * 2 + 1 - off
      {
        var key := TextOf(At(ts, token));
        if key.None? {
          return -1;
        }
        off, token := off + 1, token + 1;
        var c := CharAt(key.value, 0);
        if c == 'e' {
          return off + 2;
        }
        var ok := SetHeaderField(c, At(ts, token));
        if !ok {
          return -1;
        }
        off, token := off + 1, token + 1;
      }
      return -1;
    }

    /** The elements of an array, converted and stored one by one. */
    method ProcessArray(ts: seq<Seen>, token: nat, k: nat) returns (ok: bool, cnt: nat)
      requires Valid() && k < BRIDGE_PACKET_ENTRY_MAX && IntArray(entry[k].typ) && 0 <= Size(At(ts, token))
      modifies entry
      ensures cnt == ArrayCount(old(entry[k].typ), Size(At(ts, token)))
      ensures ok <==> Convertible(ts, token + 1, cnt, old(entry[k].typ))
      ensures entry[..] ==
        if ok then old(entry[..])[k := old(entry[k]).(val := VArray(Elements(ts, token + 1, cnt, old(entry[k].typ))))]
                           else old(entry[..])
    {
      hide ElemOf, Cast, ArrayCount;
      var e := entry[k];
      var elems: seq<int> := [];
      cnt := ArrayCount(e.typ, Size(At(ts, token)));
      var i := 0;
      while i < cnt
        invariant i <= cnt && Convertible(ts, token + 1, i, e.typ) && elems == Elements(ts, token + 1, i, e.typ)
      {
        var v := ElemOf(At(ts, token + 1 + i), e.typ);
        if v.None? {
          assert !ElemOk(ts, token + 1, i, e.typ);
          return false, cnt;
        }
        elems, i := elems + [Cast(e.typ, v.value)], i + 1;
      }
      entry[k] := e.(val := VArray(elems));
      return true, cnt;
    }

    /** The elements of an array of floating point numbers. */
    method ProcessReals(ts: seq<Seen>, token: nat, k: nat, readE: ReadE) returns (ok: bool, cnt: nat)
      requires Valid() && k < BRIDGE_PACKET_ENTRY_MAX && 0 <= Size(At(ts, token))
      modifies entry
      ensures cnt == ArrayCount(DBLARRAY, Size(At(ts, token)))
      ensures ok <==> Readable(ts, token + 1, cnt, readE)
      ensures entry[..] ==
        if ok then old(entry[..])[k := old(entry[k]).(val := VReals(Reals(ts, token + 1, cnt, readE)))]
                           else old(entry[..])
    {
      hide RealOf, ArrayCount;
      var reals: seq<real> := [];
      cnt := ArrayCount(DBLARRAY, Size(At(ts, token)));
      var i := 0;
      while i < cnt
        invariant i <= cnt && Readable(ts, token + 1, i, readE) && reals == Reals(ts, token + 1, i, readE)
      {
        var r := RealOf(At(ts, token + 1 + i), readE);
        if r.None? {
          assert !RealOk(ts, token + 1, i, readE);
          return false, cnt;
        }
        reals, i := reals + [r.value], i + 1;
      }
      entry[k] := entry[k].(val := VReals(reals));
      return true, cnt;
    }

    /** Inline JSON: the text is copied, and the loop passes over the tokens inside it. */
    method ProcessJson(ts: seq<Seen>, token: nat, k: nat) returns (res: int, passed: nat)
      requires Valid() && k < BRIDGE_PACKET_ENTRY_MAX
      modifies entry
      ensures match ReadJson(ts, token, old(entry[k]))
              case Bad => res == BAD
              case Outside => res == OUTSIDE
              case Moved(t, o, e) => res == 0 && passed == t == o && entry[..] == old(entry[..])[k := e]
    {
      if token >= |ts| {
        return OUTSIDE, 0;
      }
      var jsonend := ts[token].end;
      var sz := jsonend - ts[token].start + 1;
      if sz <= 0 || sz > BPE_MAXARRAY_LEN {
        return BAD, 0;
      }
      res, passed := 0, 0;
      if ts[token].start < jsonend {
        while token + passed < |ts| && ts[token + passed].start < jsonend
          invariant match SpanFrom(ts, token + passed, jsonend)
                    case None => SpanFrom(ts, token, jsonend) == None
                    case Some(n) => SpanFrom(ts, token, jsonend) == Some(passed + n)
          decreases |ts| - token - passed
        {
          passed := passed + 1;
        }
        if token + passed >= |ts| {
          return OUTSIDE, 0;
        }
        passed := passed - 1;
      }
      entry[k] := entry[k].(val := VStr(ts[token].raw));
    }

    /** The switch on a "v" key: BAD, OUTSIDE or 0, and how far to move on. */
    method ProcessValue(ts: seq<Seen>, token: nat, k: nat, readE: ReadE) returns (res: int, dt: nat, doff: nat)
      requires Valid() && k < BRIDGE_PACKET_ENTRY_MAX
      modifies entry
      ensures match ReadValue(ts, token, old(entry[k]), readE)
              case Bad => res == BAD
              case Outside => res == OUTSIDE
              case Moved(t, o, e) => res == 0 && dt == t && doff == o && entry[..] == old(entry[..])[k := e]
    {
      var e, tok := entry[k], At(ts, token);
      res, dt, doff := 0, 0, 0;
      if e.typ.PTR? {
        return BAD, 0, 0;
      } else if e.typ.NONE? {
        entry[k] := e.(val := VInt(0));
      } else if Unsigned(e.typ) {
        if U64Of(tok).None? { return BAD, 0, 0; }
        entry[k] := e.(val := VInt(U64Of(tok).value));
      } else if Signed(e.typ) {
        if I64Of(tok).None? { return BAD, 0, 0; }
        entry[k] := e.(val := VInt(I64Of(tok).value));
      } else if e.typ.STR? {
        if TextOf(tok).None? { return BAD, 0, 0; }
        entry[k] := e.(val := VStr(UpToNul(Unescape(TextOf(tok).value))));
      } else if e.typ.JSON? {
        res, dt := ProcessJson(ts, token, k);
        doff := dt;
      } else if e.typ.FLOAT? || e.typ.DBL? {
        if RealOf(tok, readE).None? { return BAD, 0, 0; }
        entry[k] := e.(val := VReal(RealOf(tok, readE).value));
      } else {
        if Size(tok) < 0 || Size(tok) > BPE_MAXARRAY_LEN { return BAD, 0, 0; }
        var ok;
        if e.typ.DBLARRAY? {
          ok, doff := ProcessReals(ts, token, k, readE);
        } else {
          ok, doff := ProcessArray(ts, token, k);
        }
        if !ok { return BAD, 0, 0; }
        dt := if Size(tok) > 0 then 1 + doff else 0;
      }
    }

    method ProcessBPEntry(ts: seq<Seen>, start: nat, k: nat, readE: ReadE) returns (res: int)
      requires Valid() && k < BRIDGE_PACKET_ENTRY_MAX && entry[k] == EMPTY
      modifies entry
      ensures match ReadEntry(ts, start, readE)
              case Bad => res == BAD
              case Outside => res == OUTSIDE
              case Moved(_, n, e) => res == n && entry[..] == old(entry[..])[k := e]
    {
      hide ReadValue, DecodeType;
      if TextOf(At(ts, start)).None? {
        return BAD;
      }
      entry[k] := entry[k].(name := TextOf(At(ts, start)));
      if !At(ts, start + 1).Object? {
        return BAD;
      }
      ghost var was := old(entry[..]);
      var size, token: nat, off: nat := At(ts, start + 1).size, start + 2, 0;
      while off < size * 2
        invariant entry[..] == was[k := entry[k]]
        invariant ReadPairs(ts, token, off, size, entry[k], readE) ==
          ReadPairs(ts, start + 2, 0, size, EMPTY.(name := TextOf(At(ts, start))), readE)
        decreases size * 2 - off
      {
        var key, val := TextOf(At(ts, token)), TextOf(At(ts, token + 1));
        if key.None? {
          return BAD;
        }
        var dt, doff := 0, 0;
        if CharAt(key.value, 0) == 't' {
          if val.None? {
            return BAD;
          }
          entry[k] := entry[k].(typ := DecodeType(val.value));
        } else if CharAt(key.value, 0) == 'v' {
          var err;
          err, dt, doff := ProcessValue(ts, token + 1, k, readE);
          if err != 0 {
            return err;
          }
        }
        token, off := token + 2 + dt, off + 2 + doff;
      }
      return off + 1;
    }

    // ----- adding entries, and binary data in them -----

    /** getBridgePacketEntryOffsetByName, as far as whether there is one. */
    method FindName(name: string) returns (found: bool)
      requires Valid()
      ensures found <==> D.HasName(entry[..entrycnt], name)
    {
      var off := 0;
      while off < entrycnt
        invariant off <= entrycnt && !D.HasName(entry[..off], name)
      {
        if entry[off].name == Some(name) {
          assert entry[off] in entry[..entrycnt];
          return true;
        }
        assert entry[..off + 1] == entry[..off] + [entry[off]];
        off := off + 1;
      }
      return false;
    }

    /** addBridgePacketUInt32 and addBridgePacketString, with a name. */
    method Add(typ: EntryType, val: Value, name: string) returns (res: int)
      requires Valid()
      modifies this`entrycnt, entry
      ensures Valid() && entrycnt >= old(entrycnt)
      ensures D.AddAll(old(entry[..entrycnt]), [Entry(Some(name), typ, val)]) == D.Result(res, entry[..entrycnt])
    {
      if entrycnt >= BRIDGE_PACKET_ENTRY_MAX {
        return D.NOSPC;
      }
      var found := FindName(name);
      if found {
        return D.DUPLICATE;
      }
      entry[entrycnt] := Entry(Some(name), typ, val);
      entrycnt := entrycnt + 1;
      return OK;
    }

    /** bridgePacketBase64Encode, on the text mos_base64_encode gives. */
    method Base64Encode(data: seq<int>) returns (res: int)
      requires Valid()
      modifies this`entrycnt, entry
      ensures Valid()
      ensures D.EncodeInto(old(entry[..entrycnt]), data) == D.Result(res, entry[..entrycnt])
    {
      hide D.AddAll, D.ChunkName, B.Encode;
      var base64 := B.Encode(data);
      var bn := |base64|;
      if bn / BPE_STR_LEN >= BRIDGE_PACKET_ENTRY_MAX - 1 {
        return D.NOSPC;
      }
      ghost var es := entry[..entrycnt];
      AddHeadThen(es, Entry(Some(D.DATALEN), UI32, VInt(|data|)), D.Added(data)[1..]);
      assert D.Added(data) == [D.Added(data)[0]] + D.Added(data)[1..];
      res := Add(UI32, VInt(|data|), D.DATALEN);
      if res != OK {
        return;
      }
      ghost var es1 := entry[..entrycnt];
      AddHeadThen(es1, Entry(Some(D.ENCLEN), UI32, VInt(bn)), D.ChunkEntries(base64, 0));
      assert D.Added(data)[1..] == [Entry(Some(D.ENCLEN), UI32, VInt(bn))] + D.ChunkEntries(base64, 0);
      res := Add(UI32, VInt(bn), D.ENCLEN);
      if res != OK {
        return;
      }
      var i, b := 0, 0;
      assert base64[0..] == base64;
      while b < |base64|
        invariant Valid() && b <= |base64| && bn == |base64| - b
        invariant D.AddAll(es, D.Added(data)) == D.AddAll(entry[..entrycnt], D.ChunkEntries(base64[b..], i))
      {
        var n := D.Min(D.CHUNK, bn);
        ghost var now := entry[..entrycnt];
        assert base64[b..][n..] == base64[b + n..] && base64[b..][..n] == base64[b..b + n];
        AddHeadThen(now, Entry(Some(D.ChunkName(i)), STR, VStr(base64[b..b + n])),
                    D.ChunkEntries(base64[b + n..], i + 1));
        res := Add(STR, VStr(base64[b..b + n]), D.ChunkName(i));
        if res != OK {
          return;
        }
        bn, b, i := bn - n, b + n, i + 1;
      }
      AddNothing(entry[..entrycnt]);
      return OK;
    }

    /** bridgePacketBase64Decode.  room is the caller's buffer, or none to ask for the length. */
    method Base64Decode(start: nat, room: Option<nat>) returns (r: D.Decoded)
      requires Valid() && start < BRIDGE_PACKET_ENTRY_MAX
      ensures r == D.DecodeAt(entry[..entrycnt], start, room)
    {
      if start >= entrycnt - 2 {
        return D.Code(D.INVALIDARG, start);
      }
      if !D.IsUInt32(entry[start]) {
        return D.AssertionFailed;
      }
      var len, off := entry[start].val.i, start;
      if room.None? {
        return D.Length(len);
      }
      if len > room.value {
        return D.Code(D.NOSPC, off);
      }
      off := off + 1;
      if !D.IsUInt32(entry[off]) {
        return D.AssertionFailed;
      }
      var enclen := entry[off].val.i;
      off := off + 1;
      var encbuf, outlen := "", enclen;
      ghost var es := entry[..entrycnt];
      while outlen != 0 && off < entrycnt
        invariant off <= entrycnt
        invariant Continued(D.Collect(es, start + 2, enclen), encbuf, D.Collect(es, off, outlen))
        decreases entrycnt - off
      {
        if !entry[off].typ.STR? || !entry[off].val.VStr? {
          return D.AssertionFailed;
        }
        var str := entry[off].val.s;
        encbuf, outlen, off := encbuf + str, (outlen - |str|) % TWO_64, off + 1;
      }
      assert encbuf + "" == encbuf;
      return D.Finish(encbuf, off, outlen, len);
    }
  }

  /** The whole is what has been collected followed by what is still to come. */
  ghost predicate Continued(whole: D.Collected, text: string, rest: D.Collected) {
    whole == if rest.NotString? then D.NotString else D.Got(text + rest.text, rest.off, rest.left)
  }

  lemma AddNothing(es: seq<Entry>)
    ensures D.AddAll(es, []) == D.Result(OK, es)
  {
  }

  /** Adding a list is adding its first entry and then, if that is taken, the others. */
  lemma AddHeadThen(es: seq<Entry>, e: Entry, more: seq<Entry>)
    ensures D.AddAll(es, [e] + more) ==
      if D.AddAll(es, [e]).code == OK then D.AddAll(es + [e], more) else D.AddAll(es, [e])
    ensures D.AddAll(es, [e]).code == OK ==> D.AddAll(es, [e]).es == es + [e]
  {
    assert ([e] + more)[1..] == more && [e][1..] == [];
  }

  /** parseBridgePacketJSON, once the text is tokens. */
  method ParseTokens(ts: seq<Seen>, readE: ReadE) returns (err: int, bp: BridgePacket?)
    ensures match Parse(ts, readE)
            case Failed => err == UNEXPECTED && bp == null
            case NotCovered => err == OUTSIDE
            case Parsed(p) => err == OK && bp != null && bp.Valid() && bp.Upto(bp.entrycnt) == p
  {
    hide ReadHeader, ReadEntry;
    if |ts| > BRIDGE_JSON_TOKENS {
      return UNEXPECTED, null;
    }
    var b := new BridgePacket();
    var res := b.ProcessBPHeader(ts);
    if res < 0 {
      return UNEXPECTED, null;
    }
    ghost var cnt := b.entrycnt;
    var k := 0;
    while k < b.entrycnt
      invariant b.Valid() && res >= 0 && k <= b.entrycnt == cnt && fresh(b) && fresh(b.entry)
      invariant forall i :: k <= i < b.entry.Length ==> b.entry[i] == EMPTY
      invariant Parse(ts, readE) == ReadEntries(ts, res, k, cnt, b.Upto(k), readE)
    {
      var n := b.ProcessBPEntry(ts, res + k, k, readE);
      if n < 0 {
        return if n == BAD then UNEXPECTED else OUTSIDE, null;
      }
      assert b.entry[..k + 1] == b.entry[..k] + [b.entry[k]];
      res, k := res + n, k + 1;
    }
    return OK, b;
  }
}
