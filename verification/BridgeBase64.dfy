/** Binary data in a bridge packet: base64 text cut into string entries, and put together again. */
module BridgeBase64 {
  import opened Base
  import opened Bridge
  import B = Base64

  const OK := 0
  const INVALID := 0xd
  const NOSPC := 0x10
  const INVALIDARG := 0x15
  const DUPLICATE := 0x1b
  const UNEXPECTED := 0x1c

  const DATALEN := "base64datalen"
  const ENCLEN := "base64enclen"

  function ChunkName(i: nat): string { "base64data" + Decimal(i) }

  /** The longest chunk: a string buffer less its terminator. */
  const CHUNK := BPE_STR_LEN - 1

  function Min(a: nat, b: nat): nat { if a < b then a else b }

  /** The text in chunks, the first of them number i. */
  function ChunkEntries(text: string, i: nat): seq<Entry>
    decreases |text|
  {
    if text == "" then []
    else
      var n := Min(CHUNK, |text|);
      [Entry(Some(ChunkName(i)), STR, VStr(text[..n]))] + ChunkEntries(text[n..], i + 1)
  }

  /** Everything the data adds to a packet: its length, the length of its text, and the text. */
  function Added(data: seq<int>): seq<Entry> {
    var text := B.Encode(data);
    [Entry(Some(DATALEN), UI32, VInt(|data|)), Entry(Some(ENCLEN), UI32, VInt(|text|))] + ChunkEntries(text, 0)
  }

  ghost predicate HasName(es: seq<Entry>, name: string) { exists e :: e in es && e.name == Some(name) }

  /** None of the names is in use. */
  ghost predicate Free(es: seq<Entry>, more: seq<Entry>) {
    forall e :: e in more && e.name.Some? ==> !HasName(es, e.name.value)
  }

  // ----- the names are all different -----

  lemma {:induction false} DigitsInjective(m: nat, n: nat)
    requires Digits(m) == Digits(n)
    ensures m == n
  {
    DigitsLength(m);
    DigitsLength(n);
    var a, b := Digits(m), Digits(n);
    assert a[|a| - 1] == ('0' as int + m % 10) as char && b[|b| - 1] == ('0' as int + n % 10) as char;
    if m >= 10 && n >= 10 {
      assert a[..|a| - 1] == Digits(m / 10) && b[..|b| - 1] == Digits(n / 10);
      DigitsInjective(m / 10, n / 10);
    }
  }

  lemma DigitsLength(n: nat)
    ensures |Digits(n)| == 1 <==> n < 10
  {
    if n >= 10 {
      assert |Digits(n / 10)| > 0;
    }
  }

  lemma ChunkNameInjective(i: nat, j: nat)
    ensures ChunkName(i) == ChunkName(j) <==> i == j
    ensures ChunkName(i) != DATALEN && ChunkName(i) != ENCLEN
  {
    assert ChunkName(i)[10..] == Digits(i) && ChunkName(j)[10..] == Digits(j);
    assert ChunkName(i)[10] == Digits(i)[0] && '0' <= Digits(i)[0] <= '9' by {
      assert Digits(i)[0] in Digits(i);
    }
    assert DATALEN[10] == 'l' && ENCLEN[6] == 'e' && ChunkName(i)[6] == 'd';
    if ChunkName(i) == ChunkName(j) {
      DigitsInjective(i, j);
    }
  }

  /** The chunks carry the names from i on. */
  lemma {:induction false} ChunkNames(text: string, i: nat)
    ensures forall k :: 0 <= k < |ChunkEntries(text, i)| ==> ChunkEntries(text, i)[k].name == Some(ChunkName(i + k))
    decreases |text|
  {
    if text != "" {
      var n := Min(CHUNK, |text|);
      ChunkNames(text[n..], i + 1);
      var es, rest := ChunkEntries(text, i), ChunkEntries(text[n..], i + 1);
      forall k | 0 <= k < |es| ensures es[k].name == Some(ChunkName(i + k)) {
        if k > 0 {
          assert es[k] == rest[k - 1];
        }
      }
    }
  }

  // ----- encoding -----

  datatype Result = Result(code: int, es: seq<Entry>)

  /** Adding entries one after the other, up to the first that is refused. */
  ghost function AddAll(es: seq<Entry>, more: seq<Entry>): Result
    decreases |more|
  {
    if more == [] then Result(OK, es)
    else if |es| >= BRIDGE_PACKET_ENTRY_MAX then Result(NOSPC, es)
    else if more[0].name.Some? && HasName(es, more[0].name.value) then Result(DUPLICATE, es)
    else AddAll(es + [more[0]], more[1..])
  }

  /** bridgePacketBase64Encode: the packet's entries afterwards, and what is returned. */
  ghost function EncodeInto(es: seq<Entry>, data: seq<int>): Result {
    if |B.Encode(data)| / BPE_STR_LEN >= BRIDGE_PACKET_ENTRY_MAX - 1 then Result(NOSPC, es) else AddAll(es, Added(data))
  }

  ghost predicate OwnNames(es: seq<Entry>) {
    forall i, j :: 0 <= i < j < |es| && es[i].name.Some? ==> es[j].name != es[i].name
  }

  lemma {:induction false} AddAllFits(es: seq<Entry>, more: seq<Entry>)
    requires OwnNames(more) && |es| <= BRIDGE_PACKET_ENTRY_MAX
    ensures AddAll(es, more).code == OK <==> |es| + |more| <= BRIDGE_PACKET_ENTRY_MAX && Free(es, more)
    ensures AddAll(es, more).code == OK ==> AddAll(es, more).es == es + more
    decreases |more|
  {
    if more == [] {
      assert es + more == es;
    } else if |es| < BRIDGE_PACKET_ENTRY_MAX && !(more[0].name.Some? && HasName(es, more[0].name.value)) {
      var es', rest := es + [more[0]], more[1..];
      AddAllFits(es', rest);
      assert es' + rest == es + more;
      FreeStep(es, more);
    }
  }

  lemma FreeStep(es: seq<Entry>, more: seq<Entry>)
    requires OwnNames(more) && more != [] && !(more[0].name.Some? && HasName(es, more[0].name.value))
    ensures Free(es + [more[0]], more[1..]) <==> Free(es, more)
  {
    var es' := es + [more[0]];
    assert forall e :: e in es' <==> e in es || e == more[0];
    assert more == [more[0]] + more[1..];
    assert more[0] in es';
    forall name ensures HasName(es', name) <==> HasName(es, name) || more[0].name == Some(name) {
      if e :| e in es && e.name == Some(name) {
        assert e in es';
      }
    }
  }

  lemma AddedNames(data: seq<int>)
    ensures OwnNames(Added(data))
  {
    var more := Added(data);
    var chunks := ChunkEntries(B.Encode(data), 0);
    ChunkNames(B.Encode(data), 0);
    forall i, j | 0 <= i < j < |more| ensures more[j].name != more[i].name {
      if j >= 2 {
        assert more[j].name == chunks[j - 2].name == Some(ChunkName(j - 2));
        ChunkNameInjective(j - 2, if i >= 2 then i - 2 else j - 2);
        if i >= 2 {
          assert more[i].name == chunks[i - 2].name == Some(ChunkName(i - 2));
        }
      } else {
        assert DATALEN[6] == 'd' && ENCLEN[6] == 'e';
      }
    }
  }

  /** How many string entries a text takes. */
  lemma {:induction false} ChunkCount(text: string, i: nat)
    ensures |ChunkEntries(text, i)| == (|text| + CHUNK - 1) / CHUNK
    decreases |text|
  {
    if text != "" {
      var n := Min(CHUNK, |text|);
      ChunkCount(text[n..], i + 1);
      assert |ChunkEntries(text, i)| == 1 + |ChunkEntries(text[n..], i + 1)|;
      OneChunk(|text|);
    }
  }

  lemma OneChunk(n: nat)
    requires n > 0
    ensures 1 + (n - Min(CHUNK, n) + CHUNK - 1) / CHUNK == (n + CHUNK - 1) / CHUNK
  {
    if n < CHUNK {
      assert n - Min(CHUNK, n) == 0;
    }
  }

  /** Encoding succeeds exactly when there is room for all the entries and none of their names is taken; it
    * then leaves the entries there were as they are and puts its own behind them. */
  lemma EncodeSucceeds(es: seq<Entry>, data: seq<int>)
    requires |es| <= BRIDGE_PACKET_ENTRY_MAX
    ensures EncodeInto(es, data).code == OK <==> |es| + |Added(data)| <= 36 && Free(es, Added(data))
    ensures EncodeInto(es, data).code == OK ==> EncodeInto(es, data).es == es + Added(data)
  {
    hide AddAll, Free, ChunkEntries;
    AddedNames(data);
    AddAllFits(es, Added(data));
    AddedCount(data);
  }

  /** The first test refuses only what would not fit anyway. */
  lemma AddedCount(data: seq<int>)
    ensures |B.Encode(data)| / BPE_STR_LEN >= BRIDGE_PACKET_ENTRY_MAX - 1 ==> |Added(data)| > BRIDGE_PACKET_ENTRY_MAX
  {
    ChunkCount(B.Encode(data), 0);
  }

  /** Encoding data that is not empty and decoding at the same place gives it back, whatever is added later. */
  lemma EncodeThenDecode(es: seq<Entry>, data: seq<int>, later: seq<Entry>, room: nat)
    requires B.Bytes(data) && data != [] && |es| <= BRIDGE_PACKET_ENTRY_MAX && |data| <= room
    ensures var r := EncodeInto(es, data);
      r.code == OK ==> DecodeAt(r.es + later, |es|, Some(room)) == Data(data, |r.es|)
  {
    EncodeSucceeds(es, data);
    ChunkCount(B.Encode(data), 0);
    if EncodeInto(es, data).code == OK {
      DecodeAfterEncode(es, data, later, room);
    }
  }

  // ----- decoding -----

  datatype Collected = Got(text: string, off: nat, left: int) | NotString

  /** The decoder's loop: strings are taken until left, a size_t, is zero or the packet ends. */
  function Collect(es: seq<Entry>, off: nat, left: int): Collected
    decreases |es| - off
  {
    if left == 0 || off >= |es| then Got("", off, left)
    else if !es[off].typ.STR? || !es[off].val.VStr? then NotString
    else
      var s := es[off].val.s;
      match Collect(es, off + 1, (left - |s|) % TWO_64)
      case NotString => NotString
      case Got(text, o, l) => Got(s + text, o, l)
  }

  /** How bridgePacketBase64Decode ends: with a code, with the length asked for, with the data, or in the
    * assertion of a getter on an entry of another type. */
  datatype Decoded = Code(c: int, off: nat) | Length(n: int) | Data(d: seq<int>, off: nat) | AssertionFailed

  predicate IsUInt32(e: Entry) { e.typ.UI32? && e.val.VInt? }

  function DecodeAt(es: seq<Entry>, off: nat, room: Option<nat>): Decoded {
    if off >= |es| - 2 then Code(INVALIDARG, off)
    else if !IsUInt32(es[off]) then AssertionFailed
    else if room.None? then Length(es[off].val.i)
    else if es[off].val.i > room.value then Code(NOSPC, off)
    else if !IsUInt32(es[off + 1]) then AssertionFailed
    else
      match Collect(es, off + 2, es[off + 1].val.i)
      case NotString => AssertionFailed
      case Got(text, o, left) => Finish(text, o, left, es[off].val.i)
  }

  function Finish(text: string, off: nat, left: int, len: int): Decoded {
    if left != 0 then Code(INVALID, off)
    else
      match B.Decode(text)
      case None => Code(INVALID, off)
      case Some(d) => if |d| != len then Code(UNEXPECTED, off) else Data(d, off)
  }

  lemma {:induction false} ChunksCollected(es: seq<Entry>, off: nat, text: string, i: nat)
    requires |text| < TWO_64 && off + |ChunkEntries(text, i)| <= |es|
    requires es[off..off + |ChunkEntries(text, i)|] == ChunkEntries(text, i)
    ensures Collect(es, off, |text|) == Got(text, off + |ChunkEntries(text, i)|, 0)
    decreases |text|
  {
    hide ChunkName, ChunkEntries, Collect;
    if text == "" {
      NothingCollected(es, off, i);
    } else {
      var n := Min(CHUNK, |text|);
      FirstChunk(es, off, text, i);
      ChunksCollected(es, off + 1, text[n..], i + 1);
      OneCollected(es, off, |text|, text[..n]);
      assert text == text[..n] + text[n..];
    }
  }

  lemma NothingCollected(es: seq<Entry>, off: nat, i: nat)
    ensures ChunkEntries("", i) == [] && Collect(es, off, 0) == Got("", off, 0)
  {
  }

  /** A string is taken whole while it is no longer than what is left. */
  lemma OneCollected(es: seq<Entry>, off: nat, left: nat, s: string)
    requires off < |es| && es[off].typ.STR? && es[off].val == VStr(s) && |s| <= left && 0 < left < TWO_64
    ensures Collect(es, off, left) ==
      match Collect(es, off + 1, left - |s|)
      case NotString => NotString
      case Got(text, o, l) => Got(s + text, o, l)
  {
    assert (left - |s|) % TWO_64 == left - |s|;
  }

  lemma FirstChunk(es: seq<Entry>, off: nat, text: string, i: nat)
    requires text != "" && off + |ChunkEntries(text, i)| <= |es|
    requires es[off..off + |ChunkEntries(text, i)|] == ChunkEntries(text, i)
    ensures var n := Min(CHUNK, |text|); var rest := ChunkEntries(text[n..], i + 1);
      && |ChunkEntries(text, i)| == 1 + |rest| && es[off] == Entry(Some(ChunkName(i)), STR, VStr(text[..n]))
      && es[off + 1..off + 1 + |rest|] == rest
  {
    hide ChunkName;
    var n := Min(CHUNK, |text|);
    var x, rest := ChunkEntries(text, i), ChunkEntries(text[n..], i + 1);
    assert x == [Entry(Some(ChunkName(i)), STR, VStr(text[..n]))] + rest;
    assert es[off] == es[off..off + |x|][0] == x[0];
    assert es[off + 1..off + 1 + |rest|] == es[off..off + |x|][1..] == rest;
  }

  /** Data that is not empty comes back whatever stands before and after it, and the offset moves past exactly
    * the entries it takes. */
  lemma DecodeAfterEncode(before: seq<Entry>, data: seq<int>, after: seq<Entry>, room: nat)
    requires B.Bytes(data) && data != [] && |B.Encode(data)| < TWO_64 && |data| <= room
    ensures DecodeAt(before + Added(data) + after, |before|, Some(room)) == Data(data, |before| + |Added(data)|)
  {
    hide B.Encode, B.Decode, B.Bytes, ChunkEntries, Collect;
    var text := B.Encode(data);
    var chunks := ChunkEntries(text, 0);
    var es, off := before + Added(data) + after, |before|;
    B.RoundTrip(data);
    SomeText(data);
    assert Added(data)[2..] == chunks && |Added(data)| == 2 + |chunks|;
    assert es[off] == Added(data)[0] && es[off + 1] == Added(data)[1];
    assert es[off + 2..off + 2 + |chunks|] == chunks;
    ChunksCollected(es, off + 2, text, 0);
  }

  lemma SomeText(data: seq<int>)
    requires data != [] && B.Bytes(data)
    ensures B.Encode(data) != "" && |ChunkEntries(B.Encode(data), 0)| > 0
  {
    B.EncodingRead(data, 0);
    B.EmptyKept();
  }

  /** Empty data never comes back: with nothing behind it the decoder wants one entry more, and otherwise it
    * finds no text. */
  lemma EmptyNotDecoded(before: seq<Entry>, after: seq<Entry>, room: nat)
    ensures var r := DecodeAt(before + Added([]) + after, |before|, Some(room));
      r == if after == [] then Code(INVALIDARG, |before|) else Code(INVALID, |before| + 2)
  {
    var es, off := before + Added([]) + after, |before|;
    assert B.Encode([]) == "" && Added([]) == [Entry(Some(DATALEN), UI32, VInt(0)), Entry(Some(ENCLEN), UI32, VInt(0))];
    if after != [] {
      assert es[off] == Added([])[0] && es[off + 1] == Added([])[1];
      assert B.Kept("") == "";
    }
  }

  // ----- entry by entry -----

  lemma {:induction false} ChunkAt(text: string, i: nat, k: nat)
    requires k < |ChunkEntries(text, i)|
    ensures 8191 * k < |text|
    ensures ChunkEntries(text, i)[k] ==
      Entry(Some("base64data" + Decimal(i + k)), STR, VStr(text[8191 * k..Min(8191 * (k + 1), |text|)]))
    decreases k
  {
    hide Decimal;
    if k > 0 {
      var n := Min(CHUNK, |text|);
      ChunkAt(text[n..], i + 1, k - 1);
      assert text[n..][8191 * (k - 1)..Min(8191 * k, |text[n..]|)] == text[8191 * k..Min(8191 * (k + 1), |text|)];
    }
  }

  /** What is added for some data: its length, the length of its encoding, and the encoding in pieces of 8191
    * characters, numbered from 0. */
  lemma AddedExactly(data: seq<int>, k: nat)
    ensures var es, text := Added(data), B.Encode(data);
      && |es| == 2 + (|text| + 8190) / 8191
      && es[0] == Entry(Some("base64datalen"), UI32, VInt(|data|))
      && es[1] == Entry(Some("base64enclen"), UI32, VInt(|text|))
      && (k + 2 < |es| ==>
            8191 * k < |text| && es[k + 2] ==
              Entry(Some("base64data" + Decimal(k)), STR, VStr(text[8191 * k..Min(8191 * (k + 1), |text|)])))
  {
    hide Decimal, ChunkEntries, B.Encode;
    var text := B.Encode(data);
    ChunkCount(text, 0);
    if k < |ChunkEntries(text, 0)| {
      ChunkAt(text, 0, k);
    }
  }

  /** One entry is added behind the others, unless there are 36 or one has its name. */
  lemma OneAdded(es: seq<Entry>, e: Entry)
    ensures AddAll(es, [e]) ==
      if |es| >= 36 then Result(0x10, es)
      else if e.name.Some? && exists x :: x in es && x.name == e.name then Result(0x1b, es)
      else Result(0, es + [e])
  {
    assert [e][1..] == [];
    AddsNothing(es + [e]);
    if e.name.Some? && exists x :: x in es && x.name == e.name {
      var x :| x in es && x.name == e.name;
      assert x.name == Some(e.name.value);
    }
  }

  /** Entries are added up to the first there is no room for, or whose name is taken, and stay. */
  ghost predicate AddedUpTo(es: seq<Entry>, more: seq<Entry>, r: Result) {
    var k := |r.es| - |es|;
    && 0 <= k <= |more| && r.es == es + more[..k]
    && (k == |more| ==> r.code == 0)
    && (k < |more| && |r.es| >= 36 ==> r.code == 0x10)
    && (k < |more| && |r.es| < 36 ==>
          r.code == 0x1b && more[k].name.Some? && exists x :: x in r.es && x.name == more[k].name)
  }

  lemma {:induction false} AddAllExactly(es: seq<Entry>, more: seq<Entry>)
    ensures AddedUpTo(es, more, AddAll(es, more))
    decreases |more|
  {
    if more == [] {
      assert es + more[..0] == es;
    } else if |es| >= 36 {
      assert es + more[..0] == es;
    } else if more[0].name.Some? && HasName(es, more[0].name.value) {
      assert es + more[..0] == es;
      var x :| x in es && x.name == Some(more[0].name.value);
      assert x.name == more[0].name;
    } else {
      AddAllExactly(es + [more[0]], more[1..]);
      var r := AddAll(es + [more[0]], more[1..]);
      var k := |r.es| - |es|;
      assert es + [more[0]] + more[1..][..k - 1] == es + more[..k];
    }
  }

  /** The encoding of too much data is not begun; what does not fit, or clashes, is left half done. */
  lemma EncodeExactly(es: seq<Entry>, data: seq<int>)
    ensures |B.Encode(data)| / 8192 >= 35 ==> EncodeInto(es, data) == Result(0x10, es)
    ensures |B.Encode(data)| / 8192 < 35 ==> AddedUpTo(es, Added(data), EncodeInto(es, data))
  {
    hide AddAll, Added, B.Encode;
    AddAllExactly(es, Added(data));
  }

  lemma AddsNothing(es: seq<Entry>)
    ensures AddAll(es, []) == Result(0, es)
  {
  }

  /** The strings of the entries from a to b, one behind the other. */
  function Texts(es: seq<Entry>, a: nat, b: nat): string
    requires a <= b <= |es|
    decreases b - a
  {
    if a == b then "" else (if es[a].val.VStr? then es[a].val.s else "") + Texts(es, a + 1, b)
  }

  /** What a size_t holds once n has been taken off. */
  function Less(left: int, n: nat): int { (left - n) % 0x1_0000_0000_0000_0000 }

  lemma LessLess(left: int, a: nat, b: nat)
    ensures Less(Less(left, a), b) == Less(left, a + b) && 0 <= Less(left, a) < 0x1_0000_0000_0000_0000
    ensures 0 <= left < 0x1_0000_0000_0000_0000 ==> Less(left, 0) == left
  {
  }

  lemma CollectStep(es: seq<Entry>, off: nat, left: int)
    ensures Collect(es, off, left) ==
      if left == 0 || off >= |es| then Got("", off, left)
      else if !es[off].typ.STR? || !es[off].val.VStr? then NotString
      else
        match Collect(es, off + 1, Less(left, |es[off].val.s|))
        case NotString => NotString
        case Got(text, o, l) => Got(es[off].val.s + text, o, l)
  {
  }

  /** What is collected is the strings up to where as much has come as was announced, or up to the end. */
  lemma {:induction false} CollectMeans(es: seq<Entry>, off: nat, left: int)
    requires 0 <= left < 0x1_0000_0000_0000_0000 && off <= |es|
    ensures match Collect(es, off, left)
      case Got(text, o, l) =>
        && off <= o <= |es| && text == Texts(es, off, o) && (l == 0 || o == |es|)
        && (forall k :: off <= k < o ==> es[k].typ.STR? && es[k].val.VStr?)
        && l == Less(left, |text|) && (forall k :: off <= k < o ==> Less(left, |Texts(es, off, k)|) != 0)
      case NotString => exists k :: off <= k < |es| && !(es[k].typ.STR? && es[k].val.VStr?)
    decreases |es| - off
  {
    CollectStep(es, off, left);
    hide Collect, Less;
    LessLess(left, 0, 0);
    if left != 0 && off < |es| && es[off].typ.STR? && es[off].val.VStr? {
      var s := es[off].val.s;
      LessLess(left, |s|, 0);
      CollectMeans(es, off + 1, Less(left, |s|));
      var c := Collect(es, off + 1, Less(left, |s|));
      if c.Got? {
        LessLess(left, |s|, |c.text|);
        forall k | off <= k < c.off ensures Less(left, |Texts(es, off, k)|) != 0 {
          if k > off {
            LessLess(left, |s|, |Texts(es, off + 1, k)|);
          }
        }
      }
    }
  }

  /** How decoding at off into a buffer of room bytes ends, case by case. */
  lemma DecodedExactly(es: seq<Entry>, off: nat, room: nat)
    ensures var r := DecodeAt(es, off, Some(room));
      if off + 2 >= |es| then r == Code(0x15, off)
      else if !(es[off].typ.UI32? && es[off].val.VInt?) then r == AssertionFailed
      else if es[off].val.i > room then r == Code(0x10, off)
      else if !(es[off + 1].typ.UI32? && es[off + 1].val.VInt?) then r == AssertionFailed
      else
        match Collect(es, off + 2, es[off + 1].val.i)
        case NotString => r == AssertionFailed
        case Got(text, o, left) =>
          if left != 0 || B.Decode(text).None? then r == Code(0xd, o)
          else if |B.Decode(text).value| != es[off].val.i then r == Code(0x1c, o)
          else r == Data(B.Decode(text).value, o)
    ensures off + 2 < |es| && es[off].typ.UI32? && es[off].val.VInt? ==>
      DecodeAt(es, off, None) == Length(es[off].val.i)
  {
    hide Collect, B.Decode;
  }
}
