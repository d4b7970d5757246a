/** The general packet protocol on a PHIDUSB connection, and configuration tables on either kind. */
module GppUsb {
  import opened Gpp

  const UPGRADE_WRITE := 0x22
  const UPGRADE_DONE := 0x23
  const CONTINUED := 0x03

  /** A control transfer: its packet type and its bytes. */
  datatype Transfer = Transfer(kind: int, bytes: seq<byte>)

  // ----- firmware in chunks -----

  /** The bytes from a to b, after the low sixteen bits of a. */
  function Chunk(data: seq<byte>, a: nat, b: nat): seq<byte>
    requires a <= b <= |data|
  {
    [(a % 256) as byte, (a / 256 % 256) as byte] + data[a..b]
  }

  function Min(a: int, b: int): int { if a < b then a else b }

  /** Where the i-th chunk of m bytes begins. */
  function Offset(i: nat, m: nat): nat { i * m }

  lemma OffsetStep(i: nat, m: nat)
    ensures Offset(0, m) == 0 && Offset(i + 1, m) == Offset(i, m) + m
  {
  }

  /** The first k chunks of m bytes each, the last one shorter. */
  ghost predicate Chunks(data: seq<byte>, ts: seq<Transfer>, m: nat, k: nat) {
    && |ts| == k && (k > 0 ==> Offset(k - 1, m) < |data|)
    && forall i :: 0 <= i < k ==> ChunkAt(data, ts, m, i)
  }

  ghost predicate ChunkAt(data: seq<byte>, ts: seq<Transfer>, m: nat, i: nat) {
    && i < |ts| && Offset(i, m) <= |data|
    && ts[i] == Transfer(0x22, Chunk(data, Offset(i, m), Min(Offset(i, m) + m, |data|)))
  }

  /** What a receiver stores: every chunk's bytes at the offset in its first two bytes. */
  function Stored(t: Transfer): int
    requires |t.bytes| >= 2
  {
    t.bytes[0] as int + 256 * t.bytes[1] as int
  }

  /** The i-th chunk says where it belongs, as long as that fits sixteen bits. */
  predicate Placed(t: Transfer, i: nat, m: nat) {
    |t.bytes| >= 2 && (Stored(t) == Offset(i, m) <==> Offset(i, m) < 0x10000)
  }

  function Payloads(ts: seq<Transfer>): seq<byte> {
    if ts == [] then []
    else Payloads(ts[..|ts|-1]) + if |ts[|ts|-1].bytes| >= 2 then ts[|ts|-1].bytes[2..] else []
  }

  /** The chunks tile the data: their bytes are the data in order, and each is placed. */
  lemma {:induction false} ChunksTile(data: seq<byte>, ts: seq<Transfer>, m: nat, k: nat)
    requires Chunks(data, ts, m, k)
    ensures Payloads(ts) == data[..Min(Offset(k, m), |data|)]
    ensures forall i :: 0 <= i < k ==> Placed(ts[i], i, m)
  {
    hide Offset;
    forall i | 0 <= i < k ensures Placed(ts[i], i, m) {
      assert ChunkAt(data, ts, m, i);
      OffsetRead(Offset(i, m));
    }
    OffsetStep(0, m);
    if k > 0 {
      OffsetStep(k - 1, m);
      FewerChunks(data, ts, m, k);
      ChunksTile(data, ts[..k - 1], m, k - 1);
      assert ChunkAt(data, ts, m, k - 1);
    }
  }

  lemma FewerChunks(data: seq<byte>, ts: seq<Transfer>, m: nat, k: nat)
    requires Chunks(data, ts, m, k) && k > 0
    ensures Chunks(data, ts[..k - 1], m, k - 1)
  {
    hide Offset;
    var fewer := ts[..k - 1];
    forall i | 0 <= i < k - 1 ensures ChunkAt(data, fewer, m, i) {
      assert ChunkAt(data, ts, m, i);
    }
    if k > 1 {
      OffsetStep(k - 2, m);
    }
  }

  lemma OffsetRead(a: nat)
    ensures a % 256 + 256 * (a / 256 % 256) == a <==> a < 0x10000
  {
  }

  class UsbDevice {
    const answer: nat -> int
    var calls: nat
    var sent: seq<Transfer>

    constructor (answer: nat -> int)
      ensures sent == [] && this.answer == answer
    {
      this.answer, calls, sent := answer, 0, [];
    }

    method SendTransfer(kind: int, buffer: array<byte>, n: nat) returns (ret: int)
      requires n <= buffer.Length
      modifies this
      ensures sent == if ret == OK then old(sent) + [Transfer(kind, buffer[..n])] else old(sent)
      ensures calls == old(calls) + 1 && ret == answer(old(calls))
    {
      ret, calls := answer(calls), calls + 1;
      if ret == OK {
        sent := sent + [Transfer(kind, buffer[..n])];
      }
    }

    /** One chunk of the firmware: n bytes of it from offset on. */
    method SendChunk(buffer: array<byte>, data: seq<byte>, offset: nat, n: nat) returns (res: int)
      requires buffer.Length == MAX_OUT_PACKET_SIZE && n + 2 <= MAX_OUT_PACKET_SIZE && offset + n <= |data|
      modifies this, buffer
      ensures sent ==
        if res == OK then old(sent) + [Transfer(UPGRADE_WRITE, Chunk(data, offset, offset + n))] else old(sent)
      ensures calls == old(calls) + 1 && res == answer(old(calls))
    {
      buffer[0], buffer[1] := (offset % 256) as byte, (offset / 256 % 256) as byte;
      forall i | 0 <= i < n {
        buffer[2 + i] := data[offset + i];
      }
      assert buffer[..n + 2] == Chunk(data, offset, offset + n);
      res := SendTransfer(UPGRADE_WRITE, buffer, n + 2);
    }

    /** GPP_upgradeFirmware for PHIDUSB. */
    method UpgradeUsb(data: seq<byte>, maxPacket: nat) returns (res: int, ghost k: nat)
      requires sent == [] && 3 <= maxPacket <= MAX_OUT_PACKET_SIZE
      modifies this
      ensures res == OK ==>
        |sent| == k + 1 && sent[k] == Transfer(0x23, []) && Chunks(data, sent[..k], maxPacket - 2, k)
        && Offset(k, maxPacket - 2) >= |data|
      ensures res != OK ==> Chunks(data, sent, maxPacket - 2, k)
      ensures calls > old(calls) && res == answer(calls - 1)
    {
      hide Chunks, Chunk, Offset;
      var buffer := new byte[MAX_OUT_PACKET_SIZE](_ => 0);
      var offset, buflen := 0, maxPacket;
      ghost var m := maxPacket - 2;
      k := 0;
      NoChunks(data, m);
      OffsetStep(0, m);
      while offset < |data|
        invariant Chunks(data, sent, m, k) && |sent| == k && calls >= old(calls)
        invariant offset == Min(Offset(k, m), |data|) && buflen <= maxPacket
        invariant offset < |data| ==> buflen == maxPacket
        decreases |data| - offset
      {
        if |data| - offset < buflen - 2 {
          buflen := |data| - offset + 2;
        }
        ghost var before := sent;
        res := SendChunk(buffer, data, offset, buflen - 2);
        if res != OK {
          return;
        }
        ChunkSent(data, before, m, k, sent[|sent|-1]);
        OffsetStep(k, m);
        offset, k := offset + (buflen - 2), k + 1;
      }
      ghost var before := sent;
      res := SendTransfer(UPGRADE_DONE, buffer, 0);
      assert sent[..k] == before;
    }
  }

  lemma NoChunks(data: seq<byte>, m: nat)
    ensures Chunks(data, [], m, 0)
  {
  }

  lemma ChunkSent(data: seq<byte>, ts: seq<Transfer>, m: nat, k: nat, t: Transfer)
    requires Chunks(data, ts, m, k) && Offset(k, m) < |data|
    requires t == Transfer(0x22, Chunk(data, Offset(k, m), Min(Offset(k, m) + m, |data|)))
    ensures Chunks(data, ts + [t], m, k + 1)
  {
    hide Offset;
    forall i | 0 <= i < k + 1 ensures ChunkAt(data, ts + [t], m, i) {
      if i < k {
        assert ChunkAt(data, ts, m, i);
      }
    }
  }

  // ----- configuration tables -----

  /** What is left of each packet once its header is taken off: the first n bytes of the first, m of the rest. */
  function Rejoined(ps: seq<seq<byte>>, n: nat, m: nat): seq<byte> {
    if ps == [] then []
    else
      var p := ps[|ps|-1];
      var header := if |ps| == 1 then n else m;
      Rejoined(ps[..|ps|-1], n, m) + if |p| >= header then p[header..] else []
  }

  lemma RejoinedSnoc(ps: seq<seq<byte>>, p: seq<byte>, n: nat, m: nat)
    requires |p| >= if ps == [] then n else m
    ensures Rejoined(ps + [p], n, m) == Rejoined(ps, n, m) + p[if ps == [] then n else m..]
  {
    assert (ps + [p])[..|ps|] == ps;
  }

  /** The first packet carries the packet type and the table's index, the others only say that they go on. */
  ghost predicate Framed(ps: seq<seq<byte>>, packetType: nat, index: byte) {
    && (ps != [] ==> |ps[0]| >= 2 && ps[0][0] as int == 0x80 + packetType && ps[0][1] == index)
    && forall i :: 1 <= i < |ps| ==> |ps[i]| >= 1 && ps[i][0] == 0x83
  }

  lemma FramedSnoc(ps: seq<seq<byte>>, p: seq<byte>, packetType: nat, index: byte)
    requires Framed(ps, packetType, index)
    requires if ps == [] then |p| >= 2 && p[0] as int == 0x80 + packetType && p[1] == index
      else |p| >= 1 && p[0] == 0x83
    ensures Framed(ps + [p], packetType, index)
  {
    assert forall i :: 0 <= i < |ps| ==> (ps + [p])[i] == ps[i];
  }

  /** Every packet but the last is full. */
  ghost predicate Full(ps: seq<seq<byte>>, buflen: nat) {
    forall i :: 0 <= i < |ps| ==> |ps[i]| <= buflen && (i < |ps| - 1 ==> |ps[i]| == buflen)
  }

  lemma FullSnoc(ps: seq<seq<byte>>, p: seq<byte>, buflen: nat)
    requires Full(ps, buflen) && |p| <= buflen && (ps != [] ==> |ps[|ps| - 1]| == buflen)
    ensures Full(ps + [p], buflen)
  {
    assert forall i :: 0 <= i < |ps| ==> (ps + [p])[i] == ps[i];
  }

  /** Send the first n bytes of the buffer and as much of the data as fits behind them. */
  method SendPart(device: Device, buffer: array<byte>, n: nat, buflen: nat, data: seq<byte>, from: nat)
    returns (res: int, j: nat)
    requires buffer.Length == MAX_OUT_PACKET_SIZE && n <= buflen <= MAX_OUT_PACKET_SIZE && from <= |data|
    modifies device, buffer
    ensures from <= j <= |data| && n + (j - from) <= buflen && (j < |data| ==> n + (j - from) == buflen)
    ensures device.calls == old(device.calls) + 1 && res == device.answer(old(device.calls))
    ensures device.sent == if res == OK then old(device.sent) + [old(buffer[..n]) + data[from..j]] else old(device.sent)
  {
    var i;
    i, j := Device.Fill(buffer, n, buflen, data, from, |data|);
    assert buffer[..i] == buffer[..n] + buffer[n..i];
    res := device.SendPacket(buffer, i);
  }

  lemma PartJoined(ps: seq<seq<byte>>, header: seq<byte>, data: seq<byte>, from: nat, j: nat, n: nat, m: nat)
    requires from <= j <= |data| && Rejoined(ps, n, m) == data[..from] && |header| == if ps == [] then n else m
    ensures Rejoined(ps + [header + data[from..j]], n, m) == data[..j]
  {
    RejoinedSnoc(ps, header + data[from..j], n, m);
    assert (header + data[from..j])[|header|..] == data[from..j];
    assert data[..from] + data[from..j] == data[..j];
  }

  /** GPP_setConfigTable for HIDUSB and SPI. */
  method SetConfigTableHid(device: Device, data: seq<byte>, index: byte, packetType: nat, buflen: nat)
    returns (res: int)
    requires device.sent == [] && packetType < 0x80 && 2 <= buflen <= MAX_OUT_PACKET_SIZE
    modifies device
    ensures Rejoined(device.sent, 2, 1) <= data && Framed(device.sent, packetType, index) && Full(device.sent, buflen)
    ensures res == OK ==> Rejoined(device.sent, 2, 1) == data && device.sent != []
    ensures device.calls > old(device.calls) && res == device.answer(device.calls - 1)
  {
    hide Rejoined, Framed, Full, Sending;
    var buffer := new byte[MAX_OUT_PACKET_SIZE](_ => 0);
    buffer[0], buffer[1] := (FLAG + packetType) as byte, index;
    var j;
    ghost var header := buffer[..2];
    NothingSent(packetType, index, buflen);
    res, j := SendPart(device, buffer, 2, buflen, data, 0);
    if res != OK {
      return;
    }
    FirstSent(header, data, j, packetType, index, buflen);
    assert device.sent == [header + data[0..j]];
    while j < |data| && res == OK
      invariant res == OK && j <= |data| && Sending(device.sent, data, j, packetType, index, buflen)
      invariant device.calls > old(device.calls) && res == device.answer(device.calls - 1)
      decreases |data| - j
    {
      buffer[0] := CONTINUATION;
      header := buffer[..1];
      ghost var before, from := device.sent, j;
      SentSoFar(before, data, j, packetType, index, buflen);
      res, j := SendPart(device, buffer, 1, buflen, data, j);
      if res != OK {
        return;
      }
      NextSent(before, header, data, from, j, packetType, index, buflen);
    }
    SentSoFar(device.sent, data, j, packetType, index, buflen);
    assert data[..j] == data;
  }

  /** The first j bytes of the table have gone out, and if more are to come the last packet is full. */
  ghost predicate Sending(ps: seq<seq<byte>>, data: seq<byte>, j: nat, packetType: nat, index: byte, buflen: nat) {
    && j <= |data| && ps != [] && Rejoined(ps, 2, 1) == data[..j] && Framed(ps, packetType, index)
    && Full(ps, buflen) && (j < |data| ==> |ps[|ps| - 1]| == buflen)
  }

  lemma SentSoFar(ps: seq<seq<byte>>, data: seq<byte>, j: nat, packetType: nat, index: byte, buflen: nat)
    requires Sending(ps, data, j, packetType, index, buflen)
    ensures j <= |data| && ps != [] && Rejoined(ps, 2, 1) == data[..j] && data[..j] <= data
    ensures Framed(ps, packetType, index) && Full(ps, buflen)
  {
  }

  lemma FirstSent(header: seq<byte>, data: seq<byte>, j: nat, packetType: nat, index: byte, buflen: nat)
    requires j <= |data| && 2 + j <= buflen && (j < |data| ==> 2 + j == buflen)
    requires |header| == 2 && header[0] as int == 0x80 + packetType && header[1] == index
    ensures Sending([header + data[0..j]], data, j, packetType, index, buflen)
  {
    hide Rejoined, Framed, Full;
    NothingSent(packetType, index, buflen);
    PartJoined([], header, data, 0, j, 2, 1);
    FramedSnoc([], header + data[0..j], packetType, index);
    FullSnoc([], header + data[0..j], buflen);
    assert [] + [header + data[0..j]] == [header + data[0..j]];
  }

  lemma NextSent(ps: seq<seq<byte>>, header: seq<byte>, data: seq<byte>, from: nat, j: nat, packetType: nat,
                 index: byte, buflen: nat)
    requires Sending(ps, data, from, packetType, index, buflen) && from < |data|
    requires from <= j <= |data| && 1 + (j - from) <= buflen && (j < |data| ==> 1 + (j - from) == buflen)
    requires |header| == 1 && header[0] == 0x83
    ensures Sending(ps + [header + data[from..j]], data, j, packetType, index, buflen)
  {
    hide Rejoined, Framed, Full;
    PartJoined(ps, header, data, from, j, 2, 1);
    FramedSnoc(ps, header + data[from..j], packetType, index);
    FullSnoc(ps, header + data[from..j], buflen);
  }

  lemma NothingSent(packetType: nat, index: byte, buflen: nat)
    ensures Rejoined([], 2, 1) == [] && Framed([], packetType, index) && Full([], buflen)
  {
  }

  function Bytes(ts: seq<Transfer>): (r: seq<seq<byte>>)
    ensures |r| == |ts|
  {
    if ts == [] then [] else Bytes(ts[..|ts|-1]) + [ts[|ts|-1].bytes]
  }

  /** The first transfer has the table's packet type and index, the others the type of a continuation. */
  ghost predicate Kinds(ts: seq<Transfer>, packetType: int, index: byte) {
    && (ts != [] ==> |ts[0].bytes| >= 1 && ts[0].bytes[0] == index)
    && forall i :: 0 <= i < |ts| ==> ts[i].kind == if i == 0 then packetType else 0x03
  }

  method SendUsbPart(device: UsbDevice, kind: int, buffer: array<byte>, n: nat, maxPacket: nat, data: seq<byte>,
                     from: nat)
    returns (res: int, j: nat)
    requires buffer.Length == MAX_OUT_PACKET_SIZE && n <= maxPacket <= MAX_OUT_PACKET_SIZE && from <= |data|
    modifies device, buffer
    ensures from <= j <= |data| && n + (j - from) <= maxPacket && (j < |data| ==> n + (j - from) == maxPacket)
    ensures device.calls == old(device.calls) + 1 && res == device.answer(old(device.calls))
    ensures device.sent ==
      if res == OK then old(device.sent) + [Transfer(kind, old(buffer[..n]) + data[from..j])] else old(device.sent)
    ensures Bytes(device.sent) ==
      if res == OK then old(Bytes(device.sent)) + [old(buffer[..n]) + data[from..j]] else old(Bytes(device.sent))
  {
    var i;
    i, j := Device.Fill(buffer, n, maxPacket, data, from, |data|);
    assert buffer[..i] == buffer[..n] + buffer[n..i];
    res := device.SendTransfer(kind, buffer, i);
    assert res == OK ==> device.sent[..|device.sent|-1] == old(device.sent);
  }

  /** The same on PHIDUSB, where continuations are told by their packet type and need no header. */
  method SetConfigTableUsb(device: UsbDevice, data: seq<byte>, index: byte, packetType: int, maxPacket: nat)
    returns (res: int)
    requires device.sent == [] && 1 <= maxPacket <= MAX_OUT_PACKET_SIZE
    modifies device
    ensures Rejoined(Bytes(device.sent), 1, 0) <= data && Kinds(device.sent, packetType, index)
    ensures Full(Bytes(device.sent), maxPacket)
    ensures res == OK ==> Rejoined(Bytes(device.sent), 1, 0) == data && device.sent != []
    ensures device.calls > old(device.calls) && res == device.answer(device.calls - 1)
  {
    hide Bytes, Rejoined, Full, Kinds, UsbSending;
    var buffer := new byte[MAX_OUT_PACKET_SIZE](_ => 0);
    buffer[0] := index;
    var j;
    ghost var header := buffer[..1];
    BytesEmpty(packetType, index, maxPacket);
    res, j := SendUsbPart(device, packetType, buffer, 1, maxPacket, data, 0);
    if res != OK {
      return;
    }
    FirstTransfer(header, data, j, packetType, index, maxPacket);
    assert device.sent == [Transfer(packetType, header + data[0..j])];
    while j < |data| && res == OK
      invariant res == OK && j <= |data| && UsbSending(device.sent, data, j, packetType, index, maxPacket)
      invariant device.calls > old(device.calls) && res == device.answer(device.calls - 1)
      decreases |data| - j
    {
      ghost var before, from := device.sent, j;
      TransfersSoFar(before, data, j, packetType, index, maxPacket);
      res, j := SendUsbPart(device, CONTINUED, buffer, 0, maxPacket, data, j);
      if res != OK {
        return;
      }
      assert buffer[..0] + data[from..j] == data[from..j];
      NextTransfer(before, data, from, j, packetType, index, maxPacket);
    }
    TransfersSoFar(device.sent, data, j, packetType, index, maxPacket);
    assert data[..j] == data;
  }

  /** The first j bytes of the table have gone out, and if more are to come the last transfer is full. */
  ghost predicate UsbSending(ts: seq<Transfer>, data: seq<byte>, j: nat, packetType: int, index: byte, maxPacket: nat) {
    && j <= |data| && ts != [] && Rejoined(Bytes(ts), 1, 0) == data[..j] && Kinds(ts, packetType, index)
    && Full(Bytes(ts), maxPacket) && (j < |data| ==> |Bytes(ts)[|ts| - 1]| == maxPacket)
  }

  lemma TransfersSoFar(ts: seq<Transfer>, data: seq<byte>, j: nat, packetType: int, index: byte, maxPacket: nat)
    requires UsbSending(ts, data, j, packetType, index, maxPacket)
    ensures j <= |data| && ts != [] && Rejoined(Bytes(ts), 1, 0) == data[..j] && data[..j] <= data
    ensures Kinds(ts, packetType, index) && Full(Bytes(ts), maxPacket)
  {
  }

  lemma BytesSnoc(ts: seq<Transfer>, t: Transfer)
    ensures Bytes(ts + [t]) == Bytes(ts) + [t.bytes]
  {
    assert (ts + [t])[..|ts|] == ts;
  }

  lemma FirstTransfer(header: seq<byte>, data: seq<byte>, j: nat, packetType: int, index: byte, maxPacket: nat)
    requires j <= |data| && 1 + j <= maxPacket && (j < |data| ==> 1 + j == maxPacket)
    requires |header| == 1 && header[0] == index
    ensures UsbSending([Transfer(packetType, header + data[0..j])], data, j, packetType, index, maxPacket)
  {
    hide Rejoined, Full;
    var bytes := header + data[0..j];
    BytesEmpty(packetType, index, maxPacket);
    BytesSnoc([], Transfer(packetType, bytes));
    assert [] + [Transfer(packetType, bytes)] == [Transfer(packetType, bytes)] && [] + [bytes] == [bytes];
    PartJoined([], header, data, 0, j, 1, 0);
    FullSnoc([], bytes, maxPacket);
  }

  lemma NextTransfer(ts: seq<Transfer>, data: seq<byte>, from: nat, j: nat, packetType: int, index: byte,
                     maxPacket: nat)
    requires UsbSending(ts, data, from, packetType, index, maxPacket) && from < |data|
    requires from <= j <= |data| && j - from <= maxPacket && (j < |data| ==> j - from == maxPacket)
    ensures UsbSending(ts + [Transfer(0x03, data[from..j])], data, j, packetType, index, maxPacket)
  {
    hide Rejoined, Full, Bytes;
    BytesSnoc(ts, Transfer(0x03, data[from..j]));
    PartJoined(Bytes(ts), [], data, from, j, 1, 0);
    assert [] + data[from..j] == data[from..j];
    FullSnoc(Bytes(ts), data[from..j], maxPacket);
  }

  lemma BytesEmpty(packetType: int, index: byte, maxPacket: nat)
    ensures Bytes([]) == [] && Rejoined([], 1, 0) == [] && Full([], maxPacket) && Kinds([], packetType, index)
  {
  }
}
