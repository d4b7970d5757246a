/** The general packet protocol: firmware and configuration tables cut into packets, and what a receiver makes
  * of the packets. */
module Gpp {

  newtype byte = x: int | 0 <= x < 256

  const MAX_OUT_PACKET_SIZE := 128
  const SECTOR := 0x1000

  // The packet types, with the top bit that marks a general packet where the transport needs it.
  const FLAG := 0x80
  const CONTINUATION: byte := 0x83
  const WRITE_SECTOR: byte := 0x86

  const OK := 0

  /** A sector as the receiver has it: its number, the length its header announced and its bytes so far. */
  datatype Sector = Sector(index: int, length: int, payload: seq<byte>)

  /** One packet more: a header begins a sector, a continuation goes on with it. */
  function Receive1(rs: seq<Sector>, p: seq<byte>): seq<Sector> {
    if |p| >= 4 && p[0] == 0x86 then
      rs + [Sector(p[1] as int, p[2] as int + 256 * p[3] as int, p[4..])]
    else if |p| >= 1 && p[0] == 0x83 && rs != [] then
      rs[..|rs|-1] + [rs[|rs|-1].(payload := rs[|rs|-1].payload + p[1..])]
    else rs
  }

  function Receive(ps: seq<seq<byte>>): seq<Sector> {
    if ps == [] then [] else Receive1(Receive(ps[..|ps|-1]), ps[|ps|-1])
  }

  /** All the bytes received, in order. */
  function Joined(rs: seq<Sector>): seq<byte> {
    if rs == [] then [] else Joined(rs[..|rs|-1]) + rs[|rs|-1].payload
  }

  lemma ReceiveSnoc(ps: seq<seq<byte>>, p: seq<byte>)
    ensures Receive(ps + [p]) == Receive1(Receive(ps), p)
  {
    assert (ps + [p])[..|ps|] == ps;
  }

  /** How many sectors the firmware takes; the nibble mask keeps four bits of the count. */
  function Count(n: nat): nat { n % 0x10000 / 0x1000 + 1 }

  /** Where the k-th sector sent begins: the odd bytes go first, then whole sectors. */
  function Start(n: nat, k: nat): nat { if k == 0 then 0 else n % 0x1000 + (k - 1) * 0x1000 }

  lemma StartAtEnd(n: nat)
    ensures Start(n, Count(n)) == n % 0x10000
    ensures forall k :: 0 <= k <= Count(n) ==> Start(n, k) <= n % 0x10000 <= n
  {
    assert n % 0x10000 % 0x1000 == n % 0x1000;
  }

  /** The k-th sector of the firmware data: its number counts down to 1, and its header announces its length, or a
    * whole sector when the length of the data does not fit sixteen bits. */
  function Expected(data: seq<byte>, k: nat): Sector
    requires k < Count(|data|)
  {
    StartAtEnd(|data|);
    var payload := data[Start(|data|, k)..Start(|data|, k + 1)];
    Sector(Count(|data|) - k, if |data| < 0x10000 then |payload| else 0x1000, payload)
  }

  /** The sectors received so far are the first k of the data. */
  ghost predicate Sectors(data: seq<byte>, rs: seq<Sector>, k: nat) {
    |rs| == k <= Count(|data|) && forall i :: 0 <= i < k ==> rs[i] == Expected(data, i)
  }

  lemma {:induction false} SectorsJoin(data: seq<byte>, rs: seq<Sector>, k: nat)
    requires Sectors(data, rs, k)
    ensures Start(|data|, k) <= |data| && Joined(rs) == data[..Start(|data|, k)]
  {
    StartAtEnd(|data|);
    if k > 0 {
      assert Sectors(data, rs[..k - 1], k - 1) by {
        assert forall i :: 0 <= i < k - 1 ==> rs[..k - 1][i] == rs[i];
      }
      SectorsJoin(data, rs[..k - 1], k - 1);
      assert rs[k - 1].payload == data[Start(|data|, k - 1)..Start(|data|, k)];
    }
  }

  lemma SectorsSnoc(data: seq<byte>, rs: seq<Sector>, k: nat, r: Sector)
    requires Sectors(data, rs, k) && k < Count(|data|) && r == Expected(data, k)
    ensures Sectors(data, rs + [r], k + 1)
  {
    assert forall i :: 0 <= i < k ==> (rs + [r])[i] == rs[i];
  }

  /** The first packet of a sector, and one that goes on with it. */
  lemma HeaderReceived(sent: seq<seq<byte>>, done: seq<Sector>, p: seq<byte>, index: int, length: int,
                       payload: seq<byte>)
    requires Receive(sent) == done && |p| >= 4 && p[0] == 0x86 && p[1] as int == index
    requires p[2] as int + 256 * p[3] as int == length && p[4..] == payload
    ensures Receive(sent + [p]) == done + [Sector(index, length, payload)]
  {
    ReceiveSnoc(sent, p);
  }

  lemma ContinuationReceived(sent: seq<seq<byte>>, done: seq<Sector>, cur: Sector, p: seq<byte>)
    requires Receive(sent) == done + [cur] && |p| >= 1 && p[0] == 0x83
    ensures Receive(sent + [p]) == done + [cur.(payload := cur.payload + p[1..])]
  {
    ReceiveSnoc(sent, p);
  }

  /** What a receiver has when sending stops in the middle of the k-th sector, at byte j. */
  ghost predicate Upto(data: seq<byte>, rs: seq<Sector>, k: nat, j: nat, length: int) {
    && rs != [] && Sectors(data, rs[..|rs|-1], k) && k < Count(|data|)
    && Start(|data|, k) <= j <= Start(|data|, k + 1) <= |data|
    && rs[|rs|-1] == Sector(Count(|data|) - k, length, data[Start(|data|, k)..j])
  }

  lemma UptoJoins(data: seq<byte>, rs: seq<Sector>, k: nat, j: nat, length: int)
    requires Upto(data, rs, k, j, length)
    ensures Joined(rs) == data[..j]
  {
    SectorsJoin(data, rs[..|rs|-1], k);
    assert data[..Start(|data|, k)] + data[Start(|data|, k)..j] == data[..j];
  }

  /** The packet has no room left: a header takes four bytes of a packet whatever its size. */
  predicate Packed(p: seq<byte>, buflen: nat) {
    p != [] && |p| == if p[0] == 0x86 && buflen < 4 then 4 else buflen
  }

  /** A sector is continued in another packet only when the last one is full. */
  ghost predicate Tight(ps: seq<seq<byte>>, buflen: nat) {
    && (forall i :: 0 <= i < |ps| ==> ps[i] != [] && |ps[i]| <= if ps[i][0] == 0x86 && buflen < 4 then 4 else buflen)
    && (forall i :: 0 < i < |ps| && ps[i][0] == 0x83 ==> Packed(ps[i - 1], buflen))
  }

  lemma TightSnoc(ps: seq<seq<byte>>, p: seq<byte>, buflen: nat)
    requires Tight(ps, buflen) && p != [] && |p| <= if p[0] == 0x86 && buflen < 4 then 4 else buflen
    requires p[0] == 0x83 && ps != [] ==> Packed(ps[|ps| - 1], buflen)
    ensures Tight(ps + [p], buflen)
  {
    hide Packed;
    forall i | 0 < i <= |ps| && (ps + [p])[i][0] == 0x83 ensures Packed((ps + [p])[i - 1], buflen) {
      if i < |ps| {
        assert ps[i][0] == 0x83;
      }
    }
  }

  lemma ContinuationFits(sent: seq<seq<byte>>, p: seq<byte>, buflen: nat)
    requires Receive(sent) != [] && |p| >= 1 && p[0] == 0x83 && |p| <= buflen
    requires Tight(sent, buflen) && sent != [] && Packed(sent[|sent| - 1], buflen)
    ensures Tight(sent + [p], buflen) && (|p| == buflen ==> Packed(p, buflen))
    ensures var rs := Receive(sent); var cur := rs[|rs| - 1];
      Receive(sent + [p]) == rs[..|rs| - 1] + [cur.(payload := cur.payload + p[1..])]
  {
    var rs := Receive(sent);
    ContinuationReceived(sent, rs[..|rs| - 1], rs[|rs| - 1], p);
    TightSnoc(sent, p, buflen);
  }

  class Device {
    // the answers to the packets sent, in order
    const answer: nat -> int
    var calls: nat
    var sent: seq<seq<byte>>

    constructor (answer: nat -> int)
      ensures sent == [] && this.answer == answer
    {
      this.answer, calls, sent := answer, 0, [];
    }

    /** Every answer from the from-th to the last was OK. */
    ghost predicate AllSent(from: nat)
      reads this
    {
      forall n :: from <= n < calls ==> answer(n) == OK
    }

    method SendPacket(buffer: array<byte>, n: nat) returns (ret: int)
      requires n <= buffer.Length
      modifies this
      ensures sent == if ret == OK then old(sent) + [buffer[..n]] else old(sent)
      ensures calls == old(calls) + 1 && ret == answer(old(calls))
    {
      ret, calls := answer(calls), calls + 1;
      if ret == OK {
        sent := sent + [buffer[..n]];
      }
    }

    /** Copy data into a packet from position i on, until the packet or the data is full. */
    static method Fill(buffer: array<byte>, from: nat, buflen: nat, data: seq<byte>, start: nat, end: nat)
      returns (i: nat, j: nat)
      requires from <= buffer.Length && buflen <= buffer.Length && start <= end <= |data|
      modifies buffer
      ensures from <= i <= buffer.Length && start <= j <= end && i - from == j - start
      ensures buffer[..from] == old(buffer[..from]) && buffer[from..i] == data[start..j]
      ensures j < end ==> i >= buflen
      ensures i <= from || i <= buflen
    {
      i, j := from, start;
      while i < buflen && j < end
        invariant from <= i <= buffer.Length && start <= j <= end && i - from == j - start
        invariant buffer[..from] == old(buffer[..from]) && buffer[from..i] == data[start..j]
        invariant i <= from || i <= buflen
      {
        ghost var done := buffer[from..i];
        buffer[i] := data[j];
        assert buffer[from..i + 1] == done + [data[j]] && data[start..j + 1] == data[start..j] + [data[j]];
        i, j := i + 1, j + 1;
      }
    }

    /** The first packet of a sector: its number, its length and the first bytes. */
    method SendHeader(buffer: array<byte>, data: seq<byte>, buflen: nat, start: nat, index: nat, length: nat,
                      indexEnd: nat)
      returns (res: int, j: nat)
      requires buffer.Length == MAX_OUT_PACKET_SIZE && 2 <= buflen <= MAX_OUT_PACKET_SIZE
      requires start <= indexEnd <= |data| && index < 256 && length < 0x10000
      modifies this, buffer
      ensures start <= j <= indexEnd && calls == old(calls) + 1 && res == answer(old(calls))
      ensures old(Tight(sent, buflen)) ==> Tight(sent, buflen)
      ensures res == OK && j < indexEnd ==> sent != [] && Packed(sent[|sent| - 1], buflen)
      ensures if res == OK then Receive(sent) == Receive(old(sent)) + [Sector(index, length, data[start..j])]
        else sent == old(sent)
    {
      buffer[0], buffer[1], buffer[2], buffer[3] :=
        WRITE_SECTOR, index as byte, (length % 256) as byte, (length / 256) as byte;
      var i;
      i, j := Fill(buffer, 4, buflen, data, start, indexEnd);
      assert buffer[..4][0] == WRITE_SECTOR;
      ghost var p := buffer[..i];
      assert p[..4] == buffer[..4] && p[4..] == buffer[4..i];
      HeaderReceived(sent, Receive(sent), p, index, length, data[start..j]);
      if Tight(sent, buflen) {
        TightSnoc(sent, p, buflen);
      }
      res := SendPacket(buffer, i);
    }

    /** The rest of a sector's bytes. */
    method SendMore(buffer: array<byte>, data: seq<byte>, buflen: nat, from: nat, indexEnd: nat)
      returns (res: int, j: nat)
      requires buffer.Length == MAX_OUT_PACKET_SIZE && 2 <= buflen <= MAX_OUT_PACKET_SIZE
      requires from < indexEnd <= |data| && Receive(sent) != []
      requires Tight(sent, buflen) && sent != [] && Packed(sent[|sent| - 1], buflen)
      modifies this, buffer
      ensures Tight(sent, buflen)
      ensures res == OK && j < indexEnd ==> sent != [] && Packed(sent[|sent| - 1], buflen)
      ensures from < j <= indexEnd && calls == old(calls) + 1 && res == answer(old(calls))
      ensures var rs := Receive(old(sent)); var cur := rs[|rs|-1];
        if res == OK then Receive(sent) == rs[..|rs|-1] + [cur.(payload := cur.payload + data[from..j])]
        else sent == old(sent)
    {
      hide Receive, Tight, Packed;
      buffer[0] := CONTINUATION;
      var i;
      i, j := Fill(buffer, 1, buflen, data, from, indexEnd);
      ghost var p := buffer[..i];
      assert buffer[..1][0] == CONTINUATION && p[..1] == buffer[..1] && p[1..] == buffer[1..i];
      ContinuationFits(sent, p, buflen);
      res := SendPacket(buffer, i);
    }

    /** The continuations of the k-th sector, from byte from on.  got is how far the receiver has come. */
    method SendRest(buffer: array<byte>, data: seq<byte>, buflen: nat, from: nat, indexEnd: nat, ghost k: nat,
                    ghost length: int)
      returns (res: int, ghost got: nat)
      requires buffer.Length == MAX_OUT_PACKET_SIZE && 2 <= buflen <= MAX_OUT_PACKET_SIZE
      requires Upto(data, Receive(sent), k, from, length) && indexEnd == Start(|data|, k + 1)
      requires Tight(sent, buflen) && (from < indexEnd ==> sent != [] && Packed(sent[|sent| - 1], buflen))
      modifies this, buffer
      ensures Tight(sent, buflen)
      ensures Upto(data, Receive(sent), k, got, length) && (res == OK ==> got == indexEnd)
      ensures calls >= old(calls) && (res == OK <==> AllSent(old(calls)))
    {
      hide Sectors, Receive, Tight, Packed;
      var j := from;
      got, res := from, OK;
      while j < indexEnd && res == OK
        invariant j <= indexEnd && calls >= old(calls) && (res == OK <==> AllSent(old(calls)))
        invariant Upto(data, Receive(sent), k, got, length) && (res == OK ==> got == j)
        invariant Tight(sent, buflen) && (j < indexEnd ==> sent != [] && Packed(sent[|sent| - 1], buflen))
        decreases indexEnd - j, if res == OK then 1 else 0
      {
        res, j := SendMore(buffer, data, buflen, j, indexEnd);
        if res != OK {
          return;
        }
        assert data[Start(|data|, k)..got] + data[got..j] == data[Start(|data|, k)..j];
        got := j;
      }
    }

    /** The packets of one sector: the k-th sent, whose bytes end at indexEnd. */
    method SendSector(buffer: array<byte>, data: seq<byte>, buflen: nat, start: nat, index: nat, indexEnd: nat,
                      ghost k: nat)
      returns (res: int, ghost got: nat, ghost length: int)
      requires buffer.Length == MAX_OUT_PACKET_SIZE && 2 <= buflen <= MAX_OUT_PACKET_SIZE
      requires Sectors(data, Receive(sent), k) && k < Count(|data|) && index == Count(|data|) - k
      requires start == Start(|data|, k) && indexEnd == Start(|data|, k + 1) && Tight(sent, buflen)
      modifies this, buffer
      ensures Tight(sent, buflen)
      ensures if res == OK then got == indexEnd && Upto(data, Receive(sent), k, got, length)
              else sent == old(sent) || Upto(data, Receive(sent), k, got, length)
      ensures length == if |data| < 0x10000 then indexEnd - start else 0x1000
      ensures calls > old(calls) && (res == OK <==> AllSent(old(calls)))
    {
      hide Sectors, Receive, Upto, Tight, Packed;
      StartAtEnd(|data|);
      LengthFits(|data|, k);
      var secLength := |data| - (index - 1) * SECTOR;
      if secLength > SECTOR {
        secLength := SECTOR;
      }
      length, got := secLength, start;
      ghost var done := Receive(sent);
      var j;
      res, j := SendHeader(buffer, data, buflen, start, index, secLength, indexEnd);
      if res != OK {
        return;
      }
      UptoIs(data, done, k, j, length);
      res, got := SendRest(buffer, data, buflen, j, indexEnd, k, length);
    }

    /** GPP_upgradeFirmware for HIDUSB and SPI: the sectors, the last one first.  The result of the last send is
      * replaced by the device's response.  The transfer is complete exactly if no send failed. */
    method UpgradeHid(data: seq<byte>, buflen: nat, response: int) returns (res: int, ghost complete: bool)
      requires sent == [] && 2 <= buflen <= MAX_OUT_PACKET_SIZE
      modifies this
      ensures res == response
      ensures Joined(Receive(sent)) <= data && Tight(sent, buflen)
      ensures complete ==> Sectors(data, Receive(sent), Count(|data|))
      ensures complete <==> AllSent(old(calls))
    {
      hide Receive, Tight, Count, Start, Packed;
      var buffer := new byte[MAX_OUT_PACKET_SIZE](_ => 0);
      var index, indexEnd, start := |data| % 0x10000 / SECTOR + 1, |data| % SECTOR, 0;
      ghost var k := 0;
      NothingReceived(data, buflen);
      StartAtEnd(|data|);
      FirstSectors(|data|);
      while index > 0
        invariant k == Count(|data|) - index && start == Start(|data|, k) && indexEnd == Start(|data|, k + 1)
        invariant Sectors(data, Receive(sent), k) && calls >= old(calls) && AllSent(old(calls)) && Tight(sent, buflen)
      {
        SectorsJoin(data, Receive(sent), k);
        ghost var got, length;
        res, got, length := SendSector(buffer, data, buflen, start, index, indexEnd, k);
        if res != OK {
          if Upto(data, Receive(sent), k, got, length) {
            UptoJoins(data, Receive(sent), k, got, length);
          }
          return response, false;
        }
        SectorDone(data, Receive(sent), k, indexEnd, length);
        NextStart(|data|, k);
        start, index, indexEnd, k := indexEnd, index - 1, indexEnd + SECTOR, k + 1;
      }
      SectorsJoin(data, Receive(sent), k);
      return response, true;
    }
  }

  lemma FirstSectors(n: nat)
    ensures Start(n, 0) == 0 && Start(n, 1) == n % SECTOR && Count(n) == n % 0x10000 / SECTOR + 1
  {
  }

  lemma NextStart(n: nat, k: nat)
    ensures Start(n, k + 2) == Start(n, k + 1) + SECTOR
  {
  }

  lemma NothingReceived(data: seq<byte>, buflen: nat)
    ensures Sectors(data, Receive([]), 0) && Tight([], buflen)
  {
  }

  lemma UptoIs(data: seq<byte>, done: seq<Sector>, k: nat, j: nat, length: int)
    requires Sectors(data, done, k) && k < Count(|data|) && Start(|data|, k) <= j <= Start(|data|, k + 1) <= |data|
    ensures Upto(data, done + [Sector(Count(|data|) - k, length, data[Start(|data|, k)..j])], k, j, length)
  {
    assert (done + [Sector(Count(|data|) - k, length, data[Start(|data|, k)..j])])[..|done|] == done;
  }

  lemma SectorDone(data: seq<byte>, rs: seq<Sector>, k: nat, end: nat, length: int)
    requires Upto(data, rs, k, end, length) && end == Start(|data|, k + 1)
    requires length == if |data| < 0x10000 then end - Start(|data|, k) else 0x1000
    ensures Sectors(data, rs, k + 1)
  {
    SectorsSnoc(data, rs[..|rs|-1], k, rs[|rs|-1]);
    assert rs == rs[..|rs|-1] + [rs[|rs|-1]];
  }

  /** A complete transfer of less than 0x10000 bytes carries all of them: one sector for every 0x1000 bytes and one
    * more, the odd bytes in the first and 0x1000 bytes in each of the others, numbered down to 1, every header
    * announcing the bytes up to the next one.  Of longer data only the first part arrives. */
  lemma CompleteTransfer(data: seq<byte>, rs: seq<Sector>)
    requires Sectors(data, rs, Count(|data|))
    ensures Joined(rs) == data <==> |data| < 0x10000
    ensures Joined(rs) == data[..|data| % 0x10000]
    ensures |data| < 0x10000 ==>
      && |rs| == |data| / 0x1000 + 1
      && forall i :: 0 <= i < |rs| ==>
        && rs[i].length == |rs[i].payload| == (if i == 0 then |data| % 0x1000 else 0x1000)
        && rs[i].index == |rs| - i
  {
    SectorsJoin(data, rs, Count(|data|));
    StartAtEnd(|data|);
  }

  /** The header's length field: what is left of the data above the sectors still to come, or a whole sector. */
  lemma LengthFits(n: nat, k: nat)
    requires k < Count(n)
    ensures Count(n) - k <= 16
    ensures var left := n - (Count(n) - k - 1) * SECTOR;
      left >= 0 &&
      (if left > SECTOR then SECTOR else left) == if n < 0x10000 then Start(n, k + 1) - Start(n, k) else 0x1000
  {
  }
}
