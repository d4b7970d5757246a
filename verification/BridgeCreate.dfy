/** createBridgePacketv as it runs: two pointers walk the format and the arguments, and entries are filled in. */
module BridgeCreate {
  import opened Base
  import opened Bridge
  import opened BridgeFormat
  import P = BridgePackets

  /** The call's arguments do not match its format, which C leaves undefined. */
  const UNDEFINED := -1

  class Cursor {
    const fmt: string
    const all: seq<Arg>
    var pos: nat
    var used: nat

    ghost predicate Valid()
      reads this
    {
      used <= |all|
    }

    ghost function Rest(): seq<Arg>
      reads this
      requires Valid()
    {
      all[used..]
    }

    constructor (fmt: string, all: seq<Arg>)
      ensures Valid() && this.fmt == fmt && this.all == all && pos == 0 && Rest() == all
    {
      this.fmt, this.all, pos, used := fmt, all, 0, 0;
    }

    /** The loop up to the next %: the name, or the end of the format, or a name that is too long. */
    method NextName() returns (r: Name)
      requires Valid()
      modifies this`pos
      ensures Valid() && r == ReadName(fmt, old(pos), "") && (r.Named? ==> pos == r.at)
    {
      var name := "";
      while CharAt(fmt, pos) != '%'
        invariant ReadName(fmt, pos, name) == ReadName(fmt, old(pos), "")
        decreases |fmt| - pos
      {
        var ch := CharAt(fmt, pos);
        if ch == '\0' {
          return End;
        }
        pos := pos + 1;
        if ch != ',' && ch != '=' {
          if |name| + 1 >= NAME_MAX {
            return TooLong;
          }
          name := name + [ch];
        }
      }
      pos := pos + 1;
      return Named(name, pos);
    }

    /** The number in front of a letter. */
    method NextNumber() returns (n: nat)
      modifies this`pos
      ensures ReadNumber(fmt, old(pos), 0) == Number(n, pos)
    {
      n := 0;
      while IsDigit(CharAt(fmt, pos))
        invariant ReadNumber(fmt, pos, n) == ReadNumber(fmt, old(pos), 0)
        decreases |fmt| - pos
      {
        n, pos := n * 10 + (CharAt(fmt, pos) as int - '0' as int), pos + 1;
      }
    }

    /** The switch behind the %, with its way back to itself. */
    method NextConv() returns (r: Conv)
      requires Valid()
      modifies this
      ensures Valid() && r == ReadConv(fmt, old(pos), old(Rest()), 0)
      ensures r.Conv? ==> pos == r.at && Rest() == r.args
    {
      hide Letter, TakeValue, ReadNumber;
      var n: nat := 0;
      while CharAt(fmt, pos) == '*' || IsDigit(CharAt(fmt, pos))
        invariant Valid() && ReadConv(fmt, pos, Rest(), n) == ReadConv(fmt, old(pos), old(Rest()), 0)
        decreases |fmt| - pos
      {
        if CharAt(fmt, pos) == '*' {
          if used == |all| || !all[used].AInt? || !(0 <= all[used].i < TWO_31) {
            return Undefined;
          }
          n, used, pos := all[used].i, used + 1, pos + 1;
        } else {
          n := NextNumber();
          if n >= NUMBER_MAX {
            return Undefined;
          }
        }
      }
      if pos >= |fmt| {
        return Bad;
      }
      var (t, len) := Letter(fmt, pos);
      if t.NONE? {
        return Bad;
      }
      match TakeValue(t, n, all[used..])
      case Refused => return Bad;
      case Mismatch => return Undefined;
      case Took(v) =>
        pos, used := pos + len, if used < |all| then used + 1 else used;
        return Conv(t, v, pos, all[used..]);
    }
  }

  /** One round of the outer loop: one entry more, or the end with a code. */
  method NextEntry(b: P.BridgePacket, cur: Cursor) returns (done: bool, res: int)
    requires b.Valid() && cur.Valid() && b.entrycnt < BRIDGE_PACKET_ENTRY_MAX
    modifies b`entrycnt, b.entry, cur
    ensures b.Valid() && cur.Valid()
    ensures var m := CreateFrom(cur.fmt, old(cur.pos), old(cur.Rest()), old(b.entry[..b.entrycnt]));
      if done then Ends(m, res, b.entry[..b.entrycnt])
      else b.entrycnt == old(b.entrycnt) + 1 && m == CreateFrom(cur.fmt, cur.pos, cur.Rest(), b.entry[..b.entrycnt])
  {
    hide ReadName, ReadConv;
    var name := cur.NextName();
    if name.End? {
      return true, OK;
    } else if name.TooLong? {
      return true, INVALIDARG;
    }
    var conv := cur.NextConv();
    if conv.Bad? {
      return true, INVALIDARG;
    } else if conv.Undefined? {
      return true, UNDEFINED;
    }
    b.entry[b.entrycnt] := Entry(NameOption(name.name), conv.t, conv.v);
    b.entrycnt := b.entrycnt + 1;
    assert b.entry[..b.entrycnt] == old(b.entry[..b.entrycnt]) + [Entry(NameOption(name.name), conv.t, conv.v)];
    return false, OK;
  }

  /** The code and the entries are those m stands for. */
  ghost predicate Ends(m: Made, res: int, es: seq<Entry>) {
    match m
    case Made(made) => res == OK && es == made
    case Error(code) => res == code && res != OK
    case NotDefined => res == UNDEFINED
  }

  method CreateBridgePacketV(fmt: string, args: seq<Arg>) returns (res: int, bp: P.BridgePacket?)
    ensures bp != null <==> res == OK
    ensures Ends(Create(fmt, args), res, if bp != null && bp.Valid() then bp.entry[..bp.entrycnt] else [])
    ensures bp != null ==> bp.Valid()
  {
    var b := new P.BridgePacket();
    var cur := new Cursor(fmt, args);
    hide CreateFrom;
    while b.entrycnt < BRIDGE_PACKET_ENTRY_MAX
      invariant b.Valid() && fresh(b) && fresh(b.entry) && fresh(cur) && cur.Valid() && cur.fmt == fmt
      invariant CreateFrom(fmt, cur.pos, cur.Rest(), b.entry[..b.entrycnt]) == Create(fmt, args)
      decreases BRIDGE_PACKET_ENTRY_MAX - b.entrycnt
    {
      var done;
      done, res := NextEntry(b, cur);
      if done {
        bp := if res == OK then b else null;
        return;
      }
    }
    TooMany(fmt, cur.pos, cur.Rest(), b.entry[..b.entrycnt]);
    return TOO_BIG, null;
  }

  lemma TooMany(fmt: string, i: nat, args: seq<Arg>, es: seq<Entry>)
    requires |es| >= BRIDGE_PACKET_ENTRY_MAX
    ensures CreateFrom(fmt, i, args, es) == Error(TOO_BIG)
  {
  }
}
