/** The objects behind the step system: a phidget's flag word and reference count, and the entry pool.  Each
  * method is one lock region; its contract names the step-system operation it is. */
module DispatchObjects {
  import opened Base
  import opened DispatchModel
  import O = DispatchOwner

  const DUPLICATE: Code := 0x1b

  /** A flag word, as the set of the numbers of the bits that are set. */
  type Bits = set<nat>

  const DISPATCHIN_FLAG: Bits := {5}
  const DISPATCHOUT_FLAG: Bits := {6}

  function DispatchFlag(d: Dir): Bits { if d == In then DISPATCHIN_FLAG else DISPATCHOUT_FLAG }
  function Other(d: Dir): Dir { if d == In then Out else In }

  class PhidgetObject {
    var flags: Bits
    var refcnt: int
    var destructed: bool

    constructor ()
      ensures flags == {} && refcnt == 1 && !destructed
    {
      flags, refcnt, destructed := {}, 1, false;
    }

    method CKandSetFlags(f: Bits) returns (res: Code)
      modifies this`flags
      ensures flags == old(flags) + f && res == if f <= old(flags) then DUPLICATE else OK
    {
      if flags * f == f {
        res := DUPLICATE;
      } else {
        flags, res := flags + f, OK;
      }
    }

    method CKandCLRFlags(f: Bits) returns (res: Code)
      modifies this`flags
      ensures if f <= old(flags) then res == OK && flags == old(flags) - f else res == NOENT && flags == old(flags)
    {
      if flags * f == f {
        flags, res := flags - f, OK;
      } else {
        res := NOENT;
      }
    }

    method CLRFlags(f: Bits)
      modifies this`flags
      ensures flags == old(flags) - f
    {
      flags := flags - f;
    }

    method Retain()
      modifies this`refcnt
      ensures refcnt == old(refcnt) + 1
    {
      refcnt := refcnt + 1;
    }

    /** The destructor runs exactly when the last reference goes. */
    method Release()
      requires !destructed
      modifies this`refcnt, this`destructed
      ensures refcnt == old(refcnt) - 1 && (destructed <==> refcnt == 0)
    {
      refcnt := refcnt - 1;
      if refcnt == 0 {
        destructed := true;
      }
    }

    /** This is phidget p of the step system's state s, as far as its flag bits and its count go. */
    ghost predicate Is(s: State, p: Pid)
      reads this
    {
      refcnt == Ph(s, p).refcnt && forall d :: DispatchFlag(d) <= flags <==> Ch(s, Key(p, d)).flag
    }

    /** The flag test of an inserter: whoever sets the bit has the token, and takes a reference for it.  These are
      * the steps StepFlag and, with the token, StepRetain of the inserter t. */
    method TakeToken(d: Dir, ghost s: State, ghost t: Tid, ghost c: Cont, ghost p: Pid, ghost e: Eid)
      returns (taken: bool)
      requires Is(s, p)
      modifies this`flags, this`refcnt
      ensures taken <==> !Ch(s, Key(p, d)).flag
      ensures var s1 := StepFlag(s, t, c, p, d, e);
        && Pc(s1, t) == (if taken then AtRetain(c, p, d, e) else AtWake(c, p, e))
        && Is(if taken then StepRetain(s1, t, c, p, d, e) else s1, p)
    {
      ghost var s1 := StepFlag(s, t, c, p, d, e);
      FlagBits(flags, d);
      var res := CKandSetFlags(DispatchFlag(d));
      FlagStepSees(s, t, c, p, d, e);
      assert Is(s1, p);
      if res == OK {
        Retain();
        RetainStepSees(s1, t, c, p, d, e);
      }
      taken := res == OK;
    }

    /** The dispatcher's way out, the bit first, the reference after it: the steps StepServe, when the loop
      * breaks, and StepRel of the dispatcher t. */
    method GiveTokenUp(d: Dir, ghost s: State, ghost t: Tid, ghost p: Pid)
      requires Is(s, p) && Leaves(s, Key(p, d)) && !destructed
      modifies this
      ensures var s1 := StepServe(s, t, Key(p, d));
        && Pc(s1, t) == Rel(p) && Is(StepRel(s1, t, p), p)
        && (destructed <==> Ph(StepRel(s1, t, p), p).refcnt == 0)
    {
      ghost var s1 := StepServe(s, t, Key(p, d));
      FlagBits(flags, d);
      CLRFlags(DispatchFlag(d));
      LeaveStepSees(s, t, p, d);
      assert Is(s1, p);
      Release();
      RelStepSees(s1, t, p);
    }

    /** What getDispatchOutPhidget does with a closed phidget: the bit goes and the list's reference stays.  The
      * step is StepScanDrop. */
    method DropToken(ghost s: State, ghost t: Tid, ghost i: int, ghost p: Pid)
      requires Is(s, p)
      modifies this`flags
      ensures Is(StepScanDrop(s, t, i, p), p)
    {
      FlagBits(flags, Out);
      CLRFlags(DISPATCHOUT_FLAG);
      DropStepSees(s, t, i, p);
    }

    /** A check-and-set undone by a check-and-clear gives the old word back exactly if none of the bits was set:
      * of two bits asked for at once, one that was set before is lost. */
    method SetThenClear(f: Bits) returns (first: Code, second: Code)
      modifies this`flags
      ensures first == (if f <= old(flags) then DUPLICATE else OK) && second == OK
      ensures flags == old(flags) - f && (flags == old(flags) <==> f !! old(flags))
    {
      first := CKandSetFlags(f);
      second := CKandCLRFlags(f);
      assert flags == old(flags) - f;
      if flags == old(flags) {
        forall b | b in f ensures b !in old(flags) {
          assert b !in flags;
        }
      }
    }
  }

  /** Setting or clearing one direction's bit leaves the other's. */
  lemma FlagBits(flags: Bits, d: Dir)
    ensures DispatchFlag(d) <= flags + DispatchFlag(d) && !(DispatchFlag(d) <= flags - DispatchFlag(d))
    ensures DispatchFlag(Other(d)) <= flags + DispatchFlag(d) <==> DispatchFlag(Other(d)) <= flags
    ensures DispatchFlag(Other(d)) <= flags - DispatchFlag(d) <==> DispatchFlag(Other(d)) <= flags
    ensures DispatchFlag(d) * flags == DispatchFlag(d) <==> DispatchFlag(d) <= flags
  {
    var b := if d == In then 5 else 6;
    assert b in DispatchFlag(d) && b !in flags - DispatchFlag(d);
  }

  // What the steps do to a phidget's flag bits and its count.

  lemma FlagStepSees(s: State, t: Tid, c: Cont, p: Pid, d: Dir, e: Eid)
    ensures var s1 := StepFlag(s, t, c, p, d, e);
      && Ph(s1, p).refcnt == Ph(s, p).refcnt && Ch(s1, Key(p, d)).flag
      && Ch(s1, Key(p, Other(d))).flag == Ch(s, Key(p, Other(d))).flag
      && Pc(s1, t) == (if Ch(s, Key(p, d)).flag then AtWake(c, p, e) else AtRetain(c, p, d, e))
  {
    hide Ch;
    if !Ch(s, Key(p, d)).flag {
      var ch := s.ch[Key(p, d) := Ch(s, Key(p, d)).(flag := true, tok := Taken(t))];
      FlagSet(s, s.(ch := ch, pc := s.pc[t := AtRetain(c, p, d, e)]), Key(p, d), ch[Key(p, d)]);
    } else {
      FlagSet(s, s.(pc := s.pc[t := AtWake(c, p, e)]), Key(p, d), Ch(s, Key(p, d)));
    }
  }

  lemma FlagSet(s: State, s': State, k: Key, c: Chan)
    requires s'.ch == s.ch[k := c] || (s'.ch == s.ch && c == Ch(s, k))
    ensures Ch(s', k) == c && forall k' :: k' != k ==> Ch(s', k') == Ch(s, k')
  {
  }

  lemma RetainStepSees(s: State, t: Tid, c: Cont, p: Pid, d: Dir, e: Eid)
    ensures var s1 := StepRetain(s, t, c, p, d, e);
      Ph(s1, p).refcnt == Ph(s, p).refcnt + 1 && forall d' :: Ch(s1, Key(p, d')).flag == Ch(s, Key(p, d')).flag
  {
  }

  lemma LeaveStepSees(s: State, t: Tid, p: Pid, d: Dir)
    requires Leaves(s, Key(p, d))
    ensures var s1 := StepServe(s, t, Key(p, d));
      && Ph(s1, p).refcnt == Ph(s, p).refcnt && !Ch(s1, Key(p, d)).flag && Pc(s1, t) == Rel(p)
      && Ch(s1, Key(p, Other(d))).flag == Ch(s, Key(p, Other(d))).flag
  {
    hide Leaves, GateOpen;
  }

  lemma RelStepSees(s: State, t: Tid, p: Pid)
    ensures var s1 := StepRel(s, t, p);
      Ph(s1, p).refcnt == Ph(s, p).refcnt - 1 && forall d :: Ch(s1, Key(p, d)).flag == Ch(s, Key(p, d)).flag
  {
  }

  lemma DropStepSees(s: State, t: Tid, i: int, p: Pid)
    ensures var s1 := StepScanDrop(s, t, i, p);
      && Ph(s1, p).refcnt == Ph(s, p).refcnt && !Ch(s1, Key(p, Out)).flag
      && Ch(s1, Key(p, In)).flag == Ch(s, Key(p, In)).flag
  {
  }

  // ----- the entry pool -----

  class EntryPool {
    var free: seq<Eid>
    var entryCount: int
    var ents: map<Eid, Entry>
    var next: Eid

    function State(): Pool
      reads this
    {
      Pool(free, entryCount, ents, next)
    }

    constructor ()
      ensures State() == INIT.pool
    {
      free, entryCount, ents, next := [], 0, map[], 0;
    }

    /** getDispatchEntry. */
    method GetDispatchEntry() returns (res: Code, de: Eid)
      requires O.PoolOk(State())
      modifies this
      ensures res == (if PoolEmpty(old(State())) then AGAIN else OK)
      ensures if res == OK then State() == PoolGet(old(State())) && de == PoolPick(old(State()))
        else State() == old(State())
      ensures O.PoolOk(State()) && (res == OK ==> de in ents && de !in free && ents[de].waiting)
    {
      O.PoolGetWaits(State());
      if free == [] {
        if entryCount >= ENTRY_MAX {
          return AGAIN, 0;
        }
        entryCount, de, next := entryCount + 1, next, next + 1;
        ents := ents[de := BLANK.(waiting := true)];
      } else {
        de, free := free[0], free[1..];
        ents := ents[de := ents[de].(onlist := false, waiting := true)];
      }
      res := OK;
    }

    /** returnDispatchEntry.  Its assertion is the caller's duty. */
    method ReturnDispatchEntry(de: Eid)
      requires O.PoolOk(State()) && de in ents && de !in free && !ents[de].noreturn
      requires (ents[de].typ.Nothing? ==> !ents[de].inbound)
      modifies this
      ensures State() == PoolReturn(old(State()), de) && O.PoolOk(State())
    {
      O.PoolReturnOk(State(), de);
      if ents[de].typ != Nothing {
        ents := ents[de := Cleaned(ents[de])];
      }
      if entryCount >= ENTRY_DESIRED {
        ents, entryCount := ents - {de}, entryCount - 1;
      } else {
        free := [de] + free;
        ents := ents[de := ents[de].(onlist := true)];
      }
    }
  }
}
