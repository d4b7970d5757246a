/** Every step keeps every entry with exactly one owner. */
module DispatchOwnerSteps {
  import opened Base
  import opened DispatchModel
  import opened DispatchOwner
  import T = DispatchToken

  /** What the invariant says about the entries of one activity. */
  lemma Known(s: State, t: Tid)
    requires OwnerInv(s)
    ensures forall x :: x in Hands(Pc(s, t)) ==>
      Where(s, x) == Hand(t) && HandOk(Pc(s, t), t, x, Ent(s, x)) && x in s.pool.ents && x !in s.pool.free
    ensures PostOk(Pc(s, t))
    ensures SyncOf(Pc(s, t)).Some? ==> SyncAt(s, t, SyncOf(Pc(s, t)).value)
  {
    forall x | x in Hands(Pc(s, t))
      ensures Where(s, x) == Hand(t) && x in s.pool.ents && x !in s.pool.free
    {
      assert Where(s, x) == Hand(t);
    }
  }

  lemma HandsKnown(s: State, t: Tid, x: Eid)
    requires OwnerInv(s) && x in Hands(Pc(s, t))
    ensures Where(s, x) == Hand(t) && HandOk(Pc(s, t), t, x, Ent(s, x)) && x in s.pool.ents && x !in s.pool.free
  {
    Known(s, t);
  }

  // ----- insertDispatchEntry -----

  lemma TakeGot(s: State, t: Tid, c: Cont, q: Pid)
    requires OwnerInv(s) && Pc(s, t) == Get(c, q) && !PoolEmpty(s.pool)
    ensures OwnerInv(Take(s, t, c, q, PoolPick(s.pool), false, false, false))
  {
    hide PoolOk, QueueLoc, HandLoc, HandShape, QueueShape, SyncLoc, FreeLoc, PoolGet, PoolEmpty, PoolPick;
    var s', e := Take(s, t, c, q, PoolPick(s.pool), false, false, false), PoolPick(s.pool);
    Known(s, t);
    PoolGetOk(s.pool);
    FreeKnown(s, e);
    PoolSetOk(PoolGet(s.pool), e, Filled(c, t, PEnt(PoolGet(s.pool), e)));
    assert Only(s, s', t, e);
    HandMove(s, s', t, e);
    ShapeMove(s, s', t, e);
    QueueShapeMove(s, s', t, e);
    SyncMove(s, s', t, e);
    QueueFrame(s, s', t, e);
    FreeTaken(s, s', t, e);
  }

  lemma TakeFacts(s: State)
    requires OwnerInv(s) && !PoolEmpty(s.pool)
    ensures PoolPick(s.pool) !in s.pool.ents || PoolPick(s.pool) in s.pool.free
    ensures forall x :: x != PoolPick(s.pool) ==> PEnt(PoolGet(s.pool), x) == PEnt(s.pool, x)
    ensures PEnt(PoolGet(s.pool), PoolPick(s.pool)).typ.Nothing?
  {
    PoolGetOk(s.pool);
  }

  lemma FreeKnown(s: State, e: Eid)
    requires OwnerInv(s)
    requires e !in s.pool.ents || e in s.pool.free
    ensures !Where(s, e).Hand? && !Where(s, e).Queued? && !Where(s, e).Claimed?
    ensures forall u :: SyncOf(Pc(s, u)) != Some(e) && e !in Hands(Pc(s, u))
  {
    forall u ensures SyncOf(Pc(s, u)) != Some(e) && e !in Hands(Pc(s, u)) {
      assert SyncOf(Pc(s, u)).Some? ==> SyncAt(s, u, SyncOf(Pc(s, u)).value);
    }
  }

  lemma FreeTaken(s: State, s': State, t: Tid, e: Eid)
    requires FreeLoc(s) && Only(s, s', t, e) && Where(s', e) == Hand(t)
    requires e in s'.pool.ents && e !in s'.pool.free
    requires forall x :: x != e ==>
      (x in s'.pool.ents <==> x in s.pool.ents) && (x in s'.pool.free <==> x in s.pool.free)
    ensures FreeLoc(s')
  {
  }

  lemma TakeStep(s: State, t: Tid, c: Cont, q: Pid, ch: Choice)
    requires OwnerInv(s) && Pc(s, t) == Get(c, q)
    ensures OwnerInv(StepGet(s, t, c, q, ch))
  {
    hide OwnerInv, PoolPick, PoolEmpty, Take;
    if s.dlock.Some? {
      TakeNone(s, t, c, q, PoolPick(s.pool), true, false, false);
    }
    TakeNone(s, t, c, q, PoolPick(s.pool), s.dlock.Some?, PoolEmpty(s.pool), c.Post? && ch.yes);
    if !s.dlock.Some? && !PoolEmpty(s.pool) {
      if c.Post? && ch.yes {
        TakeSurrender(s, t, c, q);
      } else {
        TakeGot(s, t, c, q);
      }
    }
  }

  lemma TakeNone(s: State, t: Tid, c: Cont, q: Pid, e: Eid, locked: bool, empty: bool, surrender: bool)
    requires OwnerInv(s) && Pc(s, t) == Get(c, q)
    ensures locked || empty ==> OwnerInv(Take(s, t, c, q, e, locked, empty, surrender))
  {
    hide OwnerInv;
    Known(s, t);
    if !locked && empty {
      StillStep(s, Take(s, t, c, q, e, locked, empty, surrender), t);
    }
  }

  lemma TakeSurrender(s: State, t: Tid, c: Cont, q: Pid)
    requires OwnerInv(s) && Pc(s, t) == Get(c, q) && !PoolEmpty(s.pool) && c.Post?
    ensures OwnerInv(Take(s, t, c, q, PoolPick(s.pool), false, false, true))
  {
    hide PoolOk, QueueLoc, HandLoc, HandShape, QueueShape, SyncLoc, FreeLoc, PoolGet, PoolEmpty, PoolPick;
    var s', e := Take(s, t, c, q, PoolPick(s.pool), false, false, true), PoolPick(s.pool);
    Known(s, t);
    PoolGetOk(s.pool);
    FreeKnown(s, e);
    assert Only(s, s', t, e);
    HandMove(s, s', t, e);
    ShapeMove(s, s', t, e);
    QueueShapeMove(s, s', t, e);
    SyncMove(s, s', t, e);
    QueueFrame(s, s', t, e);
    FreeTaken(s, s', t, e);
  }

  /** The activity moves on to pc with the entries it has, and nothing about the entries changes. */
  lemma StillPc(s: State, s': State, t: Tid, pc: PC)
    requires OwnerInv(s) && s'.pool == s.pool && s'.loc == s.loc && s'.pc == s.pc[t := pc]
    requires forall k :: Ch(s', k).q == Ch(s, k).q && Ch(s', k).count == Ch(s, k).count
    requires Hands(pc) == Hands(Pc(s, t)) && SyncOf(Pc(s, t)) == None && SyncOf(pc) == None && PostOk(pc)
    requires forall x :: x in Hands(pc) ==> HandOk(pc, t, x, Ent(s, x))
    ensures OwnerInv(s')
  {
    hide OwnerInv, HandOk, Hands, SyncOf, SyncReq, PostOk, Ent;
    StillStep(s, s', t);
  }

  lemma InsertRefused(s: State, t: Tid, c: Cont, q: Pid, e: Eid, k: Key, drop: bool, shed: bool, full: bool)
    requires OwnerInv(s) && Pc(s, t) == Ins(c, q, e)
    requires drop ==> AfterNotDetaching(Ent(s, e).typ)
    requires drop || shed || full
    ensures OwnerInv(Insert(s, t, c, q, e, k, drop, shed, full))
  {
    hide OwnerInv, Ent;
    var s' := Insert(s, t, c, q, e, k, drop, shed, full);
    HandsKnown(s, t, e);
    Known(s, t);
    hide Disarming;
    if drop {
      DroppedHands(s, t, c, q, e);
      hide HandOk;
      StillPc(s, s', t, ClrOut(c, q, Some(e), NOTATTACHED));
    } else {
      hide HandOk;
      RejectedHands(s, t, c, q, e, shed);
      StillPc(s, s', t, Rej(c, q, e, NOSPC, shed));
    }
  }

  lemma DroppedHands(s: State, t: Tid, c: Cont, q: Pid, e: Eid)
    requires OwnerInv(s) && Pc(s, t) == Ins(c, q, e) && AfterNotDetaching(Ent(s, e).typ)
    ensures var pc := ClrOut(c, q, Some(e), NOTATTACHED); forall x :: x in Hands(pc) ==> HandOk(pc, t, x, Ent(s, x))
  {
    hide OwnerInv, Ent;
    HandsKnown(s, t, e);
    Known(s, t);
  }

  lemma RejectedHands(s: State, t: Tid, c: Cont, q: Pid, e: Eid, shed: bool)
    requires OwnerInv(s) && Pc(s, t) == Ins(c, q, e)
    ensures var pc := Rej(c, q, e, NOSPC, shed); forall x :: x in Hands(pc) ==> HandOk(pc, t, x, Ent(s, x))
  {
    hide OwnerInv, Ent;
    HandsKnown(s, t, e);
    Known(s, t);
  }

  lemma InsertTaken(s: State, t: Tid, c: Cont, q: Pid, e: Eid, k: Key)
    requires OwnerInv(s) && Pc(s, t) == Ins(c, q, e) && k == Key(q, DirOf(Ent(s, e))) && Ch(s, k).count <= HardMax(k.d)
    ensures OwnerInv(Insert(s, t, c, q, e, k, false, false, false))
  {
    hide PoolOk, QueueLoc, HandLoc, HandShape, QueueShape, SyncLoc;
    var s' := Insert(s, t, c, q, e, k, false, false, false);
    HandsKnown(s, t, e);
    Known(s, t);
    assert Only(s, s', t, e);
    HandMove(s, s', t, e);
    ShapeMove(s, s', t, e);
    QueueShapeMove(s, s', t, e);
    QueueAppend(s, s', t, e, k);
    FreeFrame(s, s', t, e);
    InsertSync(s, t, c, q, e, k);
  }

  lemma NobodyWaits(s: State, t: Tid, e: Eid)
    requires OwnerInv(s) && Where(s, e) == Hand(t) && Ent(s, e).taker == t
    ensures forall u :: SyncOf(Pc(s, u)) != Some(e)
  {
    forall u ensures SyncOf(Pc(s, u)) != Some(e) {
      assert SyncOf(Pc(s, u)).Some? ==> SyncAt(s, u, SyncOf(Pc(s, u)).value);
    }
  }

  lemma InsertSync(s: State, t: Tid, c: Cont, q: Pid, e: Eid, k: Key)
    requires OwnerInv(s) && Pc(s, t) == Ins(c, q, e) && k == Key(q, DirOf(Ent(s, e)))
    ensures SyncLoc(Insert(s, t, c, q, e, k, false, false, false))
  {
    hide PoolOk, QueueLoc, HandLoc, HandShape, QueueShape, FreeLoc, SyncLoc;
    var s' := Insert(s, t, c, q, e, k, false, false, false);
    HandsKnown(s, t, e);
    NobodyWaits(s, t, e);
    SyncMove(s, s', t, e);
  }

  lemma InsertStep(s: State, t: Tid, c: Cont, q: Pid, e: Eid)
    requires OwnerInv(s) && Pc(s, t) == Ins(c, q, e)
    ensures OwnerInv(StepIns(s, t, c, q, e))
  {
    hide OwnerInv, Insert, Ent, Ch, Ph;
    var k := Key(q, DirOf(Ent(s, e)));
    var drop, shed, full := Dropped(Ent(s, e), Ph(s, q)), Shed(Ent(s, e), Ch(s, k)), Full(Ent(s, e), Ch(s, k));
    if drop || shed || full {
      InsertRefused(s, t, c, q, e, k, drop, shed, full);
    } else {
      InsertTaken(s, t, c, q, e, k);
    }
  }

  // ----- giving an entry back, and clearing -----

  lemma GiveBackOk(s: State, t: Tid, e: Eid, pc: PC)
    requires OwnerInv(s) && e in Hands(Pc(s, t)) && !Ent(s, e).noreturn
    requires (Ent(s, e).typ.Nothing? ==> !Ent(s, e).inbound)
    requires Hands(pc) == Hands(Pc(s, t)) - {e} && SyncOf(Pc(s, t)) == None && SyncOf(pc) == None && PostOk(pc)
    requires forall x :: x in Hands(pc) ==> HandOk(pc, t, x, Ent(s, x))
    ensures OwnerInv(GiveBack(s, t, e, pc, false, false))
  {
    hide PoolOk, QueueLoc, HandLoc, HandShape, QueueShape, SyncLoc, FreeLoc, PoolReturn;
    var s' := GiveBack(s, t, e, pc, false, false);
    HandsKnown(s, t, e);
    PoolReturnOk(s.pool, e);
    assert Only(s, s', t, e);
    HandMove(s, s', t, e);
    ShapeMove(s, s', t, e);
    QueueShapeMove(s, s', t, e);
    QueueFrame(s, s', t, e);
    GiveBackSync(s, s', t, e);
    FreeGiven(s, s', t, e);
  }

  lemma FreeGiven(s: State, s': State, t: Tid, e: Eid)
    requires FreeLoc(s) && Only(s, s', t, e) && Where(s', e) == Returned(s.pool)
    requires if Returned(s.pool) == Free then e in s'.pool.ents && e in s'.pool.free
             else e !in s'.pool.ents && e !in s'.pool.free
    requires forall x :: x != e ==>
      (x in s'.pool.ents <==> x in s.pool.ents) && (x in s'.pool.free <==> x in s.pool.free)
    ensures FreeLoc(s')
  {
  }

  lemma GiveBackSync(s: State, s': State, t: Tid, e: Eid)
    requires SyncLoc(s) && Only(s, s', t, e) && Where(s, e) == Hand(t) && !Ent(s, e).noreturn
    requires Where(s', e) == Nowhere || Where(s', e) == Free
    requires SyncOf(Pc(s, t)) == None && SyncOf(Pc(s', t)) == None
    ensures SyncLoc(s')
  {
    hide SyncLoc;
    forall u ensures SyncOf(Pc(s, u)) != Some(e) {
      SyncAtKnown(s, u);
    }
    SyncMove(s, s', t, e);
  }

  lemma SyncAtKnown(s: State, u: Tid)
    requires SyncLoc(s)
    ensures SyncOf(Pc(s, u)).Some? ==> SyncAt(s, u, SyncOf(Pc(s, u)).value)
  {
  }

  lemma ReturningOk(s: State, t: Tid, e: Eid, pc: PC)
    requires OwnerInv(s) && e in Hands(Pc(s, t)) && (Ent(s, e).typ.Nothing? ==> !Ent(s, e).inbound)
    requires Hands(pc) == Hands(Pc(s, t)) - {e} && SyncOf(Pc(s, t)) == None && SyncOf(pc) == None && PostOk(pc)
    requires forall x :: x in Hands(pc) ==> HandOk(pc, t, x, Ent(s, x))
    ensures OwnerInv(Returning(s, t, e, pc))
  {
    hide PoolOk, QueueLoc, HandLoc, HandShape, QueueShape, SyncLoc, FreeLoc, PoolReturn, Hands, HandOk, SyncOf;
    if Ent(s, e).noreturn {
      OwnerFrame(s, s.(panicked := true));
    } else if !s.dlock.Some? {
      GiveBackOk(s, t, e, pc);
    }
  }

  lemma QueueKnown(s: State, k: Key)
    requires OwnerInv(s) && Ch(s, k).q != []
    ensures var e := Ch(s, k).q[0];
      Where(s, e) == Queued(k) && QueuedOk(k.d, Ent(s, e)) && e in s.pool.ents && e !in s.pool.free
      && (Ent(s, e).noreturn ==> SyncOf(Pc(s, Ent(s, e).taker)) == Some(e))
      && (forall u :: e !in Hands(Pc(s, u)))
      && (forall u :: SyncOf(Pc(s, u)) == Some(e) ==> SyncAt(s, u, e))
  {
    var e := Ch(s, k).q[0];
    assert QueueOk(s, k);
    assert e in Ch(s, k).q;
    assert Ent(s, e).noreturn ==> Awaited(s, e);
    forall u | SyncOf(Pc(s, u)) == Some(e) ensures SyncAt(s, u, e) {
      SyncAtKnown(s, u);
    }
  }

  /** The head of a queue passes into the hands of activity t. */
  lemma PopOk(s: State, s': State, t: Tid, k: Key, e: Eid)
    requires OwnerInv(s) && Ch(s, k).q != [] && e == Ch(s, k).q[0]
    requires T.Alone(s, s', t) && s'.pool == s.pool && s'.loc == s.loc[e := Hand(t)]
    requires forall j :: j != k ==> Ch(s', j) == Ch(s, j)
    requires Ch(s', k).q == Ch(s, k).q[1..] && Ch(s', k).count == Ch(s, k).count - 1
    requires Hands(Pc(s', t)) == Hands(Pc(s, t)) + {e}
    requires SyncOf(Pc(s, t)) == None && SyncOf(Pc(s', t)) == None && PostOk(Pc(s', t))
    requires forall x :: x in Hands(Pc(s', t)) ==> HandOk(Pc(s', t), t, x, Ent(s, x))
    ensures OwnerInv(s')
  {
    hide PoolOk, QueueLoc, HandLoc, HandShape, QueueShape, SyncLoc, FreeLoc, HandOk;
    QueueKnown(s, k);
    assert Only(s, s', t, e);
    HandMove(s, s', t, e);
    ShapeMove(s, s', t, e);
    QueueShapeMove(s, s', t, e);
    QueuePop(s, s', t, e, k);
    FreeFrame(s, s', t, e);
    PopSync(s, s', t, k, e);
  }

  lemma PopSync(s: State, s': State, t: Tid, k: Key, e: Eid)
    requires OwnerInv(s) && Ch(s, k).q != [] && e == Ch(s, k).q[0]
    requires Only(s, s', t, e) && Ent(s', e) == Ent(s, e) && Where(s', e) == Hand(t)
    requires SyncOf(Pc(s, t)) == None && SyncOf(Pc(s', t)) == None
    ensures SyncLoc(s')
  {
    hide PoolOk, QueueLoc, HandLoc, HandShape, QueueShape, SyncLoc, FreeLoc;
    QueueKnown(s, k);
    SyncMove(s, s', t, e);
  }

  lemma ClearOneOk(s: State, t: Tid, k: Key, pc: PC)
    requires OwnerInv(s) && Ch(s, k).q != []
    requires Hands(pc) == Hands(Pc(s, t)) + {Ch(s, k).q[0]}
    requires SyncOf(Pc(s, t)) == None && SyncOf(pc) == None && PostOk(pc)
    requires forall x :: x in Hands(pc) ==> HandOk(pc, t, x, Ent(s, x))
    ensures OwnerInv(ClearOne(s, t, k, pc))
  {
    hide OwnerInv, HandOk, Hands, SyncOf, PostOk;
    var s' := ClearOne(s, t, k, pc);
    PopOk(s, s', t, k, Ch(s, k).q[0]);
  }

  lemma ClrOutPop(s: State, t: Tid, c: Cont, q: Pid, pend: Option<Eid>, code: Code)
    requires OwnerInv(s) && Pc(s, t) == ClrOut(c, q, pend, code) && Ch(s, Key(q, Out)).q != []
    ensures OwnerInv(ClearOne(s, t, Key(q, Out), ClrOutRet(c, q, Ch(s, Key(q, Out)).q[0], pend, code)))
  {
    hide OwnerInv, ClearOne;
    Known(s, t);
    QueueKnown(s, Key(q, Out));
    ClearOneOk(s, t, Key(q, Out), ClrOutRet(c, q, Ch(s, Key(q, Out)).q[0], pend, code));
  }

  lemma ClrOutStep(s: State, t: Tid, c: Cont, q: Pid, pend: Option<Eid>, code: Code)
    requires OwnerInv(s) && Pc(s, t) == ClrOut(c, q, pend, code)
    ensures OwnerInv(StepClrOut(s, t, c, q, pend, code))
  {
    hide OwnerInv, ClearOne, GoTo;
    if Ch(s, Key(q, Out)).has {
      if Ch(s, Key(q, Out)).q == [] {
        ClrOutEnds(s, t, c, q, pend, code);
      } else {
        ClrOutPop(s, t, c, q, pend, code);
      }
    }
  }

  lemma ClrOutEnds(s: State, t: Tid, c: Cont, q: Pid, pend: Option<Eid>, code: Code)
    requires OwnerInv(s) && Pc(s, t) == ClrOut(c, q, pend, code)
    ensures OwnerInv(GoTo(s, t, Cleared(c, q, pend, code)))
  {
    hide OwnerInv;
    Known(s, t);
    StillStep(s, GoTo(s, t, Cleared(c, q, pend, code)), t);
  }

  lemma ClrOutRetStep(s: State, t: Tid, c: Cont, q: Pid, x: Eid, pend: Option<Eid>, code: Code)
    requires OwnerInv(s) && Pc(s, t) == ClrOutRet(c, q, x, pend, code)
    ensures OwnerInv(StepClrOutRet(s, t, c, q, x, pend, code))
  {
    hide OwnerInv, Returning;
    Known(s, t);
    ReturningOk(s, t, x, ClrOut(c, q, pend, code));
  }

  lemma RejStep(s: State, t: Tid, c: Cont, q: Pid, e: Eid, code: Code, thenClear: bool, ch: Choice)
    requires OwnerInv(s) && Pc(s, t) == Rej(c, q, e, code, thenClear)
    ensures OwnerInv(StepRej(s, t, c, q, e, code, thenClear, ch))
  {
    hide OwnerInv, Returning;
    Known(s, t);
    ReturningOk(s, t, e, if thenClear && ch.yes then ClrOut(c, q, None, code) else Done(c, q, 0, code));
  }

  lemma FinishOwn(s: State, t: Tid, c: Cont, q: Pid, e: Eid, code: Code)
    requires OwnerInv(s) && Pc(s, t) == Done(c, q, e, code) && !c.CbOf?
    ensures OwnerInv(StepDone(s, t, c, q, e, code))
  {
    hide OwnerInv, Ent;
    StillStep(s, StepDone(s, t, c, q, e, code), t);
  }

  lemma FinishCb(s: State, t: Tid, c: Cont, q: Pid, e: Eid, code: Code, ok: bool)
    requires OwnerInv(s) && Pc(s, t) == Done(c, q, e, code) && c.CbOf?
    ensures OwnerInv(Finish(s, t, c, e, code, ok))
  {
    hide OwnerInv, Ent, Finish, Ch;
    HandsKnown(s, t, c.e);
    FinishMoves(s, t, c, e, code, ok);
    SameQueues(s, Finish(s, t, c, e, code, ok));
    StillPc(s, Finish(s, t, c, e, code, ok), t, DispEnd(c.k, c.e, c.ret));
  }

  lemma FinishMoves(s: State, t: Tid, c: Cont, e: Eid, code: Code, ok: bool)
    requires c.CbOf?
    ensures var s' := Finish(s, t, c, e, code, ok);
      s'.pool == s.pool && s'.loc == s.loc && s'.ch == s.ch && s'.pc == s.pc[t := DispEnd(c.k, c.e, c.ret)]
  {
  }

  lemma FinishStep(s: State, t: Tid, c: Cont, q: Pid, e: Eid, code: Code)
    requires OwnerInv(s) && Pc(s, t) == Done(c, q, e, code)
    ensures OwnerInv(StepDone(s, t, c, q, e, code))
  {
    hide OwnerInv;
    if c.CbOf? {
      FinishCb(s, t, c, q, e, code, code == OK);
    } else {
      FinishOwn(s, t, c, q, e, code);
    }
  }

  lemma WaitStep(s: State, t: Tid, r: Rid, e: Eid)
    requires OwnerInv(s) && Pc(s, t) == Wait(r, e)
    ensures OwnerInv(StepWait(s, t, r, e))
  {
    hide PoolOk, QueueLoc, HandLoc, HandShape, QueueShape, SyncLoc, FreeLoc;
    if !Ent(s, e).waiting {
      var s' := StepWait(s, t, r, e);
      Known(s, t);
      SyncAtKnown(s, t);
      assert Only(s, s', t, e);
      HandMove(s, s', t, e);
      ShapeMove(s, s', t, e);
      QueueShapeMove(s, s', t, e);
      QueueFrame(s, s', t, e);
      FreeFrame(s, s', t, e);
      WaitSync(s, s', t, e);
    }
  }

  lemma WaitSync(s: State, s': State, t: Tid, e: Eid)
    requires SyncLoc(s) && SyncOf(Pc(s, t)) == Some(e) && SyncOf(Pc(s', t)) == None && !Ent(s, e).waiting
    requires Only(s, s', t, e) && Ent(s', e) == Ent(s, e) && Where(s', e) == Hand(t)
    ensures SyncLoc(s')
  {
    hide SyncLoc;
    SyncAtKnown(s, t);
    forall u ensures SyncOf(Pc(s', u)) != Some(e) {
      SyncAtKnown(s, u);
    }
    SyncMove(s, s', t, e);
  }

  lemma WaitDoneStep(s: State, t: Tid, r: Rid, e: Eid)
    requires OwnerInv(s) && Pc(s, t) == WaitDone(r, e)
    ensures OwnerInv(StepWaitDone(s, t, r, e))
  {
    hide PoolOk, QueueLoc, HandLoc, HandShape, QueueShape, SyncLoc, FreeLoc, PoolReturn;
    if !s.dlock.Some? {
      var s', ent := StepWaitDone(s, t, r, e), Ent(s, e).(noreturn := false);
      HandsKnown(s, t, e);
      PoolSetOk(s.pool, e, ent);
      PoolReturnOk(PoolSet(s.pool, e, ent), e);
      assert Only(s, s', t, e);
      HandMove(s, s', t, e);
      ShapeMove(s, s', t, e);
      QueueShapeMove(s, s', t, e);
      QueueFrame(s, s', t, e);
      FreeGiven(s, s', t, e);
      NobodyWaits(s, t, e);
      SyncMove(s, s', t, e);
    }
  }

  lemma ClearNextStep(s: State, t: Tid, p: Pid, d: Dir)
    requires OwnerInv(s) && Pc(s, t) == ClrAll(p, d)
    ensures OwnerInv(StepClrAll(s, t, p, d))
  {
    hide OwnerInv, ClearOne;
    var out, inb := d == Out && Ch(s, Key(p, Out)).q != [], Ch(s, Key(p, In)).q != [];
    if out {
      ClearOutPop(s, t, p, d);
    } else if inb {
      ClearInPop(s, t, p, d);
    } else {
      StillStep(s, GoTo(s, t, Idle), t);
    }
  }

  lemma ClearOutPop(s: State, t: Tid, p: Pid, d: Dir)
    requires OwnerInv(s) && Pc(s, t) == ClrAll(p, d) && Ch(s, Key(p, Out)).q != []
    ensures OwnerInv(ClearOne(s, t, Key(p, Out), ClrRet(p, Ch(s, Key(p, Out)).q[0], Out)))
  {
    hide OwnerInv, ClearOne;
    QueueKnown(s, Key(p, Out));
    ClearOneOk(s, t, Key(p, Out), ClrRet(p, Ch(s, Key(p, Out)).q[0], Out));
  }

  lemma ClearInPop(s: State, t: Tid, p: Pid, d: Dir)
    requires OwnerInv(s) && Pc(s, t) == ClrAll(p, d) && Ch(s, Key(p, In)).q != []
    ensures OwnerInv(ClearOne(s, t, Key(p, In), ClrIn(p, Ch(s, Key(p, In)).q[0])))
  {
    hide OwnerInv, ClearOne;
    QueueKnown(s, Key(p, In));
    ClearOneOk(s, t, Key(p, In), ClrIn(p, Ch(s, Key(p, In)).q[0]));
  }

  /** Clearing WAITING passes the entry to its waiter. */
  lemma SignalOk(s: State, s': State, t: Tid, e: Eid, ent: Entry)
    requires OwnerInv(s) && Hands(Pc(s, t)) == {e} && Hands(Pc(s', t)) == {} && Ent(s, e).taker != t
    requires SyncShape(Ent(s, e)) && Ent(s, e).waiting && ent == Ent(s, e).(waiting := false, res := ent.res)
    requires s'.pool == PoolSet(s.pool, e, ent) && s'.loc == s.loc[e := Claimed(ent.taker)] && s'.ch == s.ch
    requires T.Alone(s, s', t) && SyncOf(Pc(s, t)) == None && SyncOf(Pc(s', t)) == None && PostOk(Pc(s', t))
    ensures OwnerInv(s')
  {
    hide PoolOk, QueueLoc, HandLoc, HandShape, QueueShape, SyncLoc, FreeLoc;
    HandsKnown(s, t, e);
    PoolSetOk(s.pool, e, ent);
    assert s'.pool.ents.Keys == s.pool.ents.Keys;
    assert Only(s, s', t, e);
    HandMove(s, s', t, e);
    ShapeMove(s, s', t, e);
    QueueShapeMove(s, s', t, e);
    QueueFrame(s, s', t, e);
    FreeFrame(s, s', t, e);
    SignalSync(s, s', t, e);
  }

  lemma SignalSync(s: State, s': State, t: Tid, e: Eid)
    requires SyncLoc(s) && Only(s, s', t, e) && Where(s, e) == Hand(t) && Ent(s, e).taker != t
    requires SyncShape(Ent(s, e)) && Ent(s', e) == Ent(s, e).(waiting := false, res := Ent(s', e).res)
    requires Where(s', e) == Claimed(Ent(s, e).taker)
    requires SyncOf(Pc(s, t)) == None && SyncOf(Pc(s', t)) == None
    ensures SyncLoc(s')
  {
    assert Awaited(s, e);
    SyncMove(s, s', t, e);
  }

  lemma ClearInStep(s: State, t: Tid, p: Pid, x: Eid)
    requires OwnerInv(s) && Pc(s, t) == ClrIn(p, x)
    ensures OwnerInv(StepClrIn(s, t, p, x))
  {
    hide OwnerInv, ClearIn, Ent;
    HandsKnown(s, t, x);
    var ent, called := Ent(s, x), (Ent(s, x).typ.UserReq? && Ent(s, x).cb) || Ent(s, x).typ.UserReqCallback?;
    if ent.noreturn {
      ClearInSignals(s, t, p, x, ent, called);
    } else {
      ClearInGives(s, t, p, x, ent, called);
    }
  }

  lemma ClearInSignals(s: State, t: Tid, p: Pid, x: Eid, ent: Entry, called: bool)
    requires OwnerInv(s) && Pc(s, t) == ClrIn(p, x) && ent == Ent(s, x) && ent.noreturn
    ensures OwnerInv(ClearIn(s, t, p, x, ent, true, called))
  {
    hide OwnerInv, Ent;
    HandsKnown(s, t, x);
    SignalOk(s, ClearIn(s, t, p, x, ent, true, called), t, x, ent.(waiting := false, res := NOTATTACHED));
  }

  lemma ClearInGives(s: State, t: Tid, p: Pid, x: Eid, ent: Entry, called: bool)
    requires OwnerInv(s) && Pc(s, t) == ClrIn(p, x) && ent == Ent(s, x) && !ent.noreturn
    ensures OwnerInv(ClearIn(s, t, p, x, ent, false, called))
  {
    hide OwnerInv, Ent, ClearIn, Ch;
    HandsKnown(s, t, x);
    ClearInMoves(s, t, p, x, ent, called);
    SameQueues(s, ClearIn(s, t, p, x, ent, false, called));
    StillPc(s, ClearIn(s, t, p, x, ent, false, called), t, ClrRet(p, x, In));
  }

  lemma ClearInMoves(s: State, t: Tid, p: Pid, x: Eid, ent: Entry, called: bool)
    ensures var s' := ClearIn(s, t, p, x, ent, false, called);
      s'.pool == s.pool && s'.loc == s.loc && s'.ch == s.ch && s'.pc == s.pc[t := ClrRet(p, x, In)]
  {
  }

  lemma ClearRetStep(s: State, t: Tid, p: Pid, x: Eid, d: Dir)
    requires OwnerInv(s) && Pc(s, t) == ClrRet(p, x, d)
    ensures OwnerInv(StepClrRet(s, t, p, x, d))
  {
    hide OwnerInv, Returning;
    Known(s, t);
    ReturningOk(s, t, x, ClrAll(p, d));
  }

  // ----- the dispatcher -----

  lemma ServeLeaves(s: State, t: Tid, k: Key)
    requires OwnerInv(s) && Pc(s, t) == Serve(k) && Leaves(s, k)
    ensures OwnerInv(StepServe(s, t, k))
  {
    hide OwnerInv, Ent;
    SeekStep(s, StepServe(s, t, k), t);
  }

  lemma ServePops(s: State, t: Tid, k: Key)
    requires OwnerInv(s) && Pc(s, t) == Serve(k) && !Leaves(s, k)
    ensures OwnerInv(StepServe(s, t, k))
  {
    hide OwnerInv, Ent;
    QueueKnown(s, k);
    PopOk(s, StepServe(s, t, k), t, k, Ch(s, k).q[0]);
  }

  lemma ServeStep(s: State, t: Tid, k: Key)
    requires OwnerInv(s) && Pc(s, t) == Serve(k)
    ensures OwnerInv(StepServe(s, t, k))
  {
    hide OwnerInv, StepServe, Leaves;
    if Leaves(s, k) {
      ServeLeaves(s, t, k);
    } else {
      ServePops(s, t, k);
    }
  }

  /** Where a dispatched entry goes next. */
  function Next(k: Key, e: Eid, ret: bool, ent: Entry, code: Code): PC {
    if ent.typ.UserReq? && ent.cb then Get(CbOf(k, e, ret, ent.req, code), k.p)
    else if ent.typ.UserReq? then DispSig(k, e, ret, code)
    else DispEnd(k, e, ret)
  }

  lemma DispatchHands(s: State, t: Tid, k: Key, e: Eid, ret: bool, ent: Entry, code: Code)
    requires OwnerInv(s) && Pc(s, t) == Disp(k, e, ret) && ent == Ent(s, e)
    ensures var pc := Next(k, e, ret, ent, code);
      Hands(pc) == {e} && SyncOf(pc) == None && PostOk(pc) && HandOk(pc, t, e, ent)
  {
    hide OwnerInv, Ent;
    HandsKnown(s, t, e);
  }

  lemma DispatchOk(s: State, t: Tid, k: Key, e: Eid, ret: bool, ent: Entry, code: Code)
    requires OwnerInv(s) && Pc(s, t) == Disp(k, e, ret) && ent == Ent(s, e)
    ensures OwnerInv(Dispatch(s, t, k, e, ret, ent, code, ent.typ.UserReq?, ent.typ.UserReqCallback?))
  {
    hide OwnerInv, Ent, HandOk, PostOk, Dispatch, Next, Ch;
    var s' := Dispatch(s, t, k, e, ret, ent, code, ent.typ.UserReq?, ent.typ.UserReqCallback?);
    DispatchHands(s, t, k, e, ret, ent, code);
    DispatchMoves(s, t, k, e, ret, ent, code, ent.typ.UserReq?, ent.typ.UserReqCallback?);
    SameQueues(s, s');
    StillPc(s, s', t, Next(k, e, ret, ent, code));
  }

  /** Running an entry moves the dispatcher on, and nothing else that has to do with entries. */
  lemma DispatchMoves(s: State, t: Tid, k: Key, e: Eid, ret: bool, ent: Entry, code: Code, req: bool, callback: bool)
    requires req == ent.typ.UserReq?
    ensures var s' := Dispatch(s, t, k, e, ret, ent, code, req, callback);
      s'.pool == s.pool && s'.loc == s.loc && s'.ch == s.ch && s'.pc == s.pc[t := Next(k, e, ret, ent, code)]
  {
  }

  lemma SameQueues(s: State, s': State)
    requires s'.ch == s.ch
    ensures forall k :: Ch(s', k) == Ch(s, k)
  {
  }

  lemma DispSigStep(s: State, t: Tid, k: Key, e: Eid, ret: bool, res: Code)
    requires OwnerInv(s) && Pc(s, t) == DispSig(k, e, ret, res)
    ensures OwnerInv(StepDispSig(s, t, k, e, ret, res))
  {
    hide OwnerInv, Ent;
    HandsKnown(s, t, e);
    SignalOk(s, StepDispSig(s, t, k, e, ret, res), t, e, Ent(s, e).(waiting := false, res := res));
  }

  lemma DispEndStep(s: State, t: Tid, k: Key, e: Eid, ret: bool)
    requires OwnerInv(s) && Pc(s, t) == DispEnd(k, e, ret)
    ensures OwnerInv(StepDispEnd(s, t, k, e, ret))
  {
    hide OwnerInv, Returning;
    Known(s, t);
    if ret {
      ReturningOk(s, t, e, Serve(k));
    } else {
      StillStep(s, GoTo(s, t, Serve(k)), t);
    }
  }

  // ----- steps about the token only -----

  lemma TokenOnly(s: State, s': State, t: Tid, c: Cont)
    requires OwnerInv(s) && T.Alone(s, s', t) && s'.pool == s.pool && s'.loc == s.loc
    requires forall k :: Ch(s', k).q == Ch(s, k).q && Ch(s', k).count == Ch(s, k).count
    requires Hands(Pc(s, t)) == ContHand(c) == Hands(Pc(s', t))
    requires SyncOf(Pc(s', t)) == SyncOf(Pc(s, t)) && SyncReq(Pc(s', t)) == SyncReq(Pc(s, t))
    requires forall x :: x in ContHand(c) && HandOk(Pc(s, t), t, x, Ent(s, x)) ==> HandOk(Pc(s', t), t, x, Ent(s, x))
    requires PostOk(Pc(s', t))
    ensures OwnerInv(s')
  {
    hide OwnerInv, HandOk, Hands, SyncOf, SyncReq, PostOk, Ent;
    Known(s, t);
    StillStep(s, s', t);
  }

  lemma FlagOk(s: State, t: Tid, c: Cont, q: Pid, d: Dir, e: Eid)
    requires OwnerInv(s) && Pc(s, t) == AtFlag(c, q, d, e)
    ensures Ch(s, Key(q, d)).flag ==> OwnerInv(StepFlag(s, t, c, q, d, e))
  {
    hide OwnerInv, Ent;
    if Ch(s, Key(q, d)).flag {
      TokenOnly(s, GoTo(s, t, AtWake(c, q, e)), t, c);
    }
  }

  lemma FlagStep(s: State, t: Tid, c: Cont, q: Pid, d: Dir, e: Eid)
    requires OwnerInv(s) && Pc(s, t) == AtFlag(c, q, d, e)
    ensures OwnerInv(StepFlag(s, t, c, q, d, e))
  {
    hide OwnerInv, StepFlag;
    if Ch(s, Key(q, d)).flag {
      FlagOk(s, t, c, q, d, e);
    } else {
      FlagTaken(s, t, c, q, d, e);
    }
  }

  lemma FlagTaken(s: State, t: Tid, c: Cont, q: Pid, d: Dir, e: Eid)
    requires OwnerInv(s) && Pc(s, t) == AtFlag(c, q, d, e) && !Ch(s, Key(q, d)).flag
    ensures OwnerInv(StepFlag(s, t, c, q, d, e))
  {
    hide OwnerInv, Ent, StepFlag, Ch;
    FlagMoves(s, t, c, q, d, e);
    TokenOnly(s, StepFlag(s, t, c, q, d, e), t, c);
  }

  lemma FlagMoves(s: State, t: Tid, c: Cont, q: Pid, d: Dir, e: Eid)
    requires !Ch(s, Key(q, d)).flag
    ensures var s' := StepFlag(s, t, c, q, d, e);
      s'.pool == s.pool && s'.loc == s.loc && s'.pc == s.pc[t := AtRetain(c, q, d, e)] &&
      forall k :: Ch(s', k).q == Ch(s, k).q && Ch(s', k).count == Ch(s, k).count
  {
  }

  lemma RetainStep(s: State, t: Tid, c: Cont, q: Pid, d: Dir, e: Eid)
    requires OwnerInv(s) && Pc(s, t) == AtRetain(c, q, d, e)
    ensures OwnerInv(StepRetain(s, t, c, q, d, e))
  {
    hide OwnerInv, Ent;
    TokenOnly(s, StepRetain(s, t, c, q, d, e), t, c);
  }

  lemma PlaceStep(s: State, t: Tid, c: Cont, q: Pid, d: Dir, e: Eid)
    requires OwnerInv(s) && Pc(s, t) == AtPlace(c, q, d, e)
    ensures OwnerInv(StepPlace(s, t, c, q, d, e))
  {
    hide OwnerInv, Ent;
    if !s.dlock.Some? {
      TokenOnly(s, StepPlace(s, t, c, q, d, e), t, c);
    }
  }

  lemma WakeOwn(s: State, t: Tid, c: Cont, q: Pid, e: Eid)
    requires OwnerInv(s) && Pc(s, t) == AtWake(c, q, e)
    ensures OwnerInv(GoTo(s, t, Done(c, q, e, OK)))
  {
    hide OwnerInv, Ent;
    TokenOnly(s, GoTo(s, t, Done(c, q, e, OK)), t, c);
  }

  lemma WakeOther(s: State, u: Tid)
    requires OwnerInv(s) && Pc(s, u) == Idle
    ensures OwnerInv(GoTo(s, u, Loop))
  {
    hide OwnerInv, Ent;
    SeekStep(s, GoTo(s, u, Loop), u);
  }

  lemma WakeStep(s: State, t: Tid, c: Cont, q: Pid, e: Eid, ch: Choice)
    requires OwnerInv(s) && Pc(s, t) == AtWake(c, q, e)
    ensures OwnerInv(StepWake(s, t, c, q, e, ch))
  {
    hide OwnerInv;
    if ch.yes && ch.other != t && Pc(s, ch.other).Idle? {
      WakeOther(s, ch.other);
      WakeOwn(GoTo(s, ch.other, Loop), t, c, q, e);
    }
    WakeOwn(s, t, c, q, e);
  }

  /** Dispatchers looking for work own no entry. */
  lemma SeekStep(s: State, s': State, t: Tid)
    requires OwnerInv(s) && T.Alone(s, s', t) && s'.pool == s.pool && s'.loc == s.loc
    requires forall k :: Ch(s', k).q == Ch(s, k).q && Ch(s', k).count == Ch(s, k).count
    requires Seeks(Pc(s, t)) && Seeks(Pc(s', t))
    ensures OwnerInv(s')
  {
    hide OwnerInv, Ent;
    StillStep(s, s', t);
  }

  predicate Seeks(pc: PC) { T.Scanning(pc) || pc.Loop? || pc.Idle? || pc.Serve? || pc.Rel? }

  lemma SeekPop(s: State, s': State, t: Tid, k: Key)
    requires OwnerInv(s) && T.Alone(s, s', t) && s'.pool == s.pool && s'.loc == s.loc
    requires s'.ch == s.ch[k := Ch(s, k).(tok := Held(t))]
    requires Seeks(Pc(s, t)) && Seeks(Pc(s', t))
    ensures OwnerInv(s')
  {
    hide OwnerInv, Seeks;
    SeekStep(s, s', t);
  }

  lemma LoopGoes(s: State, t: Tid, ch: Choice)
    requires OwnerInv(s) && Pc(s, t).Loop? && (ch.yes || s.inL == [] || s.dlock.Some?)
    ensures OwnerInv(StepLoop(s, t, ch))
  {
    hide OwnerInv;
    if !s.dlock.Some? {
      StillPc(s, StepLoop(s, t, ch), t, if ch.yes then Idle else Scan(0));
    }
  }

  lemma LoopPops(s: State, t: Tid, ch: Choice)
    requires OwnerInv(s) && Pc(s, t).Loop? && !ch.yes && s.inL != [] && !s.dlock.Some?
    ensures OwnerInv(StepLoop(s, t, ch))
  {
    hide OwnerInv;
    SeekPop(s, StepLoop(s, t, ch), t, Key(s.inL[0], In));
  }

  lemma LoopOk(s: State, t: Tid, ch: Choice)
    requires OwnerInv(s) && Pc(s, t).Loop?
    ensures OwnerInv(StepLoop(s, t, ch))
  {
    hide OwnerInv, StepLoop;
    if ch.yes || s.inL == [] || s.dlock.Some? {
      LoopGoes(s, t, ch);
    } else {
      LoopPops(s, t, ch);
    }
  }

  lemma ScanPops(s: State, t: Tid, i: int)
    requires OwnerInv(s) && Pc(s, t) == Scan(i)
    requires 0 <= i < |s.outL| && (Ph(s, s.outL[i]).attached || Ph(s, s.outL[i]).detaching)
    ensures OwnerInv(StepScan(s, t, i))
  {
    hide OwnerInv;
    SeekPop(s, StepScan(s, t, i), t, Key(s.outL[i], Out));
  }

  lemma ScanGoes(s: State, t: Tid, i: int)
    requires OwnerInv(s) && Pc(s, t) == Scan(i)
    requires 0 <= i < |s.outL| ==> !Ph(s, s.outL[i]).attached && !Ph(s, s.outL[i]).detaching
    ensures OwnerInv(StepScan(s, t, i))
  {
    hide OwnerInv;
    SeekStep(s, StepScan(s, t, i), t);
  }

  lemma ScanOk(s: State, t: Tid, i: int)
    requires OwnerInv(s) && Pc(s, t) == Scan(i)
    ensures OwnerInv(StepScan(s, t, i))
  {
    hide OwnerInv, StepScan;
    if 0 <= i < |s.outL| && (Ph(s, s.outL[i]).attached || Ph(s, s.outL[i]).detaching) {
      ScanPops(s, t, i);
    } else {
      ScanGoes(s, t, i);
    }
  }

  lemma ScanOpenOk(s: State, t: Tid, i: int, p: Pid)
    requires OwnerInv(s) && Pc(s, t) == ScanOpen(i, p)
    ensures OwnerInv(StepScanOpen(s, t, i, p))
  {
    hide OwnerInv;
    if !Ph(s, p).open && 0 <= i < |s.outL| {
      SeekPop(s, StepScanOpen(s, t, i, p), t, Key(p, Out));
    } else {
      SeekStep(s, StepScanOpen(s, t, i, p), t);
    }
  }

  lemma ScanDropOk(s: State, t: Tid, i: int, p: Pid)
    requires OwnerInv(s) && Pc(s, t) == ScanDrop(i, p)
    ensures OwnerInv(StepScanDrop(s, t, i, p))
  {
    hide OwnerInv;
    SeekStep(s, StepScanDrop(s, t, i, p), t);
  }

  lemma RelOk(s: State, t: Tid, p: Pid)
    requires OwnerInv(s) && Pc(s, t) == Rel(p)
    ensures OwnerInv(StepRel(s, t, p))
  {
    hide OwnerInv;
    SeekStep(s, StepRel(s, t, p), t);
  }

  lemma ActivityKeepsOwners(s: State, t: Tid, ch: Choice)
    requires OwnerInv(s)
    ensures OwnerInv(StepActivity(s, t, ch))
  {
    hide OwnerInv, StepGet, StepIns, StepFlag, StepRetain, StepPlace, StepWake, StepClrOut, StepClrOutRet, StepRej,
         StepDone, StepWait, StepWaitDone, StepClrAll, StepClrIn, StepClrRet, StepLoop, StepScan, StepScanOpen,
         StepScanDrop, StepServe, Dispatch, StepDispSig, StepDispEnd, StepRel, Ent;
    match Pc(s, t)
    case Idle =>
    case Get(c, q) => TakeStep(s, t, c, q, ch);
    case Ins(c, q, e) => InsertStep(s, t, c, q, e);
    case AtFlag(c, q, d, e) => FlagStep(s, t, c, q, d, e);
    case AtRetain(c, q, d, e) => RetainStep(s, t, c, q, d, e);
    case AtPlace(c, q, d, e) => PlaceStep(s, t, c, q, d, e);
    case AtWake(c, q, e) => WakeStep(s, t, c, q, e, ch);
    case ClrOut(c, q, pend, code) => ClrOutStep(s, t, c, q, pend, code);
    case ClrOutRet(c, q, x, pend, code) => ClrOutRetStep(s, t, c, q, x, pend, code);
    case Rej(c, q, e, code, thenClear) => RejStep(s, t, c, q, e, code, thenClear, ch);
    case Done(c, q, e, code) => FinishStep(s, t, c, q, e, code);
    case Wait(r, e) => WaitStep(s, t, r, e);
    case WaitDone(r, e) => WaitDoneStep(s, t, r, e);
    case ClrAll(p, d) => ClearNextStep(s, t, p, d);
    case ClrIn(p, x) => ClearInStep(s, t, p, x);
    case ClrRet(p, x, d) => ClearRetStep(s, t, p, x, d);
    case Loop => LoopOk(s, t, ch);
    case Scan(i) => ScanOk(s, t, i);
    case ScanOpen(i, p) => ScanOpenOk(s, t, i, p);
    case ScanDrop(i, p) => ScanDropOk(s, t, i, p);
    case Serve(k) => ServeStep(s, t, k);
    case Disp(k, e, ret) => DispatchOk(s, t, k, e, ret, Ent(s, e), ch.code);
    case DispSig(k, e, ret, res) => DispSigStep(s, t, k, e, ret, res);
    case DispEnd(k, e, ret) => DispEndStep(s, t, k, e, ret);
    case Rel(p) => RelOk(s, t, p);
  }

  lemma CallOk(s: State, s': State, t: Tid, pc: PC)
    requires OwnerInv(s) && Pc(s, t).Idle? && Hands(pc) == {} && SyncOf(pc) == None && PostOk(pc)
    requires s'.pc == s.pc[t := pc] && s'.pool == s.pool && s'.loc == s.loc && s'.ch == s.ch
    ensures OwnerInv(s')
  {
    hide OwnerInv, Ent;
    StillStep(s, s', t);
  }

  lemma OwnerStep(s: State, a: Action)
    requires OwnerInv(s)
    ensures OwnerInv(Step(s, a))
  {
    hide OwnerInv, StepActivity, Ent;
    var s' := Step(s, a);
    if !s.panicked {
      match a
      case Run(t, ch) => ActivityKeepsOwners(s, t, ch);
      case CallSync(t, p) => if Pc(s, t).Idle? { CallOk(s, s', t, Get(Sync(s.nextReq), p)); }
      case CallAsync(t, p) => if Pc(s, t).Idle? { CallOk(s, s', t, Get(Async(s.nextReq), p)); }
      case CallPost(t, p, typ) => if s' != s { CallOk(s, s', t, Get(Post(typ), p)); }
      case CallClear(t, p) => if Pc(s, t).Idle? { CallOk(s, s', t, ClrAll(p, Out)); }
      case SetState(p, o, at, ag, de) => OwnerFrame(s, s');
      case ExtRetain(p) => OwnerFrame(s, s');
      case ExtRelease(p) => OwnerFrame(s, s');
    }
  }

  /** Ownership does not depend on the phidgets or on the panic bit. */
  lemma OwnerFrame(s: State, s': State)
    requires OwnerInv(s) && s'.pool == s.pool && s'.loc == s.loc && s'.pc == s.pc && s'.ch == s.ch
    ensures OwnerInv(s')
  {
    hide PoolOk;
    assert forall t :: Pc(s', t) == Pc(s, t);
    assert forall e :: Where(s', e) == Where(s, e) && Ent(s', e) == Ent(s, e);
    forall k ensures QueueOk(s', k) {
      assert QueueOk(s, k);
      assert Ch(s', k) == Ch(s, k);
    }
    forall u | SyncOf(Pc(s', u)).Some? ensures SyncAt(s', u, SyncOf(Pc(s', u)).value) {
      assert SyncAt(s, u, SyncOf(Pc(s, u)).value);
    }
    forall x | Awaited(s', x) ensures SyncOf(Pc(s', Ent(s', x).taker)) == Some(x) {
      assert Awaited(s, x);
    }
  }

  lemma OwnerInit()
    ensures OwnerInv(INIT)
  {
    forall k ensures QueueOk(INIT, k) {}
  }

  lemma {:induction false} OwnerAlways(actions: seq<Action>)
    ensures OwnerInv(Exec(actions))
  {
    hide OwnerInv, Step;
    if actions == [] {
      OwnerInit();
    } else {
      OwnerAlways(actions[..|actions|-1]);
      OwnerStep(Exec(actions[..|actions|-1]), actions[|actions|-1]);
    }
  }
}
