/** Each queue is first in, first out, and no entry is left in a queue nobody will look at. */
module DispatchFlow {
  import opened Base
  import opened DispatchModel
  import T = DispatchToken

  ghost predicate Increasing(s: seq<int>) {
    forall i, j :: 0 <= i < j < |s| ==> s[i] < s[j]
  }

  /** Every insertion number is dispatched, waiting or cleared; dispatched and waiting ones are in order. */
  ghost predicate FifoOk(c: Chan) {
    && |c.stamps| == |c.q| && c.inserted >= 0 && Increasing(c.log + c.stamps)
    && (forall n :: n in c.log || n in c.stamps || n in c.cleared <==> 0 <= n < c.inserted)
    && (forall n :: n in c.cleared ==> n !in c.log && n !in c.stamps)
  }

  /** Activity pc has queued an entry for k and is about to look at k's flag. */
  predicate Flagging(pc: PC, k: Key) { pc.AtFlag? && Key(pc.q, pc.d) == k }

  ghost predicate Watched(s: State, k: Key) {
    Ch(s, k).q == [] || Ch(s, k).flag || Ch(s, k).failed || exists t :: Flagging(Pc(s, t), k)
  }

  ghost predicate FlowInv(s: State) {
    forall k :: FifoOk(Ch(s, k)) && Watched(s, k)
  }

  // ----- what one step does to one queue -----

  predicate QueueSame(c: Chan, c': Chan) {
    c'.q == c.q && c'.stamps == c.stamps && c'.inserted == c.inserted && c'.log == c.log && c'.cleared == c.cleared
  }

  ghost predicate QueueMove(c: Chan, c': Chan) {
    || QueueSame(c, c')
    || (c'.q != [] && c' == Enqueue(c, c'.q[|c'.q| - 1]))
    || (c.q != [] && c' == PopToDispatch(c))
    || (c.q != [] && c' == PopToClear(c))
  }

  lemma IncreasingEnds(s: seq<int>, n: int)
    requires Increasing(s) && forall x :: x in s ==> x < n
    ensures Increasing(s + [n])
  {
    forall i | 0 <= i < |s| ensures (s + [n])[i] < n {
      assert s[i] in s;
    }
  }

  lemma EnqueueFifo(c: Chan, e: Eid)
    requires FifoOk(c)
    ensures FifoOk(Enqueue(c, e))
  {
    var c' := Enqueue(c, e);
    IncreasingEnds(c.log + c.stamps, c.inserted);
    assert c'.log + c'.stamps == (c.log + c.stamps) + [c.inserted];
    assert forall n :: n in c'.stamps <==> n in c.stamps || n == c.inserted;
  }

  lemma HeadStamp(c: Chan)
    requires FifoOk(c) && c.q != []
    ensures c.stamps == [c.stamps[0]] + c.stamps[1..] && c.stamps[0] !in c.stamps[1..] && c.stamps[0] !in c.log
    ensures Increasing(c.log + c.stamps[1..])
  {
    var all, rest := c.log + c.stamps, c.log + c.stamps[1..];
    forall i | 0 <= i < |c.log| ensures c.log[i] < c.stamps[0] {
      assert all[i] < all[|c.log|];
    }
    forall i | 0 < i < |c.stamps| ensures c.stamps[0] < c.stamps[i] {
      assert all[|c.log|] < all[|c.log| + i];
    }
    forall i, j | 0 <= i < j < |rest| ensures rest[i] < rest[j] {
      assert rest[i] == all[if i < |c.log| then i else i + 1];
      assert rest[j] == all[if j < |c.log| then j else j + 1];
    }
  }

  lemma PopToDispatchFifo(c: Chan)
    requires FifoOk(c) && c.q != []
    ensures FifoOk(PopToDispatch(c))
  {
    var c' := PopToDispatch(c);
    HeadStamp(c);
    assert c'.log + c'.stamps == c.log + c.stamps;
    assert forall n :: n in c.stamps <==> n == c.stamps[0] || n in c'.stamps;
    assert forall n :: n in c'.log <==> n == c.stamps[0] || n in c.log;
  }

  lemma PopToClearFifo(c: Chan)
    requires FifoOk(c) && c.q != []
    ensures FifoOk(PopToClear(c))
  {
    var c' := PopToClear(c);
    HeadStamp(c);
    assert forall n :: n in c.stamps <==> n == c.stamps[0] || n in c'.stamps;
  }

  lemma QueueMoveFifo(c: Chan, c': Chan)
    requires FifoOk(c) && QueueMove(c, c')
    ensures FifoOk(c')
  {
    if QueueSame(c, c') {
    } else if c'.q != [] && c' == Enqueue(c, c'.q[|c'.q| - 1]) {
      EnqueueFifo(c, c'.q[|c'.q| - 1]);
    } else if c' == PopToDispatch(c) {
      PopToDispatchFifo(c);
    } else {
      PopToClearFifo(c);
    }
  }

  /** Activity t changes at most the queue and flag of k. */
  ghost predicate At(s: State, s': State, t: Tid, k: Key) {
    && T.Alone(s, s', t) && (forall j :: j != k ==> Ch(s', j) == Ch(s, j))
    && (Pc(s, t).AtFlag? ==> Flagging(Pc(s, t), k))
    && QueueMove(Ch(s, k), Ch(s', k))
  }

  /** After the step, k needs no watching, or is watched as it was before. */
  predicate Attended(s: State, s': State, t: Tid, k: Key) {
    || Ch(s', k).q == [] || Ch(s', k).flag || Ch(s', k).failed || Flagging(Pc(s', t), k)
    || (Ch(s, k).q != [] && !Ch(s, k).flag && !Ch(s, k).failed && !Flagging(Pc(s, t), k))
  }

  lemma FlowMove(s: State, s': State, t: Tid, k: Key)
    requires FlowInv(s) && At(s, s', t, k) && Attended(s, s', t, k)
    ensures FlowInv(s')
  {
    forall j ensures FifoOk(Ch(s', j)) && Watched(s', j) {
      assert FifoOk(Ch(s, j)) && Watched(s, j);
      if j == k {
        QueueMoveFifo(Ch(s, k), Ch(s', k));
      }
      WatchedMove(s, s', t, k, j);
    }
  }

  lemma WatchedMove(s: State, s': State, t: Tid, k: Key, j: Key)
    requires Watched(s, j) && At(s, s', t, k) && Attended(s, s', t, k)
    ensures Watched(s', j)
  {
    if u :| Flagging(Pc(s, u), j) {
      if u != t {
        assert Flagging(Pc(s', u), j);
      } else {
        assert j == k;
        assert Flagging(Pc(s', t), k) ==> Watched(s', j);
      }
    }
    if j == k && Flagging(Pc(s', t), k) {
      assert Watched(s', k);
    }
  }

  lemma FlowSame(s: State, s': State, t: Tid)
    requires FlowInv(s) && T.Alone(s, s', t) && s'.ch == s.ch && !Pc(s, t).AtFlag?
    ensures FlowInv(s')
  {
    forall j ensures FifoOk(Ch(s', j)) && Watched(s', j) {
      assert FifoOk(Ch(s, j)) && Watched(s, j);
      if u :| Flagging(Pc(s, u), j) {
        assert Flagging(Pc(s', u), j);
      }
    }
  }

  // ----- the steps -----

  lemma InsertFlow(s: State, t: Tid, c: Cont, q: Pid, e: Eid, k: Key, drop: bool, shed: bool, full: bool)
    requires FlowInv(s) && Pc(s, t) == Ins(c, q, e) && k.p == q
    ensures FlowInv(Insert(s, t, c, q, e, k, drop, shed, full))
  {
    hide FlowInv, Disarming;
    if drop {
      FlowSame(s, Insert(s, t, c, q, e, k, drop, shed, full), t);
    } else {
      InsertAt(s, t, c, q, e, k, shed, full);
      FlowMove(s, Insert(s, t, c, q, e, k, drop, shed, full), t, k);
    }
  }

  lemma InsertAt(s: State, t: Tid, c: Cont, q: Pid, e: Eid, k: Key, shed: bool, full: bool)
    requires Pc(s, t) == Ins(c, q, e) && k.p == q
    ensures var s' := Insert(s, t, c, q, e, k, false, shed, full); At(s, s', t, k) && Attended(s, s', t, k)
  {
    hide Disarming;
  }

  lemma FlagSets(s: State, t: Tid, c: Cont, q: Pid, d: Dir, e: Eid)
    requires FlowInv(s) && Pc(s, t) == AtFlag(c, q, d, e) && !Ch(s, Key(q, d)).flag
    ensures FlowInv(StepFlag(s, t, c, q, d, e))
  {
    hide FlowInv;
    FlowMove(s, StepFlag(s, t, c, q, d, e), t, Key(q, d));
  }

  lemma FlagLeaves(s: State, t: Tid, c: Cont, q: Pid, d: Dir, e: Eid)
    requires FlowInv(s) && Pc(s, t) == AtFlag(c, q, d, e) && Ch(s, Key(q, d)).flag
    ensures FlowInv(StepFlag(s, t, c, q, d, e))
  {
    hide FlowInv;
    FlowMove(s, GoTo(s, t, AtWake(c, q, e)), t, Key(q, d));
  }

  lemma FlagFlow(s: State, t: Tid, c: Cont, q: Pid, d: Dir, e: Eid)
    requires FlowInv(s) && Pc(s, t) == AtFlag(c, q, d, e)
    ensures FlowInv(StepFlag(s, t, c, q, d, e))
  {
    hide FlowInv, StepFlag;
    if Ch(s, Key(q, d)).flag {
      FlagLeaves(s, t, c, q, d, e);
    } else {
      FlagSets(s, t, c, q, d, e);
    }
  }

  lemma RetainFlow(s: State, t: Tid, c: Cont, q: Pid, d: Dir, e: Eid)
    requires FlowInv(s) && Pc(s, t) == AtRetain(c, q, d, e)
    ensures FlowInv(StepRetain(s, t, c, q, d, e))
  {
    hide FlowInv;
    FlowMove(s, StepRetain(s, t, c, q, d, e), t, Key(q, d));
  }

  lemma PlaceFlow(s: State, t: Tid, c: Cont, q: Pid, d: Dir, e: Eid)
    requires FlowInv(s) && Pc(s, t) == AtPlace(c, q, d, e)
    ensures FlowInv(StepPlace(s, t, c, q, d, e))
  {
    hide FlowInv;
    if !s.dlock.Some? {
      FlowMove(s, StepPlace(s, t, c, q, d, e), t, Key(q, d));
    }
  }

  lemma GoFlow(s: State, t: Tid, pc: PC)
    requires FlowInv(s) && !Pc(s, t).AtFlag?
    ensures FlowInv(GoTo(s, t, pc))
  {
    hide FlowInv;
    FlowSame(s, GoTo(s, t, pc), t);
  }

  lemma WakeFlow(s: State, t: Tid, c: Cont, q: Pid, e: Eid, ch: Choice)
    requires FlowInv(s) && Pc(s, t) == AtWake(c, q, e)
    ensures FlowInv(StepWake(s, t, c, q, e, ch))
  {
    hide FlowInv;
    if ch.yes && ch.other != t && Pc(s, ch.other).Idle? {
      GoFlow(s, ch.other, Loop);
      GoFlow(GoTo(s, ch.other, Loop), t, Done(c, q, e, OK));
    }
    GoFlow(s, t, Done(c, q, e, OK));
  }

  lemma ClearOneFlow(s: State, t: Tid, k: Key, pc: PC)
    requires FlowInv(s) && !Pc(s, t).AtFlag? && Ch(s, k).q != []
    ensures FlowInv(ClearOne(s, t, k, pc))
  {
    hide FlowInv, Losing;
    FlowMove(s, ClearOne(s, t, k, pc), t, k);
  }

  lemma ClrOutFlow(s: State, t: Tid, c: Cont, q: Pid, pend: Option<Eid>, code: Code)
    requires FlowInv(s) && Pc(s, t) == ClrOut(c, q, pend, code)
    ensures FlowInv(StepClrOut(s, t, c, q, pend, code))
  {
    hide FlowInv, ClearOne;
    if Ch(s, Key(q, Out)).has {
      if Ch(s, Key(q, Out)).q == [] {
        FlowSame(s, GoTo(s, t, Cleared(c, q, pend, code)), t);
      } else {
        ClearOneFlow(s, t, Key(q, Out), ClrOutRet(c, q, Ch(s, Key(q, Out)).q[0], pend, code));
      }
    }
  }

  lemma ClearNextFlow(s: State, t: Tid, p: Pid, d: Dir)
    requires FlowInv(s) && Pc(s, t) == ClrAll(p, d)
    ensures FlowInv(StepClrAll(s, t, p, d))
  {
    hide FlowInv, ClearOne;
    if d == Out && Ch(s, Key(p, Out)).q != [] {
      ClearOneFlow(s, t, Key(p, Out), ClrRet(p, Ch(s, Key(p, Out)).q[0], Out));
    } else if Ch(s, Key(p, In)).q != [] {
      ClearOneFlow(s, t, Key(p, In), ClrIn(p, Ch(s, Key(p, In)).q[0]));
    } else {
      FlowSame(s, GoTo(s, t, Idle), t);
    }
  }

  /** A token taken from a list changes no queue. */
  lemma PopFlow(s: State, s': State, t: Tid, k: Key)
    requires FlowInv(s) && T.Alone(s, s', t) && !Pc(s, t).AtFlag? && s'.ch == s.ch[k := Ch(s, k).(tok := Held(t))]
    ensures FlowInv(s')
  {
    hide FlowInv;
    FlowMove(s, s', t, k);
  }

  lemma LoopPops(s: State, t: Tid, ch: Choice)
    requires FlowInv(s) && Pc(s, t).Loop? && !s.dlock.Some? && !ch.yes && s.inL != []
    ensures FlowInv(StepLoop(s, t, ch))
  {
    hide FlowInv;
    PopFlow(s, StepLoop(s, t, ch), t, Key(s.inL[0], In));
  }

  lemma LoopGoes(s: State, t: Tid, ch: Choice)
    requires FlowInv(s) && Pc(s, t).Loop? && !s.dlock.Some? && (ch.yes || s.inL == [])
    ensures FlowInv(StepLoop(s, t, ch))
  {
    hide FlowInv;
    if ch.yes {
      FlowSame(s, GoTo(s, t, Idle), t);
    } else {
      FlowSame(s, s.(dlock := Some(t), pc := s.pc[t := Scan(0)]), t);
    }
  }

  lemma LoopWaits(s: State, t: Tid, ch: Choice)
    requires s.dlock.Some?
    ensures StepLoop(s, t, ch) == s
  {
  }

  lemma LoopFlow(s: State, t: Tid, ch: Choice)
    requires FlowInv(s) && Pc(s, t).Loop?
    ensures FlowInv(StepLoop(s, t, ch))
  {
    hide FlowInv, StepLoop;
    if s.dlock.Some? {
      LoopWaits(s, t, ch);
    } else if ch.yes || s.inL == [] {
      LoopGoes(s, t, ch);
    } else {
      LoopPops(s, t, ch);
    }
  }

  lemma ScanPops(s: State, t: Tid, i: int)
    requires FlowInv(s) && Pc(s, t) == Scan(i)
    requires 0 <= i < |s.outL| && (Ph(s, s.outL[i]).attached || Ph(s, s.outL[i]).detaching)
    ensures FlowInv(StepScan(s, t, i))
  {
    hide FlowInv;
    PopFlow(s, StepScan(s, t, i), t, Key(s.outL[i], Out));
  }

  lemma ScanGoes(s: State, t: Tid, i: int)
    requires FlowInv(s) && Pc(s, t) == Scan(i)
    requires 0 <= i < |s.outL| ==> !Ph(s, s.outL[i]).attached && !Ph(s, s.outL[i]).detaching
    ensures FlowInv(StepScan(s, t, i))
  {
    hide FlowInv;
    FlowSame(s, StepScan(s, t, i), t);
  }

  lemma ScanFlow(s: State, t: Tid, i: int)
    requires FlowInv(s) && Pc(s, t) == Scan(i)
    ensures FlowInv(StepScan(s, t, i))
  {
    hide FlowInv, StepScan;
    if 0 <= i < |s.outL| && (Ph(s, s.outL[i]).attached || Ph(s, s.outL[i]).detaching) {
      ScanPops(s, t, i);
    } else {
      ScanGoes(s, t, i);
    }
  }

  lemma ScanOpenFlow(s: State, t: Tid, i: int, p: Pid)
    requires FlowInv(s) && Pc(s, t) == ScanOpen(i, p)
    ensures FlowInv(StepScanOpen(s, t, i, p))
  {
    hide FlowInv;
    if !Ph(s, p).open && 0 <= i < |s.outL| {
      PopFlow(s, StepScanOpen(s, t, i, p), t, Key(p, Out));
    } else {
      GoFlow(s, t, Scan(i + 1));
    }
  }

  lemma ScanDropFlow(s: State, t: Tid, i: int, p: Pid)
    requires FlowInv(s) && Pc(s, t) == ScanDrop(i, p)
    ensures FlowInv(StepScanDrop(s, t, i, p))
  {
    hide FlowInv;
    FlowMove(s, StepScanDrop(s, t, i, p), t, Key(p, Out));
  }

  lemma ServeFlow(s: State, t: Tid, k: Key)
    requires FlowInv(s) && Pc(s, t) == Serve(k)
    ensures FlowInv(StepServe(s, t, k))
  {
    hide FlowInv, Leaves, GateOpen;
    if Leaves(s, k) {
      ServeLeaves(s, t, k);
    } else {
      ServePops(s, t, k);
    }
  }

  lemma ServeLeaves(s: State, t: Tid, k: Key)
    requires FlowInv(s) && Pc(s, t) == Serve(k) && Leaves(s, k)
    ensures FlowInv(StepServe(s, t, k))
  {
    hide FlowInv, GateOpen;
    FlowMove(s, StepServe(s, t, k), t, k);
  }

  lemma ServePops(s: State, t: Tid, k: Key)
    requires FlowInv(s) && Pc(s, t) == Serve(k) && !Leaves(s, k)
    ensures FlowInv(StepServe(s, t, k))
  {
    hide FlowInv, GateOpen;
    FlowMove(s, StepServe(s, t, k), t, k);
  }

  // The lock regions that touch no queue and no flag.

  ghost predicate Away(s: State, s': State, t: Tid) { T.Alone(s, s', t) && s'.ch == s.ch }

  lemma AwayTake(s: State, t: Tid, c: Cont, q: Pid, e: Eid, locked: bool, empty: bool, surrender: bool)
    ensures Away(s, Take(s, t, c, q, e, locked, empty, surrender), t)
  {
    hide PoolGet, PoolTake, Disarming, Arming;
  }

  lemma AwayReturn(s: State, t: Tid, e: Eid, pc: PC, locked: bool, asserted: bool)
    ensures Away(s, GiveBack(s, t, e, pc, locked, asserted), t)
  {
    hide PoolReturn;
  }

  lemma AwayFinish(s: State, t: Tid, c: Cont, e: Eid, code: Code, ok: bool)
    ensures Away(s, Finish(s, t, c, e, code, ok), t)
  {
    hide After;
  }

  lemma AwayClearIn(s: State, t: Tid, p: Pid, x: Eid, ent: Entry, waited: bool, called: bool)
    ensures Away(s, ClearIn(s, t, p, x, ent, waited, called), t)
  {
  }

  lemma AwayDispatch(s: State, t: Tid, k: Key, e: Eid, ret: bool, ent: Entry, code: Code, req: bool, callback: bool)
    ensures Away(s, Dispatch(s, t, k, e, ret, ent, code, req, callback), t)
  {
  }

  lemma AwayWait(s: State, t: Tid, r: Rid, e: Eid)
    ensures Away(s, StepWait(s, t, r, e), t)
    ensures Away(s, StepWaitDone(s, t, r, e), t)
  {
    hide Ent, PoolReturn, PoolSet, Returned;
  }

  lemma AwayMore(s: State, t: Tid, pc: PC, k: Key, e: Eid, ret: bool, res: Code, p: Pid)
    ensures Away(s, GoTo(s, t, pc), t)
    ensures Away(s, StepDispSig(s, t, k, e, ret, res), t)
    ensures Away(s, StepRel(s, t, p), t)
  {
    hide Ent, PoolSet;
  }

  lemma TakeFlow(s: State, t: Tid, c: Cont, q: Pid, ch: Choice)
    requires FlowInv(s) && Pc(s, t) == Get(c, q)
    ensures FlowInv(StepGet(s, t, c, q, ch))
  {
    hide FlowInv, Take, PoolPick, PoolEmpty;
    AwayTake(s, t, c, q, PoolPick(s.pool), s.dlock.Some?, PoolEmpty(s.pool), c.Post? && ch.yes);
    FlowSame(s, StepGet(s, t, c, q, ch), t);
  }

  lemma FinishFlow(s: State, t: Tid, c: Cont, q: Pid, e: Eid, code: Code)
    requires FlowInv(s) && Pc(s, t) == Done(c, q, e, code)
    ensures FlowInv(StepDone(s, t, c, q, e, code))
  {
    hide FlowInv, Finish;
    AwayFinish(s, t, c, e, code, code == OK);
    FlowSame(s, StepDone(s, t, c, q, e, code), t);
  }

  lemma ClearInFlow(s: State, t: Tid, p: Pid, x: Eid)
    requires FlowInv(s) && Pc(s, t) == ClrIn(p, x)
    ensures FlowInv(StepClrIn(s, t, p, x))
  {
    hide FlowInv, ClearIn, Ent;
    AwayClearIn(s, t, p, x, Ent(s, x), Ent(s, x).noreturn,
                (Ent(s, x).typ.UserReq? && Ent(s, x).cb) || Ent(s, x).typ.UserReqCallback?);
    FlowSame(s, StepClrIn(s, t, p, x), t);
  }

  lemma DispFlow(s: State, t: Tid, k: Key, e: Eid, ret: bool, ch: Choice)
    requires FlowInv(s) && Pc(s, t) == Disp(k, e, ret)
    ensures FlowInv(StepDisp(s, t, k, e, ret, ch))
  {
    hide FlowInv, Dispatch, Ent;
    AwayDispatch(s, t, k, e, ret, Ent(s, e), ch.code, Ent(s, e).typ.UserReq?, Ent(s, e).typ.UserReqCallback?);
    FlowSame(s, StepDisp(s, t, k, e, ret, ch), t);
  }

  lemma WaitFlow(s: State, t: Tid, r: Rid, e: Eid)
    requires FlowInv(s) && Pc(s, t) == Wait(r, e)
    ensures FlowInv(StepWait(s, t, r, e))
  {
    hide FlowInv, StepWait, StepWaitDone;
    AwayWait(s, t, r, e);
    FlowSame(s, StepWait(s, t, r, e), t);
  }

  lemma WaitDoneFlow(s: State, t: Tid, r: Rid, e: Eid)
    requires FlowInv(s) && Pc(s, t) == WaitDone(r, e)
    ensures FlowInv(StepWaitDone(s, t, r, e))
  {
    hide FlowInv, StepWait, StepWaitDone;
    AwayWait(s, t, r, e);
    FlowSame(s, StepWaitDone(s, t, r, e), t);
  }

  lemma DispSigFlow(s: State, t: Tid, k: Key, e: Eid, ret: bool, res: Code)
    requires FlowInv(s) && Pc(s, t) == DispSig(k, e, ret, res)
    ensures FlowInv(StepDispSig(s, t, k, e, ret, res))
  {
    hide FlowInv, StepDispSig, StepRel, GoTo;
    AwayMore(s, t, Idle, k, e, ret, res, 0);
    FlowSame(s, StepDispSig(s, t, k, e, ret, res), t);
  }

  lemma RelFlow(s: State, t: Tid, p: Pid)
    requires FlowInv(s) && Pc(s, t) == Rel(p)
    ensures FlowInv(StepRel(s, t, p))
  {
    hide FlowInv, StepDispSig, StepRel, GoTo;
    AwayMore(s, t, Idle, Key(p, In), 0, false, 0, p);
    FlowSame(s, StepRel(s, t, p), t);
  }

  lemma ActivityKeepsFlow(s: State, t: Tid, ch: Choice)
    requires FlowInv(s)
    ensures FlowInv(StepActivity(s, t, ch))
  {
    hide FlowInv, StepGet, Insert, StepFlag, StepRetain, StepPlace, StepWake, StepClrOut, Returning, StepDone, StepWait,
         StepWaitDone, StepClrAll, StepClrIn, StepLoop, StepScan, StepScanOpen, StepScanDrop, StepServe, StepDisp,
         StepDispSig, StepRel, GoTo, Ent, Dropped, Shed, Full, DirOf;
    match Pc(s, t)
    case Idle =>
    case Get(c, q) => TakeFlow(s, t, c, q, ch);
    case Ins(c, q, e) =>
      InsertFlow(s, t, c, q, e, Key(q, DirOf(Ent(s, e))), Dropped(Ent(s, e), Ph(s, q)),
                 Shed(Ent(s, e), Ch(s, Key(q, DirOf(Ent(s, e))))), Full(Ent(s, e), Ch(s, Key(q, DirOf(Ent(s, e))))));
    case AtFlag(c, q, d, e) => FlagFlow(s, t, c, q, d, e);
    case AtRetain(c, q, d, e) => RetainFlow(s, t, c, q, d, e);
    case AtPlace(c, q, d, e) => PlaceFlow(s, t, c, q, d, e);
    case AtWake(c, q, e) => WakeFlow(s, t, c, q, e, ch);
    case ClrOut(c, q, pend, code) => ClrOutFlow(s, t, c, q, pend, code);
    case ClrOutRet(c, q, x, pend, code) => ReturnFlow(s, t, x, ClrOut(c, q, pend, code));
    case Rej(c, q, e, code, thenClear) =>
      ReturnFlow(s, t, e, if thenClear && ch.yes then ClrOut(c, q, None, code) else Done(c, q, 0, code));
    case Done(c, q, e, code) => FinishFlow(s, t, c, q, e, code);
    case Wait(r, e) => WaitFlow(s, t, r, e);
    case WaitDone(r, e) => WaitDoneFlow(s, t, r, e);
    case ClrAll(p, d) => ClearNextFlow(s, t, p, d);
    case ClrIn(p, x) => ClearInFlow(s, t, p, x);
    case ClrRet(p, x, d) => ReturnFlow(s, t, x, ClrAll(p, d));
    case Loop => LoopFlow(s, t, ch);
    case Scan(i) => ScanFlow(s, t, i);
    case ScanOpen(i, p) => ScanOpenFlow(s, t, i, p);
    case ScanDrop(i, p) => ScanDropFlow(s, t, i, p);
    case Serve(k) => ServeFlow(s, t, k);
    case Disp(k, e, ret) => DispFlow(s, t, k, e, ret, ch);
    case DispSig(k, e, ret, res) => DispSigFlow(s, t, k, e, ret, res);
    case DispEnd(k, e, ret) => if ret { ReturnFlow(s, t, e, Serve(k)); } else { GoFlow(s, t, Serve(k)); }
    case Rel(p) => RelFlow(s, t, p);
  }

  lemma ReturnFlow(s: State, t: Tid, e: Eid, pc: PC)
    requires FlowInv(s) && !Pc(s, t).AtFlag?
    ensures FlowInv(Returning(s, t, e, pc))
  {
    hide FlowInv, GiveBack, Ent;
    AwayReturn(s, t, e, pc, s.dlock.Some?, Ent(s, e).noreturn);
    FlowSame(s, Returning(s, t, e, pc), t);
  }

  lemma FlowStep(s: State, a: Action)
    requires FlowInv(s)
    ensures FlowInv(Step(s, a))
  {
    hide FlowInv, StepActivity;
    var s' := Step(s, a);
    if !s.panicked {
      match a
      case Run(t, ch) => ActivityKeepsFlow(s, t, ch);
      case CallSync(t, p) => if Pc(s, t).Idle? { CallFlow(s, s', t, Get(Sync(s.nextReq), p)); }
      case CallAsync(t, p) => if Pc(s, t).Idle? { CallFlow(s, s', t, Get(Async(s.nextReq), p)); }
      case CallPost(t, p, typ) => if s' != s { CallFlow(s, s', t, Get(Post(typ), p)); }
      case CallClear(t, p) => if Pc(s, t).Idle? { CallFlow(s, s', t, ClrAll(p, Out)); }
      case SetState(p, o, at, ag, de) => FlowFrame(s, s');
      case ExtRetain(p) => FlowFrame(s, s');
      case ExtRelease(p) => FlowFrame(s, s');
    }
  }

  lemma CallFlow(s: State, s': State, t: Tid, pc: PC)
    requires FlowInv(s) && Pc(s, t).Idle? && s'.ch == s.ch && s'.pc == s.pc[t := pc]
    ensures FlowInv(s')
  {
    hide FlowInv;
    FlowSame(s, s', t);
  }

  lemma FlowFrame(s: State, s': State)
    requires FlowInv(s) && s'.ch == s.ch && s'.pc == s.pc
    ensures FlowInv(s')
  {
    forall j ensures FifoOk(Ch(s', j)) && Watched(s', j) {
      assert FifoOk(Ch(s, j)) && Watched(s, j);
      if u :| Flagging(Pc(s, u), j) {
        assert Flagging(Pc(s', u), j);
      }
    }
  }

  lemma FlowInit()
    ensures FlowInv(INIT)
  {
    forall k ensures FifoOk(Ch(INIT, k)) && Watched(INIT, k) {}
  }

  lemma {:induction false} FlowAlways(actions: seq<Action>)
    ensures FlowInv(Exec(actions))
  {
    hide FlowInv, Step;
    if actions == [] {
      FlowInit();
    } else {
      FlowAlways(actions[..|actions|-1]);
      FlowStep(Exec(actions[..|actions|-1]), actions[|actions|-1]);
    }
  }
}
