/** The WAITING and NORETURN handshake: who may touch the entry of a synchronous request, and when. */
module DispatchHandshake {
  import opened Base
  import opened DispatchModel
  import opened DispatchOwner
  import O = DispatchOwnerSteps
  import RS = DispatchTicketSteps
  import F = DispatchFlow
  import T = DispatchToken

  /** Entry x and its place are as before. */
  predicate Spares(s: State, s': State, x: Eid) {
    Ent(s', x) == Ent(s, x) && Where(s', x) == Where(s, x)
  }

  /** Entry x belongs to activity t, as its own or because it was signalled to it. */
  predicate BelongsTo(s: State, x: Eid, t: Tid) { Where(s, x) == Hand(t) || Where(s, x) == Claimed(t) }

  lemma TakeSpares(s: State, u: Tid, c: Cont, q: Pid, x: Eid, locked: bool, empty: bool, surrender: bool)
    requires x != PoolPick(s.pool) || locked || empty
    ensures Spares(s, Take(s, u, c, q, PoolPick(s.pool), locked, empty, surrender), x)
  {
    hide Disarming, Arming, PoolEmpty, Filled;
  }

  lemma InsertSpares(s: State, u: Tid, c: Cont, q: Pid, e: Eid, k: Key, drop: bool, shed: bool, full: bool, x: Eid)
    requires x != e
    ensures Spares(s, Insert(s, u, c, q, e, k, drop, shed, full), x)
  {
    hide Disarming, Enqueue;
  }

  lemma ClearOneSpares(s: State, u: Tid, k: Key, pc: PC, x: Eid)
    requires Ch(s, k).q != [] && x != Ch(s, k).q[0]
    ensures Spares(s, ClearOne(s, u, k, pc), x)
  {
    hide Losing, PopToClear;
  }

  lemma ReturningSpares(s: State, u: Tid, e: Eid, pc: PC, x: Eid)
    requires x != e
    ensures Spares(s, Returning(s, u, e, pc), x)
  {
    hide PoolReturn, Spares, Ent;
    if s.dlock.Some? || Ent(s, e).noreturn {
      PoolSpares(s, Returning(s, u, e, pc), x);
    } else {
      GivenBackSpares(s, u, e, pc, x);
    }
  }

  lemma GivenBackSpares(s: State, u: Tid, e: Eid, pc: PC, x: Eid)
    requires x != e
    ensures Spares(s, GiveBack(s, u, e, pc, false, false), x)
  {
    hide PoolReturn;
    ReturnSpares(s.pool, e, x);
  }

  lemma ReturnSpares(p: Pool, e: Eid, x: Eid)
    requires x != e
    ensures PEnt(PoolReturn(p, e), x) == PEnt(p, x)
  {
  }

  lemma WaitSpares(s: State, u: Tid, r: Rid, e: Eid, x: Eid)
    requires x != e
    ensures Spares(s, StepWait(s, u, r, e), x) && Spares(s, StepWaitDone(s, u, r, e), x)
  {
    hide Cleaned;
  }

  lemma SignalSpares(s: State, u: Tid, k: Key, e: Eid, ret: bool, res: Code, x: Eid)
    requires x != e
    ensures Spares(s, StepDispSig(s, u, k, e, ret, res), x)
  {
  }

  lemma ClearInSpares(s: State, u: Tid, p: Pid, e: Eid, ent: Entry, waited: bool, called: bool, x: Eid)
    requires x != e
    ensures Spares(s, ClearIn(s, u, p, e, ent, waited, called), x)
  {
  }

  lemma ServeSpares(s: State, u: Tid, k: Key, x: Eid)
    requires Ch(s, k).q == [] || x != Ch(s, k).q[0]
    ensures Spares(s, StepServe(s, u, k), x)
  {
    hide Left, GateOpen, PopToDispatch;
  }

  lemma PoolSpares(s: State, s': State, x: Eid)
    requires s'.pool == s.pool && s'.loc == s.loc
    ensures Spares(s, s', x)
  {
  }

  lemma SeekQuiet(s: State, u: Tid, ch: Choice)
    requires Pc(s, u).Loop? || Pc(s, u).Scan? || Pc(s, u).ScanOpen?
    ensures RS.Quiet(s, StepActivity(s, u, ch), u) || StepActivity(s, u, ch) == s
  {
    hide RS.Quiet, StepLoop, StepScan, StepScanOpen;
    match Pc(s, u)
    case Loop =>
      if s.dlock.Some? {
        LoopBlocked(s, u, ch);
      } else if ch.yes || s.inL == [] {
        RS.LoopGoes(s, u, ch);
      } else {
        RS.LoopPops(s, u, ch);
      }
    case Scan(i) =>
      if 0 <= i < |s.outL| && (Ph(s, s.outL[i]).attached || Ph(s, s.outL[i]).detaching) {
        RS.ScanPops(s, u, i);
      } else {
        RS.ScanGoes(s, u, i);
      }
    case ScanOpen(i, p) =>
      if !Ph(s, p).open && 0 <= i < |s.outL| {
        RS.ScanOpenPops(s, u, i, p);
      } else {
        RS.ScanOpenGoes(s, u, i, p);
      }
  }

  lemma LoopBlocked(s: State, u: Tid, ch: Choice)
    requires s.dlock.Some?
    ensures StepLoop(s, u, ch) == s
  {
  }

  lemma FlagSpares(s: State, u: Tid, c: Cont, q: Pid, d: Dir, e: Eid, x: Eid)
    ensures Spares(s, StepFlag(s, u, c, q, d, e), x)
  {
    hide Ch, Spares;
    if Ch(s, Key(q, d)).flag {
      PoolSpares(s, GoTo(s, u, AtWake(c, q, e)), x);
    } else {
      PoolSpares(s, StepFlag(s, u, c, q, d, e), x);
    }
  }

  lemma PlaceSpares(s: State, u: Tid, c: Cont, q: Pid, d: Dir, e: Eid, x: Eid)
    ensures Spares(s, StepPlace(s, u, c, q, d, e), x)
  {
    hide Ch, Spares;
    PoolSpares(s, StepPlace(s, u, c, q, d, e), x);
  }

  lemma CountSpares(s: State, u: Tid, c: Cont, q: Pid, d: Dir, e: Eid, x: Eid)
    ensures Spares(s, StepRetain(s, u, c, q, d, e), x) && Spares(s, StepRel(s, u, q), x)
  {
    hide Ch, Ph, Spares;
    PoolSpares(s, StepRetain(s, u, c, q, d, e), x);
    PoolSpares(s, StepRel(s, u, q), x);
  }

  lemma DropSpares(s: State, u: Tid, i: int, p: Pid, x: Eid)
    ensures Spares(s, StepScanDrop(s, u, i, p), x)
  {
  }

  lemma WakeSpares(s: State, u: Tid, c: Cont, q: Pid, e: Eid, ch: Choice, x: Eid)
    ensures Spares(s, StepWake(s, u, c, q, e, ch), x)
  {
    hide Pc, Spares;
    PoolSpares(s, StepWake(s, u, c, q, e, ch), x);
  }

  lemma FinishSpares(s: State, u: Tid, c: Cont, e: Eid, code: Code, ok: bool, x: Eid)
    ensures Spares(s, Finish(s, u, c, e, code, ok), x)
  {
    hide After;
  }

  lemma DispatchSpares(s: State, u: Tid, k: Key, e: Eid, ret: bool, ent: Entry, code: Code, req: bool, callback: bool,
                       x: Eid)
    ensures Spares(s, Dispatch(s, u, k, e, ret, ent, code, req, callback), x)
  {
  }

  /** What u may touch is not x: not the head of a queue, not the entry it would get from the pool, not an
    * entry of its own. */
  lemma Foreign(s: State, u: Tid, x: Eid, t: Tid)
    requires OwnerInv(s) && BelongsTo(s, x, t) && t != u
    ensures x !in Hands(Pc(s, u))
    ensures forall k :: Ch(s, k).q != [] ==> x != Ch(s, k).q[0]
    ensures !PoolEmpty(s.pool) ==> x != PoolPick(s.pool)
    ensures SyncOf(Pc(s, u)) == Some(x) ==> Ent(s, x).waiting
  {
    forall k | Ch(s, k).q != [] ensures x != Ch(s, k).q[0] {
      O.QueueKnown(s, k);
    }
    if !PoolEmpty(s.pool) {
      O.TakeFacts(s);
    }
    O.SyncAtKnown(s, u);
  }

  /** No activity touches an entry that belongs to another. */
  lemma ActivitySpares(s: State, u: Tid, ch: Choice, x: Eid, t: Tid)
    requires OwnerInv(s) && BelongsTo(s, x, t) && t != u
    ensures Spares(s, StepActivity(s, u, ch), x)
  {
    hide OwnerInv, Take, Insert, StepFlag, StepRetain, StepPlace, StepWake, ClearOne, Returning, Finish, StepWait,
         StepWaitDone, ClearIn, StepLoop, StepScan, StepScanOpen, StepScanDrop, StepServe, Dispatch,
         StepDispSig, StepRel, Ent, Ch, PoolPick, PoolEmpty, Dropped, Shed, Full, DirOf, Spares, BelongsTo;
    Foreign(s, u, x, t);
    match Pc(s, u)
    case Idle => Same(s, x);
    case Get(c, q) => TakeSpares(s, u, c, q, x, s.dlock.Some?, PoolEmpty(s.pool), c.Post? && ch.yes);
    case Ins(c, q, e) =>
      InsertSpares(s, u, c, q, e, Key(q, DirOf(Ent(s, e))), Dropped(Ent(s, e), Ph(s, q)),
                   Shed(Ent(s, e), Ch(s, Key(q, DirOf(Ent(s, e))))),
                   Full(Ent(s, e), Ch(s, Key(q, DirOf(Ent(s, e))))), x);
    case AtFlag(c, q, d, e) => FlagSpares(s, u, c, q, d, e, x);
    case AtRetain(c, q, d, e) => CountSpares(s, u, c, q, d, e, x);
    case AtPlace(c, q, d, e) => PlaceSpares(s, u, c, q, d, e, x);
    case AtWake(c, q, e) => WakeSpares(s, u, c, q, e, ch, x);
    case ClrOut(c, q, pend, code) => ClrOutSpares(s, u, c, q, pend, code, x);
    case ClrOutRet(c, q, y, pend, code) => ReturningSpares(s, u, y, ClrOut(c, q, pend, code), x);
    case Rej(c, q, e, code, thenClear) =>
      ReturningSpares(s, u, e, if thenClear && ch.yes then ClrOut(c, q, None, code) else Done(c, q, 0, code), x);
    case Done(c, q, e, code) => FinishSpares(s, u, c, e, code, code == OK, x);
    case Wait(r, e) => if e == x { WaitsOn(s, u, r, x); } else { WaitSpares(s, u, r, e, x); }
    case WaitDone(r, e) => WaitSpares(s, u, r, e, x);
    case ClrAll(p, d) => ClrAllSpares(s, u, p, d, x);
    case ClrIn(p, y) =>
      ClearInSpares(s, u, p, y, Ent(s, y), Ent(s, y).noreturn,
                    (Ent(s, y).typ.UserReq? && Ent(s, y).cb) || Ent(s, y).typ.UserReqCallback?, x);
    case ClrRet(p, y, d) => ReturningSpares(s, u, y, ClrAll(p, d), x);
    case Loop => SeekQuiet(s, u, ch); PoolSpares(s, StepActivity(s, u, ch), x);
    case Scan(i) => SeekQuiet(s, u, ch); PoolSpares(s, StepActivity(s, u, ch), x);
    case ScanOpen(i, p) => SeekQuiet(s, u, ch); PoolSpares(s, StepActivity(s, u, ch), x);
    case ScanDrop(i, p) => DropSpares(s, u, i, p, x);
    case Serve(k) => ServeSpares(s, u, k, x);
    case Disp(k, e, ret) =>
      DispatchSpares(s, u, k, e, ret, Ent(s, e), ch.code, Ent(s, e).typ.UserReq?, Ent(s, e).typ.UserReqCallback?, x);
    case DispSig(k, e, ret, res) => SignalSpares(s, u, k, e, ret, res, x);
    case DispEnd(k, e, ret) =>
      if ret { ReturningSpares(s, u, e, Serve(k), x); } else { GoSpares(s, u, Serve(k), x); }
    case Rel(p) => CountSpares(s, u, Post(Nothing), p, In, 0, x);
  }

  lemma Same(s: State, x: Eid)
    ensures Spares(s, s, x)
  {
  }

  lemma GoSpares(s: State, u: Tid, pc: PC, x: Eid)
    ensures Spares(s, GoTo(s, u, pc), x)
  {
  }

  lemma WaitsOn(s: State, u: Tid, r: Rid, x: Eid)
    requires Ent(s, x).waiting
    ensures Spares(s, StepWait(s, u, r, x), x)
  {
  }

  lemma ClrOutSpares(s: State, u: Tid, c: Cont, q: Pid, pend: Option<Eid>, code: Code, x: Eid)
    requires Ch(s, Key(q, Out)).q != [] ==> x != Ch(s, Key(q, Out)).q[0]
    ensures Spares(s, StepClrOut(s, u, c, q, pend, code), x)
  {
    hide Spares, ClearOne, GoTo, Cleared;
    Same(s, x);
    if Ch(s, Key(q, Out)).q == [] {
      GoSpares(s, u, Cleared(c, q, pend, code), x);
    } else {
      ClearOneSpares(s, u, Key(q, Out), ClrOutRet(c, q, Ch(s, Key(q, Out)).q[0], pend, code), x);
    }
  }

  lemma ClrAllSpares(s: State, u: Tid, p: Pid, d: Dir, x: Eid)
    requires forall k :: Ch(s, k).q != [] ==> x != Ch(s, k).q[0]
    ensures Spares(s, StepClrAll(s, u, p, d), x)
  {
    hide Spares, ClearOne, GoTo;
    if d == Out && Ch(s, Key(p, Out)).q != [] {
      ClearOneSpares(s, u, Key(p, Out), ClrRet(p, Ch(s, Key(p, Out)).q[0], Out), x);
    } else if Ch(s, Key(p, In)).q != [] {
      ClearOneSpares(s, u, Key(p, In), ClrIn(p, Ch(s, Key(p, In)).q[0]), x);
    } else {
      GoSpares(s, u, Idle, x);
    }
  }

  // ----- activities do not move each other -----

  lemma AlonePc(s: State, s': State, u: Tid, pc: PC)
    requires s'.pc == s.pc || s'.pc == s.pc[u := pc]
    ensures T.Alone(s, s', u)
  {
  }

  lemma FlagAlone(s: State, u: Tid, c: Cont, q: Pid, d: Dir, e: Eid)
    ensures T.Alone(s, StepFlag(s, u, c, q, d, e), u)
  {
    hide Ch, T.Alone;
    AlonePc(s, StepFlag(s, u, c, q, d, e), u,
            if Ch(s, Key(q, d)).flag then AtWake(c, q, e) else AtRetain(c, q, d, e));
  }

  lemma PlainAlone(s: State, u: Tid, c: Cont, q: Pid, d: Dir, e: Eid)
    ensures T.Alone(s, StepRetain(s, u, c, q, d, e), u) && T.Alone(s, StepPlace(s, u, c, q, d, e), u)
  {
    hide Ch, Ph, T.Alone;
    AlonePc(s, StepRetain(s, u, c, q, d, e), u, AtPlace(c, q, d, e));
    AlonePc(s, StepPlace(s, u, c, q, d, e), u, AtWake(c, q, e));
  }

  lemma ServeAlone(s: State, u: Tid, k: Key, i: int)
    ensures T.Alone(s, StepServe(s, u, k), u) && T.Alone(s, StepScanDrop(s, u, i, k.p), u)
  {
    hide Ch, Ph, Ent, Leaves, Left;
  }

  lemma InsertAlone(s: State, u: Tid, c: Cont, q: Pid, e: Eid, k: Key, drop: bool, shed: bool, full: bool)
    requires Pc(s, u) == Ins(c, q, e)
    ensures T.Alone(s, Insert(s, u, c, q, e, k, drop, shed, full), u)
  {
    hide Insert;
    T.QuietInsert(s, u, c, q, e, k, drop, shed, full);
  }

  lemma ClearAlone(s: State, u: Tid, c: Cont, q: Pid, pend: Option<Eid>, code: Code)
    requires Pc(s, u) == ClrOut(c, q, pend, code)
    ensures T.Alone(s, StepClrOut(s, u, c, q, pend, code), u)
  {
    hide StepClrOut;
    T.QuietClrOut(s, u, c, q, pend, code);
  }

  lemma ClearNextAlone(s: State, u: Tid, p: Pid, d: Dir, out: bool, inb: bool)
    requires Pc(s, u) == ClrAll(p, d)
    ensures T.Alone(s, ClearNext(s, u, p, out, inb), u)
  {
    hide ClearNext;
    T.QuietClearNext(s, u, p, d, out, inb);
  }

  /** Activity t has stayed where it was, or has been started as a dispatcher. */
  predicate OnlyStarts(s: State, s': State, t: Tid) { Pc(s', t) == Pc(s, t) || (Pc(s, t).Idle? && Pc(s', t).Loop?) }

  lemma AloneStarts(s: State, s': State, u: Tid, t: Tid)
    requires t != u && T.Alone(s, s', u)
    ensures OnlyStarts(s, s', t)
  {
  }

  lemma SameStarts(s: State, t: Tid)
    ensures OnlyStarts(s, s, t)
  {
  }

  lemma SeekAlone(s: State, u: Tid, ch: Choice)
    requires Pc(s, u).Loop? || Pc(s, u).Scan? || Pc(s, u).ScanOpen?
    ensures T.Alone(s, StepActivity(s, u, ch), u)
  {
    hide StepActivity;
    SeekQuiet(s, u, ch);
  }

  lemma WakeMovesOne(s: State, u: Tid, c: Cont, q: Pid, e: Eid, ch: Choice, t: Tid)
    requires t != u
    ensures OnlyStarts(s, StepWake(s, u, c, q, e, ch), t)
  {
  }

  predicate Inserting(pc: PC) { pc.Get? || pc.Ins? || pc.ClrOut? || pc.ClrOutRet? || pc.Rej? || pc.Done? }

  lemma InsertingMovesOne(s: State, u: Tid, ch: Choice)
    requires Inserting(Pc(s, u))
    ensures T.Alone(s, StepActivity(s, u, ch), u)
  {
    hide Take, Insert, StepClrOut, GiveBack, Finish, Ent, Ch, PoolPick, PoolEmpty, Dropped, Shed, Full, DirOf, T.Alone;
    match Pc(s, u)
    case Get(c, q) => F.AwayTake(s, u, c, q, PoolPick(s.pool), s.dlock.Some?, PoolEmpty(s.pool), c.Post? && ch.yes);
    case Ins(c, q, e) =>
      InsertAlone(s, u, c, q, e, Key(q, DirOf(Ent(s, e))), Dropped(Ent(s, e), Ph(s, q)),
                  Shed(Ent(s, e), Ch(s, Key(q, DirOf(Ent(s, e))))), Full(Ent(s, e), Ch(s, Key(q, DirOf(Ent(s, e))))));
    case ClrOut(c, q, pend, code) => ClearAlone(s, u, c, q, pend, code);
    case ClrOutRet(c, q, x, pend, code) =>
      F.AwayReturn(s, u, x, ClrOut(c, q, pend, code), s.dlock.Some?, Ent(s, x).noreturn);
    case Rej(c, q, e, code, thenClear) =>
      F.AwayReturn(s, u, e, if thenClear && ch.yes then ClrOut(c, q, None, code) else Done(c, q, 0, code),
                   s.dlock.Some?, Ent(s, e).noreturn);
    case Done(c, q, e, code) => F.AwayFinish(s, u, c, e, code, code == OK);
  }

  /** A step of u leaves every other call in progress where it is; it can only start a dispatcher. */
  lemma ActivityMovesOne(s: State, u: Tid, ch: Choice, t: Tid)
    requires t != u
    ensures OnlyStarts(s, StepActivity(s, u, ch), t)
  {
    hide Take, Insert, StepFlag, StepRetain, StepPlace, StepWake, GoTo, StepClrOut, GiveBack, Finish, StepWait,
         StepWaitDone, ClearNext, ClearIn, StepLoop, StepScan, StepScanOpen, StepScanDrop, StepServe, Dispatch,
         StepDispSig, StepRel, Ent, Ch, PoolPick, PoolEmpty, Dropped, Shed, Full, DirOf, T.Alone, OnlyStarts;
    match Pc(s, u) {
      case Idle => SameStarts(s, t);
      case Get(c, q) => InsertingMovesOne(s, u, ch);
      case Ins(c, q, e) => InsertingMovesOne(s, u, ch);
      case AtFlag(c, q, d, e) => FlagAlone(s, u, c, q, d, e);
      case AtRetain(c, q, d, e) => PlainAlone(s, u, c, q, d, e);
      case AtPlace(c, q, d, e) => PlainAlone(s, u, c, q, d, e);
      case AtWake(c, q, e) => WakeMovesOne(s, u, c, q, e, ch, t);
      case ClrOut(c, q, pend, code) => InsertingMovesOne(s, u, ch);
      case ClrOutRet(c, q, x, pend, code) => InsertingMovesOne(s, u, ch);
      case Rej(c, q, e, code, thenClear) => InsertingMovesOne(s, u, ch);
      case Done(c, q, e, code) => InsertingMovesOne(s, u, ch);
      case Wait(r, e) => F.AwayWait(s, u, r, e);
      case WaitDone(r, e) => F.AwayWait(s, u, r, e);
      case ClrAll(p, d) =>
        ClearNextAlone(s, u, p, d, d == Out && Ch(s, Key(p, Out)).q != [], Ch(s, Key(p, In)).q != []);
      case ClrIn(p, x) =>
        F.AwayClearIn(s, u, p, x, Ent(s, x), Ent(s, x).noreturn,
                      (Ent(s, x).typ.UserReq? && Ent(s, x).cb) || Ent(s, x).typ.UserReqCallback?);
      case ClrRet(p, x, d) => F.AwayReturn(s, u, x, ClrAll(p, d), s.dlock.Some?, Ent(s, x).noreturn);
      case Loop => SeekAlone(s, u, ch);
      case Scan(i) => SeekAlone(s, u, ch);
      case ScanOpen(i, p) => SeekAlone(s, u, ch);
      case ScanDrop(i, p) => ServeAlone(s, u, Key(p, Out), i);
      case Serve(k) => ServeAlone(s, u, k, 0);
      case Disp(k, e, ret) =>
        F.AwayDispatch(s, u, k, e, ret, Ent(s, e), ch.code, Ent(s, e).typ.UserReq?, Ent(s, e).typ.UserReqCallback?);
      case DispSig(k, e, ret, res) => F.AwayMore(s, u, Idle, k, e, ret, res, 0);
      case DispEnd(k, e, ret) =>
        if ret {
          F.AwayReturn(s, u, e, Serve(k), s.dlock.Some?, Ent(s, e).noreturn);
        } else {
          F.AwayMore(s, u, Serve(k), k, e, ret, 0, 0);
        }
      case Rel(p) => F.AwayMore(s, u, Idle, Key(p, In), 0, false, 0, p);
    }
    if T.Alone(s, StepActivity(s, u, ch), u) {
      AloneStarts(s, StepActivity(s, u, ch), u, t);
    }
  }

  // ----- the handshake -----

  /** Activity pc made the request in entry e and has not given the entry back. */
  predicate Waiter(pc: PC, e: Eid) { SyncOf(pc) == Some(e) || (pc.WaitDone? && pc.e == e) }

  /** A waiter's entry stays allocated and out of the free list, whatever anybody else does next; and once
    * WAITING is clear nobody else touches it at all. */
  lemma OthersLeaveTheEntry(actions: seq<Action>, t: Tid, e: Eid, u: Tid, ch: Choice)
    requires Waiter(Pc(Exec(actions), t), e) && u != t
    ensures var s := Exec(actions); var s' := StepActivity(s, u, ch);
      && Waiter(Pc(s', t), e) && e in s'.pool.ents && e !in s'.pool.free
      && (!Ent(s, e).waiting ==> Ent(s', e) == Ent(s, e) && e !in Hands(Pc(s', u)))
  {
    hide OwnerInv, StepActivity;
    var s := Exec(actions);
    var s' := StepActivity(s, u, ch);
    O.OwnerAlways(actions);
    O.ActivityKeepsOwners(s, u, ch);
    ActivityMovesOne(s, u, ch, t);
    WaiterEntry(s', t, e);
    WaiterEntry(s, t, e);
    if !Ent(s, e).waiting {
      ActivitySpares(s, u, ch, e, t);
      NotInHands(s', u, e, t);
    }
  }

  lemma WaiterEntry(s: State, t: Tid, e: Eid)
    requires OwnerInv(s) && Waiter(Pc(s, t), e)
    ensures e in s.pool.ents && e !in s.pool.free && SyncShape(Ent(s, e)) && Ent(s, e).taker == t
    ensures !Ent(s, e).waiting ==> BelongsTo(s, e, t)
  {
    O.Known(s, t);
    O.SyncAtKnown(s, t);
  }

  lemma NotInHands(s: State, u: Tid, e: Eid, t: Tid)
    requires OwnerInv(s) && BelongsTo(s, e, t) && u != t
    ensures e !in Hands(Pc(s, u))
  {
  }

  /** The waiter moves on only when WAITING is clear, and then gives the entry back, once: it ends up free or
    * deallocated, and the caller's result is the one in the entry. */
  lemma WaiterGivesBack(actions: seq<Action>, t: Tid, r: Rid, e: Eid, ch: Choice)
    requires var pc := Pc(Exec(actions), t); pc == Wait(r, e) || pc == WaitDone(r, e)
    ensures var s := Exec(actions); var s' := StepActivity(s, t, ch);
      if Pc(s, t).Wait? then
        && Pc(s', t) == (if Ent(s, e).waiting then Wait(r, e) else WaitDone(r, e))
        && e in s'.pool.ents && e !in s'.pool.free
      else if s.dlock.Some? then s' == s
      else
        && Pc(s', t) == Idle && s'.returned == s.returned[r := Ent(s, e).res]
        && s'.pool.free == (if s.pool.count < ENTRY_DESIRED then [e] + s.pool.free else s.pool.free)
        && (e in s'.pool.ents <==> s.pool.count < ENTRY_DESIRED)
  {
    hide Exec, StepActivity, OwnerInv;
    O.OwnerAlways(actions);
    var s := Exec(actions);
    if Pc(s, t).Wait? {
      WaiterLooks(s, t, r, e, ch);
    } else {
      WaiterReturns(s, t, r, e, ch);
    }
  }

  lemma WaiterLooks(s: State, t: Tid, r: Rid, e: Eid, ch: Choice)
    requires OwnerInv(s) && Pc(s, t) == Wait(r, e)
    ensures var s' := StepActivity(s, t, ch);
      && Pc(s', t) == (if Ent(s, e).waiting then Wait(r, e) else WaitDone(r, e))
      && e in s'.pool.ents && e !in s'.pool.free
  {
    hide OwnerInv;
    WaiterEntry(s, t, e);
  }

  lemma WaiterReturns(s: State, t: Tid, r: Rid, e: Eid, ch: Choice)
    requires OwnerInv(s) && Pc(s, t) == WaitDone(r, e)
    ensures var s' := StepActivity(s, t, ch);
      if s.dlock.Some? then s' == s
      else
        && Pc(s', t) == Idle && s'.returned == s.returned[r := Ent(s, e).res]
        && s'.pool.free == (if s.pool.count < ENTRY_DESIRED then [e] + s.pool.free else s.pool.free)
        && (e in s'.pool.ents <==> s.pool.count < ENTRY_DESIRED)
  {
    hide OwnerInv;
    WaiterEntry(s, t, e);
  }
}
