/** The two ways the engine does not keep its word, and exactly when: a callback that is given something other
  * than its request's result, and an assertion that fails. */
module DispatchOutcomes {
  import opened Base
  import opened DispatchModel
  import opened DispatchOwner
  import O = DispatchOwnerSteps
  import R = DispatchTicket
  import RS = DispatchTicketSteps
  import H = DispatchHandshake

  // ----- what a step does to these -----

  /** pc is giving a synchronous request's entry back, because it was refused, or is on the way there. */
  predicate Refused(pc: PC) { (pc.Rej? || pc.ClrOut? || pc.ClrOutRet?) && pc.c.Sync? }

  /** The step of t posts no callback, fails no assertion and refuses no synchronous request. */
  predicate Mild(s: State, s': State, t: Tid) {
    s'.posts == s.posts && s'.panicked == s.panicked && (Refused(Pc(s', t)) ==> Refused(Pc(s, t)))
  }

  /** No request's ticket moves, and no callback is made. */
  predicate SameFates(s: State, s': State) {
    s'.tickets == s.tickets && s'.calls == s.calls && s'.asyncs == s.asyncs
  }

  lemma MildSame(s: State, t: Tid)
    ensures Mild(s, s, t) && SameFates(s, s)
  {
  }

  lemma MildGo(s: State, t: Tid, pc: PC)
    requires Refused(pc) ==> Refused(Pc(s, t))
    ensures Mild(s, GoTo(s, t, pc), t) && SameFates(s, GoTo(s, t, pc))
  {
  }

  lemma MildFlag(s: State, t: Tid, c: Cont, q: Pid, d: Dir, e: Eid)
    ensures Mild(s, StepFlag(s, t, c, q, d, e), t) && SameFates(s, StepFlag(s, t, c, q, d, e))
  {
    hide Ch, Refused;
    var s', pc := StepFlag(s, t, c, q, d, e), if Ch(s, Key(q, d)).flag then AtWake(c, q, e) else AtRetain(c, q, d, e);
    assert s'.posts == s.posts && s'.panicked == s.panicked && s'.pc == s.pc[t := pc];
    NotRefused(pc);
  }

  lemma NotRefused(pc: PC)
    ensures pc.AtWake? || pc.AtRetain? || O.Seeks(pc) ==> !Refused(pc)
  {
  }

  lemma MildRetain(s: State, t: Tid, c: Cont, q: Pid, d: Dir, e: Eid)
    ensures Mild(s, StepRetain(s, t, c, q, d, e), t) && SameFates(s, StepRetain(s, t, c, q, d, e))
  {
    hide Ch, Ph;
  }

  lemma MildPlace(s: State, t: Tid, c: Cont, q: Pid, d: Dir, e: Eid)
    ensures Mild(s, StepPlace(s, t, c, q, d, e), t) && SameFates(s, StepPlace(s, t, c, q, d, e))
  {
    hide Ch, Ph;
  }

  lemma MildWake(s: State, t: Tid, c: Cont, q: Pid, e: Eid, ch: Choice)
    ensures Mild(s, StepWake(s, t, c, q, e, ch), t) && SameFates(s, StepWake(s, t, c, q, e, ch))
  {
    hide GoTo, Mild;
    MildSame(s, t);
    MildGo(s, t, Done(c, q, e, OK));
    if ch.other != t {
      MildStart(s, t, ch.other, Done(c, q, e, OK));
    }
  }

  lemma MildStart(s: State, t: Tid, u: Tid, pc: PC)
    requires u != t && !Refused(pc)
    ensures Mild(s, GoTo(GoTo(s, u, Loop), t, pc), t) && SameFates(s, GoTo(GoTo(s, u, Loop), t, pc))
  {
  }

  lemma MildClearOne(s: State, t: Tid, k: Key, pc: PC)
    requires Refused(pc) ==> Refused(Pc(s, t))
    ensures Mild(s, ClearOne(s, t, k, pc), t)
  {
  }

  lemma MildClrOut(s: State, t: Tid, c: Cont, q: Pid, pend: Option<Eid>, code: Code)
    requires Pc(s, t) == ClrOut(c, q, pend, code)
    ensures Mild(s, StepClrOut(s, t, c, q, pend, code), t)
  {
    hide GoTo, ClearOne, Mild;
    MildSame(s, t);
    MildGo(s, t, Cleared(c, q, pend, code));
    MildClearOne(s, t, Key(q, Out), ClrOutRet(c, q, Head(Ch(s, Key(q, Out)).q, 0), pend, code));
  }

  lemma MildFinish(s: State, t: Tid, c: Cont, e: Eid, code: Code, ok: bool)
    ensures Mild(s, Finish(s, t, c, e, code, ok), t)
  {
  }

  lemma MildWait(s: State, t: Tid, r: Rid, e: Eid)
    ensures Mild(s, StepWait(s, t, r, e), t) && SameFates(s, StepWait(s, t, r, e))
  {
    hide Ent, Mild;
    if Ent(s, e).waiting {
      MildSame(s, t);
    } else {
      MildNoticed(s, t, r, e);
    }
  }

  lemma MildNoticed(s: State, t: Tid, r: Rid, e: Eid)
    requires !Ent(s, e).waiting
    ensures Mild(s, StepWait(s, t, r, e), t) && SameFates(s, StepWait(s, t, r, e))
  {
    hide Ent;
  }

  lemma MildWaitDone(s: State, t: Tid, r: Rid, e: Eid)
    ensures Mild(s, StepWaitDone(s, t, r, e), t) && SameFates(s, StepWaitDone(s, t, r, e))
  {
    hide Ent, PoolReturn, PoolSet, Returned;
  }

  lemma MildClearNext(s: State, t: Tid, p: Pid, out: bool, inb: bool)
    ensures Mild(s, ClearNext(s, t, p, out, inb), t)
  {
    hide GoTo, ClearOne, Mild;
    MildGo(s, t, Idle);
    MildClearOne(s, t, Key(p, Out), ClrRet(p, Head(Ch(s, Key(p, Out)).q, 0), Out));
    MildClearOne(s, t, Key(p, In), ClrIn(p, Head(Ch(s, Key(p, In)).q, 0)));
  }

  lemma MildClearIn(s: State, t: Tid, p: Pid, x: Eid, ent: Entry, waited: bool, called: bool)
    ensures Mild(s, ClearIn(s, t, p, x, ent, waited, called), t)
  {
  }

  lemma MildSeek(s: State, t: Tid, ch: Choice)
    requires Pc(s, t).Loop? || Pc(s, t).Scan? || Pc(s, t).ScanOpen?
    ensures Mild(s, StepActivity(s, t, ch), t) && SameFates(s, StepActivity(s, t, ch))
  {
    hide StepActivity, Refused, O.Seeks;
    H.SeekQuiet(s, t, ch);
    NotRefused(Pc(StepActivity(s, t, ch), t));
  }

  lemma MildScanDrop(s: State, t: Tid, i: int, p: Pid)
    ensures Mild(s, StepScanDrop(s, t, i, p), t) && SameFates(s, StepScanDrop(s, t, i, p))
  {
    hide Ch, Ph;
  }

  lemma MildServe(s: State, t: Tid, k: Key)
    ensures Mild(s, StepServe(s, t, k), t) && SameFates(s, StepServe(s, t, k))
  {
    hide StepServe, Leaves, Mild, SameFates;
    if Leaves(s, k) {
      MildLeaves(s, t, k);
    } else {
      MildTakes(s, t, k);
    }
  }

  lemma MildLeaves(s: State, t: Tid, k: Key)
    requires Leaves(s, k)
    ensures Mild(s, StepServe(s, t, k), t) && SameFates(s, StepServe(s, t, k))
  {
    hide Leaves, Left, Ph;
  }

  lemma MildTakes(s: State, t: Tid, k: Key)
    requires !Leaves(s, k)
    ensures Mild(s, StepServe(s, t, k), t) && SameFates(s, StepServe(s, t, k))
  {
    hide Leaves, PopToDispatch, Ch, Ent;
  }

  lemma MildDispatch(s: State, t: Tid, k: Key, e: Eid, ret: bool, ent: Entry, code: Code, req: bool, callback: bool)
    ensures Mild(s, Dispatch(s, t, k, e, ret, ent, code, req, callback), t)
  {
  }

  lemma MildSignal(s: State, t: Tid, k: Key, e: Eid, ret: bool, res: Code)
    ensures Mild(s, StepDispSig(s, t, k, e, ret, res), t) && SameFates(s, StepDispSig(s, t, k, e, ret, res))
    ensures Mild(s, StepRel(s, t, k.p), t) && SameFates(s, StepRel(s, t, k.p))
  {
  }

  lemma MildReturning(s: State, t: Tid, e: Eid, pc: PC)
    requires !Ent(s, e).noreturn && (Refused(pc) ==> Refused(Pc(s, t)))
    ensures Mild(s, Returning(s, t, e, pc), t)
  {
    hide PoolReturn, Ent, Returned, Mild;
    if s.dlock.Some? {
      MildSame(s, t);
    } else {
      MildGivenBack(s, t, e, pc);
    }
  }

  lemma MildGivenBack(s: State, t: Tid, e: Eid, pc: PC)
    requires Refused(pc) ==> Refused(Pc(s, t))
    ensures Mild(s, GiveBack(s, t, e, pc, false, false), t)
  {
    hide PoolReturn, Returned;
  }

  lemma ReturningFates(s: State, t: Tid, e: Eid, pc: PC)
    ensures SameFates(s, Returning(s, t, e, pc))
  {
    hide GiveBack;
    GiveBackFates(s, t, e, pc, s.dlock.Some?, Ent(s, e).noreturn);
  }

  lemma GiveBackFates(s: State, t: Tid, e: Eid, pc: PC, locked: bool, asserted: bool)
    ensures SameFates(s, GiveBack(s, t, e, pc, locked, asserted))
  {
    hide PoolReturn, Returned;
  }

  lemma MildTake(s: State, t: Tid, c: Cont, q: Pid, e: Eid, locked: bool, empty: bool, surrender: bool)
    requires (surrender ==> c.Post?) && (c.CbOf? ==> locked || !empty)
    ensures Mild(s, Take(s, t, c, q, e, locked, empty, surrender), t)
  {
  }

  /** The code with which the next step of t ends the posting of a callback, if it does. */
  function PostEnds(s: State, t: Tid): Option<Code> {
    match Pc(s, t)
    case Get(c, q) =>
      if c.CbOf? && s.dlock.None? && s.pool.free == [] && s.pool.count >= ENTRY_MAX then Some(AGAIN) else None
    case Ins(c, q, e) =>
      if !c.CbOf? then None
      else if Ph(s, q).detaching || !(Ph(s, q).attached || Ph(s, q).attaching) then Some(NOTATTACHED)
      else if Ch(s, Key(q, Out)).count > PHID_OHARDMAX then Some(NOSPC)
      else Some(OK)
    case _ => None
  }

  /** The next step of t gives back the entry of a synchronous request that was refused. */
  predicate GivesRefusedBack(s: State, t: Tid) { Pc(s, t).Rej? && Pc(s, t).c.Sync? }

  /** The next step of t refuses a synchronous request, more than 64 entries being queued. */
  predicate Refuses(s: State, t: Tid) {
    Pc(s, t).Ins? && Pc(s, t).c.Sync? && Ch(s, Key(Pc(s, t).q, In)).count > PHID_IMAX
  }

  /** What the step of t does to the postings, the assertion and the refusals. */
  predicate Outcome(s: State, s': State, t: Tid) {
    && (match PostEnds(s, t)
        case Some(code) => s'.posts == s.posts[PostedReq(Pc(s, t)) := code]
        case None => s'.posts == s.posts)
    && (s'.panicked <==> s.panicked || GivesRefusedBack(s, t))
    && (Refused(Pc(s', t)) ==> Refused(Pc(s, t)) || Refuses(s, t))
  }

  function PostedReq(pc: PC): Rid { if (pc.Get? || pc.Ins?) && pc.c.CbOf? then pc.c.r else 0 }

  lemma MildOutcome(s: State, s': State, t: Tid)
    requires Mild(s, s', t) && !Pc(s, t).Ins? && (Pc(s, t).Get? ==> PostEnds(s, t).None?) && !GivesRefusedBack(s, t)
    ensures Outcome(s, s', t)
  {
    hide Refused, Refuses, GivesRefusedBack;
  }

  lemma TakeOutcome(s: State, t: Tid, c: Cont, q: Pid, ch: Choice)
    requires Pc(s, t) == Get(c, q)
    ensures Outcome(s, StepGet(s, t, c, q, ch), t)
  {
    hide Take, PoolPick, Outcome, Mild;
    if c.CbOf? && s.dlock.None? && PoolEmpty(s.pool) {
      TakeFails(s, t, c, q, PoolPick(s.pool));
    } else {
      MildTake(s, t, c, q, PoolPick(s.pool), s.dlock.Some?, PoolEmpty(s.pool), c.Post? && ch.yes);
      MildOutcome(s, StepGet(s, t, c, q, ch), t);
    }
  }

  lemma TakeFails(s: State, t: Tid, c: Cont, q: Pid, e: Eid)
    requires Pc(s, t) == Get(c, q) && c.CbOf? && s.dlock.None? && PoolEmpty(s.pool)
    ensures Outcome(s, Take(s, t, c, q, e, false, true, false), t)
  {
  }

  lemma InsertOutcome(s: State, t: Tid, c: Cont, q: Pid, e: Eid)
    requires OwnerInv(s) && Pc(s, t) == Ins(c, q, e)
    ensures Outcome(s, StepIns(s, t, c, q, e), t)
  {
    hide OwnerInv, Outcome, Insert, Ent, Ch, Ph;
    O.HandsKnown(s, t, e);
    var k := Key(q, DirOf(Ent(s, e)));
    var drop, shed, full := Dropped(Ent(s, e), Ph(s, q)), Shed(Ent(s, e), Ch(s, k)), Full(Ent(s, e), Ch(s, k));
    InsertEnds(s, t, c, q, e, k, drop, shed, full);
  }

  lemma InsertEnds(s: State, t: Tid, c: Cont, q: Pid, e: Eid, k: Key, drop: bool, shed: bool, full: bool)
    requires Pc(s, t) == Ins(c, q, e)
    requires c.CbOf? ==> PostEnds(s, t) == Some(if drop then NOTATTACHED else if shed || full then NOSPC else OK)
    requires c.Sync? ==> !drop && !shed && (full <==> Refuses(s, t))
    ensures Outcome(s, Insert(s, t, c, q, e, k, drop, shed, full), t)
  {
    hide Ch, Enqueue;
  }

  lemma ReturningOutcome(s: State, t: Tid, e: Eid, pc: PC)
    requires !Pc(s, t).Ins? && !Pc(s, t).Get? && (Refused(pc) ==> Refused(Pc(s, t)))
    requires Ent(s, e).noreturn <==> Pc(s, t).Rej? && Pc(s, t).c.Sync?
    ensures Outcome(s, Returning(s, t, e, pc), t)
  {
    hide Ent, Refused, Refuses;
    var s' := Returning(s, t, e, pc);
    if !Ent(s, e).noreturn {
      MildReturning(s, t, e, pc);
      MildOutcome(s, s', t);
    }
  }

  lemma ActivityOutcome(s: State, t: Tid, ch: Choice)
    requires OwnerInv(s)
    ensures Outcome(s, StepActivity(s, t, ch), t)
  {
    hide OwnerInv, Outcome, StepGet, StepIns, StepFlag, StepRetain, StepPlace, StepWake, StepClrOut, Returning,
         Finish, StepWait, StepWaitDone, ClearNext, ClearIn, StepLoop, StepScan, StepScanOpen,
         StepScanDrop, StepServe, Dispatch, StepDispSig, StepRel, GoTo, Ent, Ch, Mild, HandOk;
    var s' := StepActivity(s, t, ch);
    O.Known(s, t);
    match Pc(s, t) {
      case Idle => MildSame(s, t);
      case Get(c, q) => TakeOutcome(s, t, c, q, ch);
      case Ins(c, q, e) => InsertOutcome(s, t, c, q, e);
      case AtFlag(c, q, d, e) => MildFlag(s, t, c, q, d, e);
      case AtRetain(c, q, d, e) => MildRetain(s, t, c, q, d, e);
      case AtPlace(c, q, d, e) => MildPlace(s, t, c, q, d, e);
      case AtWake(c, q, e) => MildWake(s, t, c, q, e, ch);
      case ClrOut(c, q, pend, code) => MildClrOut(s, t, c, q, pend, code);
      case ClrOutRet(c, q, x, pend, code) => BackKnown(s, t, x); ReturningOutcome(s, t, x, ClrOut(c, q, pend, code));
      case Rej(c, q, e, code, thenClear) =>
        BackKnown(s, t, e);
        ReturningOutcome(s, t, e, if thenClear && ch.yes then ClrOut(c, q, None, code) else Done(c, q, 0, code));
      case Done(c, q, e, code) => MildFinish(s, t, c, e, code, code == OK);
      case Wait(r, e) => MildWait(s, t, r, e);
      case WaitDone(r, e) => MildWaitDone(s, t, r, e);
      case ClrAll(p, d) => MildClearNext(s, t, p, d == Out && Ch(s, Key(p, Out)).q != [], Ch(s, Key(p, In)).q != []);
      case ClrIn(p, x) =>
        MildClearIn(s, t, p, x, Ent(s, x), Ent(s, x).noreturn,
                    (Ent(s, x).typ.UserReq? && Ent(s, x).cb) || Ent(s, x).typ.UserReqCallback?);
      case ClrRet(p, x, d) => BackKnown(s, t, x); ReturningOutcome(s, t, x, ClrAll(p, d));
      case Loop => MildSeek(s, t, ch);
      case Scan(i) => MildSeek(s, t, ch);
      case ScanOpen(i, p) => MildSeek(s, t, ch);
      case ScanDrop(i, p) => MildScanDrop(s, t, i, p);
      case Serve(k) => MildServe(s, t, k);
      case Disp(k, e, ret) =>
        MildDispatch(s, t, k, e, ret, Ent(s, e), ch.code, Ent(s, e).typ.UserReq?, Ent(s, e).typ.UserReqCallback?);
      case DispSig(k, e, ret, res) => MildSignal(s, t, k, e, ret, res);
      case DispEnd(k, e, ret) =>
        if ret {
          BackKnown(s, t, e);
          ReturningOutcome(s, t, e, Serve(k));
        } else {
          MildGo(s, t, Serve(k));
        }
      case Rel(p) => MildSignal(s, t, Key(p, In), 0, false, 0);
    }
    if Mild(s, s', t) && !Pc(s, t).Get? && !Pc(s, t).Ins? && !Pc(s, t).Rej? {
      MildOutcome(s, s', t);
    }
  }

  /** The entry an activity is about to pass to returnDispatchEntry. */
  function GivesBack(pc: PC): Option<Eid> {
    match pc
    case ClrOutRet(_, _, x, _, _) => Some(x)
    case Rej(_, _, e, _, _) => Some(e)
    case ClrRet(_, x, _) => Some(x)
    case DispEnd(_, e, ret) => if ret then Some(e) else None
    case _ => None
  }

  lemma BackKnown(s: State, t: Tid, e: Eid)
    requires OwnerInv(s) && GivesBack(Pc(s, t)) == Some(e)
    ensures Ent(s, e).noreturn <==> Pc(s, t).Rej? && Pc(s, t).c.Sync?
  {
    hide OwnerInv;
    O.Known(s, t);
  }

  // ----- over whole runs -----

  /** The action ends the posting of the callback of r, with this code. */
  predicate PostsNow(s: State, a: Action, r: Rid, code: Code) {
    !s.panicked && a.Run? && PostEnds(s, a.t) == Some(code) && PostedReq(Pc(s, a.t)) == r
  }

  /** The action gives back the entry of a refused synchronous request. */
  predicate FailsNow(s: State, a: Action) { !s.panicked && a.Run? && GivesRefusedBack(s, a.t) }

  /** The action refuses a synchronous request. */
  predicate RefusesNow(s: State, a: Action) { !s.panicked && a.Run? && Refuses(s, a.t) }

  lemma StepPanics(s: State, a: Action)
    requires OwnerInv(s)
    ensures Step(s, a).panicked <==> s.panicked || FailsNow(s, a)
  {
    hide OwnerInv, StepActivity, GivesRefusedBack, PostEnds;
    if !s.panicked && a.Run? {
      ActivityOutcome(s, a.t, a.choice);
    }
  }

  lemma StepPosts(s: State, a: Action, r: Rid)
    requires OwnerInv(s)
    ensures var s' := Step(s, a);
      (forall code: Code :: PostsNow(s, a, r, code) ==> r in s'.posts && s'.posts[r] == code) &&
      ((forall code: Code :: !PostsNow(s, a, r, code)) ==>
        (r in s'.posts <==> r in s.posts) && (r in s.posts ==> s'.posts[r] == s.posts[r]))
  {
    hide OwnerInv, StepActivity, GivesRefusedBack, PostEnds;
    if !s.panicked && a.Run? {
      ActivityOutcome(s, a.t, a.choice);
      if PostEnds(s, a.t).Some? {
        assert PostsNow(s, a, PostedReq(Pc(s, a.t)), PostEnds(s, a.t).value);
      }
    }
  }

  ghost predicate NoneRefused(s: State) { forall t :: !Refused(Pc(s, t)) }

  lemma StepRefuses(s: State, a: Action)
    requires OwnerInv(s) && NoneRefused(s) && !RefusesNow(s, a)
    ensures NoneRefused(Step(s, a))
  {
    hide OwnerInv, StepActivity, Refuses, Refused;
    var s' := Step(s, a);
    forall t ensures !Refused(Pc(s', t)) {
      assert !Refused(Pc(s, t));
      RefusedNot(Pc(s', t));
      if !s.panicked && a.Run? {
        if t == a.t {
          ActivityOutcome(s, t, a.choice);
        } else {
          H.ActivityMovesOne(s, a.t, a.choice, t);
        }
      } else {
        assert Pc(s', t) == Pc(s, t) || Pc(s', t).Get? || Pc(s', t).ClrAll?;
      }
    }
  }

  lemma RefusedNot(pc: PC)
    ensures pc.Get? || pc.ClrAll? || pc.Loop? || pc.Idle? ==> !Refused(pc)
  {
  }

  /** The assertion of returnDispatchEntry has failed in a run iff some action of it was the giving back of
    * the entry of a synchronous request that had been refused. */
  lemma {:induction false} PanicsExactly(actions: seq<Action>)
    ensures Exec(actions).panicked <==>
      exists j :: 0 <= j < |actions| && FailsNow(Exec(actions[..j]), actions[j])
  {
    hide OwnerInv, Step, FailsNow;
    if actions != [] {
      var n := |actions| - 1;
      var before := actions[..n];
      PanicsExactly(before);
      O.OwnerAlways(before);
      StepPanics(Exec(before), actions[n]);
      assert forall j :: 0 <= j <= n ==> before[..j] == actions[..j];
      if Exec(actions).panicked && Exec(before).panicked {
        var j :| 0 <= j < n && FailsNow(Exec(before[..j]), before[j]);
        assert FailsNow(Exec(actions[..j]), actions[j]);
      }
      if j :| 0 <= j < |actions| && FailsNow(Exec(actions[..j]), actions[j]) {
        assert j < n ==> FailsNow(Exec(before[..j]), before[j]);
      }
    }
  }

  /** A run in which no synchronous insertion finds more than 64 entries queued never fails it. */
  lemma {:induction false} NeverPanics(actions: seq<Action>)
    requires forall j :: 0 <= j < |actions| ==> !RefusesNow(Exec(actions[..j]), actions[j])
    ensures !Exec(actions).panicked && NoneRefused(Exec(actions))
  {
    hide OwnerInv, Step, RefusesNow, Refused;
    if actions == [] {
      NothingRefused();
    } else {
      var n := |actions| - 1;
      var before := actions[..n];
      forall j | 0 <= j < n ensures !RefusesNow(Exec(before[..j]), before[j]) {
        assert before[..j] == actions[..j] && before[j] == actions[j];
      }
      NeverPanics(before);
      O.OwnerAlways(before);
      assert !RefusesNow(Exec(actions[..n]), actions[n]);
      StepRefuses(Exec(before), actions[n]);
      StepPanics(Exec(before), actions[n]);
      NotFailing(Exec(before), actions[n]);
    }
  }

  lemma NothingRefused()
    ensures NoneRefused(INIT)
  {
  }

  lemma NotFailing(s: State, a: Action)
    requires NoneRefused(s)
    ensures !FailsNow(s, a)
  {
    assert a.Run? ==> !Refused(Pc(s, a.t));
  }

  /** The callback of r is posted once: the code recorded for it is the one its posting ended with. */
  lemma {:induction false} PostedExactly(actions: seq<Action>, r: Rid, code: Code)
    ensures var s := Exec(actions);
      (r in s.posts && s.posts[r] == code) <==>
        exists j :: 0 <= j < |actions| && PostsNow(Exec(actions[..j]), actions[j], r, code)
  {
    hide OwnerInv, R.RequestInv, Step, PostsNow;
    if actions != [] {
      var n := |actions| - 1;
      var before := actions[..n];
      PostedExactly(before, r, code);
      O.OwnerAlways(before);
      RS.RequestAlways(before);
      StepPosts(Exec(before), actions[n], r);
      PostsOnce(Exec(before), actions[n], r);
      assert forall j :: 0 <= j <= n ==> before[..j] == actions[..j];
      if r in Exec(before).posts && Exec(before).posts[r] == code {
        var j :| 0 <= j < n && PostsNow(Exec(before[..j]), before[j], r, code);
        assert PostsNow(Exec(actions[..j]), actions[j], r, code);
      }
      if j :| 0 <= j < |actions| && PostsNow(Exec(actions[..j]), actions[j], r, code) {
        assert j < n ==> PostsNow(Exec(before[..j]), before[j], r, code);
      }
    }
  }

  lemma PostsOnce(s: State, a: Action, r: Rid)
    requires OwnerInv(s) && R.RequestInv(s)
    ensures r in s.posts ==> forall code: Code :: !PostsNow(s, a, r, code)
  {
    hide OwnerInv, R.TicketInv, R.RunInv, R.AnswerInv, R.CallbackInv;
    if a.Run? {
      RS.PostingKnown(s, a.t);
      if Pc(s, a.t).Ins? && Pc(s, a.t).c.CbOf? {
        var e := Pc(s, a.t).e;
        O.HandsKnown(s, a.t, e);
        RS.CallbackKnown(s, e);
      }
    }
  }

  /** What an asynchronous callback is given.  Its request's result, if the callback entry could be posted;
    * if not, the code of the failed posting; and NOTATTACHED if bridgeInput never ran on the request. */
  lemma AsynchronousAnswer(actions: seq<Action>, i: nat)
    requires i < |Exec(actions).calls|
    ensures var s := Exec(actions); var c := s.calls[i];
      if c.req !in s.processed then c.maker == InboundClear && c.code == NOTATTACHED
      else if c.req !in s.posts then false
      else if s.posts[c.req] == OK then c.maker == Dispatcher && c.code == s.processed[c.req]
      else c.maker == FailedPost && c.code == s.posts[c.req]
  {
    RS.RequestAlways(actions);
    assert R.CallOk(Exec(actions), Exec(actions).calls[i]);
  }

  /** The assertion that a returned entry is not NORETURN fails exactly when the entry of a synchronous
    * request is given back because it was refused. */
  lemma AssertionFails(actions: seq<Action>, t: Tid)
    ensures var s := Exec(actions); var pc := Pc(s, t);
      GivesBack(pc).Some? ==> (Ent(s, GivesBack(pc).value).noreturn <==> pc.Rej? && pc.c.Sync?)
  {
    hide OwnerInv, Ent;
    O.OwnerAlways(actions);
    O.Known(Exec(actions), t);
  }

  /** A synchronous request is refused exactly when more than 64 inbound entries are waiting. */
  lemma SynchronousRefused(actions: seq<Action>, t: Tid, ch: Choice)
    requires var pc := Pc(Exec(actions), t); pc.Ins? && pc.c.Sync?
    ensures var s := Exec(actions); var pc := Pc(s, t); var pc' := Pc(StepActivity(s, t, ch), t);
      if Ch(s, Key(pc.q, In)).count > PHID_IMAX then pc' == Rej(pc.c, pc.q, pc.e, NOSPC, false)
      else pc' == AtFlag(pc.c, pc.q, In, pc.e)
  {
    O.OwnerAlways(actions);
    O.Known(Exec(actions), t);
  }
}
