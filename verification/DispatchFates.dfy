/** What becomes of a request in the end: which steps use up its ticket without calling anybody, and so when an
  * asynchronous request is never called back. */
module DispatchFates {
  import opened Base
  import opened DispatchModel
  import opened DispatchOwner
  import opened DispatchTicket
  import O = DispatchOwnerSteps
  import RS = DispatchTicketSteps
  import Z = DispatchOutcomes

  // ----- single steps -----

  /** The head of k's queue, if it has a callback: the request of which nobody will hear once it is cleared. */
  function HeadCallback(s: State, k: Key): Option<Rid> {
    if Ch(s, k).q != [] && Ent(s, Ch(s, k).q[0]).cb then Some(Ent(s, Ch(s, k).q[0]).req) else None
  }

  /** The request, if any, whose ticket the next step of t uses up without a callback. */
  function Spends(s: State, t: Tid): Option<Rid> {
    match Pc(s, t)
    case Get(c, q) => if (c.Sync? || c.Async?) && s.dlock.None? && PoolEmpty(s.pool) then Some(c.r) else None
    case Ins(c, q, e) =>
      if (c.Sync? || c.Async?) && Ch(s, Key(q, In)).count > PHID_IMAX then Some(c.r) else None
    case ClrOut(c, q, pend, code) => if Ch(s, Key(q, Out)).has then HeadCallback(s, Key(q, Out)) else None
    case ClrAll(p, d) => if d == Out then HeadCallback(s, Key(p, Out)) else None
    case ClrIn(p, x) => if Ent(s, x).noreturn then Some(Ent(s, x).req) else None
    case Disp(k, e, ret) => if Ent(s, e).typ.UserReq? && !Ent(s, e).cb then Some(Ent(s, e).req) else None
    case _ => None
  }

  /** Exactly the ticket of that request becomes spent, and a ticket that is used up by a call has its call. */
  ghost predicate Fates(s: State, s': State, t: Tid) {
    && (forall r :: TicketOf(s', r) == Spent <==> TicketOf(s, r) == Spent || Spends(s, t) == Some(r))
    && s.calls <= s'.calls && s'.asyncs == s.asyncs
    && (forall r :: TicketOf(s', r) == Fired && TicketOf(s, r) != Fired ==> CalledNow(s, s', r))
  }

  lemma Plain(s: State, s': State, t: Tid)
    requires Z.SameFates(s, s') && Spends(s, t) == None
    ensures Fates(s, s', t)
  {
    assert forall r :: TicketOf(s', r) == TicketOf(s, r);
  }

  /** One ticket changes. */
  lemma OneTicket(s: State, s': State, t: Tid, r: Rid)
    requires s'.tickets == s.tickets[r := TicketOf(s', r)] && s'.asyncs == s.asyncs && TicketOf(s, r) != Spent
    requires Spends(s, t) == if TicketOf(s', r) == Spent then Some(r) else None
    requires if TicketOf(s', r) == Fired then CalledNow(s, s', r) else s'.calls == s.calls
    ensures Fates(s, s', t)
  {
    assert forall q :: q != r ==> TicketOf(s', q) == TicketOf(s, q);
  }

  lemma TakeFates(s: State, t: Tid, c: Cont, q: Pid, ch: Choice)
    requires TicketInv(s) && Pc(s, t) == Get(c, q)
    ensures Fates(s, StepGet(s, t, c, q, ch), t)
  {
    hide TicketInv, Fates, Take, PoolPick, PoolEmpty;
    if s.dlock.Some? {
      TakeWaits(s, t, c, q, PoolPick(s.pool), PoolEmpty(s.pool), c.Post? && ch.yes);
      Plain(s, s, t);
    } else if PoolEmpty(s.pool) {
      TakeNone(s, t, c, q, PoolPick(s.pool), c.Post? && ch.yes);
    } else {
      TakeSome(s, t, c, q, PoolPick(s.pool), c.Post? && ch.yes);
    }
  }

  lemma TakeWaits(s: State, t: Tid, c: Cont, q: Pid, e: Eid, empty: bool, surrender: bool)
    ensures Take(s, t, c, q, e, true, empty, surrender) == s
  {
  }

  lemma TakeNone(s: State, t: Tid, c: Cont, q: Pid, e: Eid, surrender: bool)
    requires TicketInv(s) && Pc(s, t) == Get(c, q) && s.dlock.None? && PoolEmpty(s.pool)
    ensures Fates(s, Take(s, t, c, q, e, false, true, surrender), t)
  {
    hide TicketInv, Fates, PoolEmpty;
    var s' := Take(s, t, c, q, e, false, true, surrender);
    RS.FlightKnown(s, t);
    if c.Post? {
      Plain(s, s', t);
    } else {
      OneTicket(s, s', t, c.r);
    }
  }

  lemma TakeSome(s: State, t: Tid, c: Cont, q: Pid, e: Eid, surrender: bool)
    requires TicketInv(s) && Pc(s, t) == Get(c, q) && s.dlock.None? && !PoolEmpty(s.pool) && (surrender ==> c.Post?)
    ensures Fates(s, Take(s, t, c, q, e, false, false, surrender), t)
  {
    hide TicketInv, Fates, PoolTake, PoolGet, PoolEmpty;
    var s' := Take(s, t, c, q, e, false, false, surrender);
    RS.FlightKnown(s, t);
    if c.Post? {
      Plain(s, s', t);
    } else {
      OneTicket(s, s', t, c.r);
    }
  }

  lemma InsertFates(s: State, t: Tid, c: Cont, q: Pid, e: Eid)
    requires OwnerInv(s) && RequestInv(s) && Pc(s, t) == Ins(c, q, e)
    ensures Fates(s, StepIns(s, t, c, q, e), t)
  {
    hide OwnerInv, TicketInv, RunInv, AnswerInv, CallbackInv, Fates, Insert, Ent, Ch, Ph;
    RS.CallbackFilled(s, t, c, q, e);
    RS.FilledKnown(s, t, c, q, e);
    var k := Key(q, DirOf(Ent(s, e)));
    var drop, shed, full := Dropped(Ent(s, e), Ph(s, q)), Shed(Ent(s, e), Ch(s, k)), Full(Ent(s, e), Ch(s, k));
    InsertOne(s, t, c, q, e, k, drop, shed, full);
  }

  lemma InsertOne(s: State, t: Tid, c: Cont, q: Pid, e: Eid, k: Key, drop: bool, shed: bool, full: bool)
    requires Pc(s, t) == Ins(c, q, e) && (!c.Post? ==> TicketOf(s, c.r) == Armed(e))
    requires c.Sync? || c.Async? ==> !drop && !shed && (full <==> Ch(s, Key(q, In)).count > PHID_IMAX)
    ensures Fates(s, Insert(s, t, c, q, e, k, drop, shed, full), t)
  {
    hide Fates, Ch, Enqueue;
    var s' := Insert(s, t, c, q, e, k, drop, shed, full);
    if c.Post? || !(drop || shed || full) {
      Plain(s, s', t);
    } else {
      OneTicket(s, s', t, c.r);
    }
  }

  lemma ClearFates(s: State, t: Tid, k: Key, pc: PC)
    requires OwnerInv(s) && RequestInv(s) && Ch(s, k).q != []
    requires Spends(s, t) == if k.d == Out then HeadCallback(s, k) else None
    ensures Fates(s, ClearOne(s, t, k, pc), t)
  {
    hide OwnerInv, TicketInv, RunInv, AnswerInv, CallbackInv, Fates, PopToClear;
    var s', e := ClearOne(s, t, k, pc), Ch(s, k).q[0];
    RS.PopFacts(s, k);
    if k.d == Out && Ent(s, e).cb {
      RS.CarrierKnown(s, e);
      OneTicket(s, s', t, Ent(s, e).req);
    } else {
      Plain(s, s', t);
    }
  }

  lemma FinishFates(s: State, t: Tid, c: Cont, q: Pid, e: Eid, code: Code)
    requires TicketInv(s) && Pc(s, t) == Done(c, q, e, code)
    ensures Fates(s, StepDone(s, t, c, q, e, code), t)
  {
    hide TicketInv, Fates, Finish;
    RS.FlightKnown(s, t);
    FinishOne(s, t, c, q, e, code, code == OK);
  }

  lemma FinishOne(s: State, t: Tid, c: Cont, q: Pid, e: Eid, code: Code, ok: bool)
    requires Pc(s, t) == Done(c, q, e, code) && (c.CbOf? && !ok ==> TicketOf(s, c.r) == InFlight(t))
    ensures Fates(s, Finish(s, t, c, e, code, ok), t)
  {
    hide Fates, After;
    if c.CbOf? && !ok {
      OneTicket(s, Finish(s, t, c, e, code, false), t, c.r);
    } else {
      Plain(s, Finish(s, t, c, e, code, ok), t);
    }
  }

  lemma ClearInFates(s: State, t: Tid, p: Pid, x: Eid)
    requires OwnerInv(s) && RequestInv(s) && Pc(s, t) == ClrIn(p, x)
    ensures Fates(s, StepClrIn(s, t, p, x), t)
  {
    hide OwnerInv, TicketInv, RunInv, AnswerInv, CallbackInv, Fates, ClearIn;
    O.HandsKnown(s, t, x);
    var ent, called := Ent(s, x), (Ent(s, x).typ.UserReq? && Ent(s, x).cb) || Ent(s, x).typ.UserReqCallback?;
    if ent.noreturn || called {
      RS.CarrierKnown(s, x);
    }
    ClearInOne(s, t, p, x, ent, ent.noreturn, called);
  }

  lemma ClearInOne(s: State, t: Tid, p: Pid, x: Eid, ent: Entry, waited: bool, called: bool)
    requires Pc(s, t) == ClrIn(p, x) && ent == Ent(s, x) && waited == ent.noreturn
    requires waited || called ==> TicketOf(s, ent.req) == Armed(x)
    ensures Fates(s, ClearIn(s, t, p, x, ent, waited, called), t)
  {
    hide Fates;
    var s' := ClearIn(s, t, p, x, ent, waited, called);
    if waited || called {
      OneTicket(s, s', t, ent.req);
    } else {
      Plain(s, s', t);
    }
  }

  lemma DispFates(s: State, t: Tid, k: Key, e: Eid, ret: bool, code: Code)
    requires OwnerInv(s) && RequestInv(s) && Pc(s, t) == Disp(k, e, ret)
    ensures var ent := Ent(s, e);
      Fates(s, Dispatch(s, t, k, e, ret, ent, code, ent.typ.UserReq?, ent.typ.UserReqCallback?), t)
  {
    hide OwnerInv, TicketInv, RunInv, AnswerInv, CallbackInv, Fates, Dispatch;
    O.HandsKnown(s, t, e);
    if Ticketed(Ent(s, e)) {
      RS.CarrierKnown(s, e);
    }
    DispatchOne(s, t, k, e, ret, Ent(s, e), code, Ent(s, e).typ.UserReq?, Ent(s, e).typ.UserReqCallback?);
  }

  lemma DispatchOne(s: State, t: Tid, k: Key, e: Eid, ret: bool, ent: Entry, code: Code, req: bool, callback: bool)
    requires Pc(s, t) == Disp(k, e, ret) && ent == Ent(s, e) && req == ent.typ.UserReq?
    requires req || callback ==> TicketOf(s, ent.req) == Armed(e)
    ensures Fates(s, Dispatch(s, t, k, e, ret, ent, code, req, callback), t)
  {
    hide Fates;
    var s' := Dispatch(s, t, k, e, ret, ent, code, req, callback);
    if req || callback {
      OneTicket(s, s', t, ent.req);
    } else {
      Plain(s, s', t);
    }
  }

  lemma ClrOutFates(s: State, t: Tid, c: Cont, q: Pid, pend: Option<Eid>, code: Code)
    requires OwnerInv(s) && RequestInv(s) && Pc(s, t) == ClrOut(c, q, pend, code)
    ensures Fates(s, StepClrOut(s, t, c, q, pend, code), t)
  {
    hide OwnerInv, RequestInv, Fates, ClearOne, Cleared;
    if !Ch(s, Key(q, Out)).has {
      Plain(s, s, t);
    } else if Ch(s, Key(q, Out)).q == [] {
      Plain(s, GoTo(s, t, Cleared(c, q, pend, code)), t);
    } else {
      ClearFates(s, t, Key(q, Out), ClrOutRet(c, q, Ch(s, Key(q, Out)).q[0], pend, code));
    }
  }

  lemma ClrAllFates(s: State, t: Tid, p: Pid, d: Dir)
    requires OwnerInv(s) && RequestInv(s) && Pc(s, t) == ClrAll(p, d)
    ensures Fates(s, StepClrAll(s, t, p, d), t)
  {
    hide OwnerInv, RequestInv, Fates, ClearOne;
    if d == Out && Ch(s, Key(p, Out)).q != [] {
      ClearFates(s, t, Key(p, Out), ClrRet(p, Ch(s, Key(p, Out)).q[0], Out));
    } else if Ch(s, Key(p, In)).q != [] {
      ClearFates(s, t, Key(p, In), ClrIn(p, Ch(s, Key(p, In)).q[0]));
    } else {
      Plain(s, GoTo(s, t, Idle), t);
    }
  }

  lemma ActivityFates(s: State, t: Tid, ch: Choice)
    requires OwnerInv(s) && RequestInv(s)
    ensures Fates(s, StepActivity(s, t, ch), t)
  {
    hide OwnerInv, TicketInv, RunInv, AnswerInv, CallbackInv, Fates, StepGet, StepIns, StepFlag, StepRetain, StepPlace,
         StepWake, StepClrOut, Returning, StepDone, StepWait, StepWaitDone, StepClrAll, StepClrIn, StepLoop, StepScan,
         StepScanOpen, StepScanDrop, StepServe, Dispatch, StepDispSig, StepRel, GoTo, Ent, Ch, Z.Mild;
    var s' := StepActivity(s, t, ch);
    match Pc(s, t) {
      case Idle => Z.MildSame(s, t);
      case Get(c, q) => TakeFates(s, t, c, q, ch);
      case Ins(c, q, e) => InsertFates(s, t, c, q, e);
      case AtFlag(c, q, d, e) => Z.MildFlag(s, t, c, q, d, e);
      case AtRetain(c, q, d, e) => Z.MildRetain(s, t, c, q, d, e);
      case AtPlace(c, q, d, e) => Z.MildPlace(s, t, c, q, d, e);
      case AtWake(c, q, e) => Z.MildWake(s, t, c, q, e, ch);
      case ClrOut(c, q, pend, code) => ClrOutFates(s, t, c, q, pend, code);
      case ClrOutRet(c, q, x, pend, code) => Z.ReturningFates(s, t, x, ClrOut(c, q, pend, code));
      case Rej(c, q, e, code, thenClear) =>
        Z.ReturningFates(s, t, e, if thenClear && ch.yes then ClrOut(c, q, None, code) else Done(c, q, 0, code));
      case Done(c, q, e, code) => FinishFates(s, t, c, q, e, code);
      case Wait(r, e) => Z.MildWait(s, t, r, e);
      case WaitDone(r, e) => Z.MildWaitDone(s, t, r, e);
      case ClrAll(p, d) => ClrAllFates(s, t, p, d);
      case ClrIn(p, x) => ClearInFates(s, t, p, x);
      case ClrRet(p, x, d) => Z.ReturningFates(s, t, x, ClrAll(p, d));
      case Loop => Z.MildSeek(s, t, ch);
      case Scan(i) => Z.MildSeek(s, t, ch);
      case ScanOpen(i, p) => Z.MildSeek(s, t, ch);
      case ScanDrop(i, p) => Z.MildScanDrop(s, t, i, p);
      case Serve(k) => Z.MildServe(s, t, k);
      case Disp(k, e, ret) => DispFates(s, t, k, e, ret, ch.code);
      case DispSig(k, e, ret, res) => Z.MildSignal(s, t, k, e, ret, res);
      case DispEnd(k, e, ret) => if ret { Z.ReturningFates(s, t, e, Serve(k)); } else { Z.MildGo(s, t, Serve(k)); }
      case Rel(p) => Z.MildSignal(s, t, Key(p, In), 0, false, 0);
    }
    if Z.SameFates(s, s') && Spends(s, t) == None {
      Plain(s, s', t);
    }
  }

  // ----- over whole runs -----

  /** The action uses up the ticket of r without a callback. */
  predicate SpendsNow(s: State, a: Action, r: Rid) { !s.panicked && a.Run? && Spends(s, a.t) == Some(r) }

  /** The action refuses the asynchronous request r, and its caller is told: nothing is free and 32768 entries are
    * allocated, or more than 64 entries are queued. */
  predicate RefusesNow(s: State, a: Action, r: Rid) {
    && !s.panicked && a.Run?
    && match Pc(s, a.t)
       case Get(c, q) => c == Async(r) && s.dlock.None? && s.pool.free == [] && s.pool.count >= ENTRY_MAX
       case Ins(c, q, e) => c == Async(r) && Ch(s, Key(q, In)).count > PHID_IMAX
       case _ => false
  }

  /** The callback entry of r is at the head of k's queue. */
  predicate Heads(s: State, k: Key, r: Rid) {
    Ch(s, k).q != [] && Ent(s, Ch(s, k).q[0]).typ.UserReqCallback? && Ent(s, Ch(s, k).q[0]).req == r
  }

  /** The action is a clear of an outbound queue that takes the callback entry of r off it. */
  predicate ClearsNow(s: State, a: Action, r: Rid) {
    && !s.panicked && a.Run?
    && match Pc(s, a.t)
       case ClrOut(c, q, pend, code) => Ch(s, Key(q, Out)).has && Heads(s, Key(q, Out), r)
       case ClrAll(p, d) => d == Out && Heads(s, Key(p, Out), r)
       case _ => false
  }

  predicate EndsNow(s: State, a: Action, r: Rid) { RefusesNow(s, a, r) || ClearsNow(s, a, r) }

  /** What an action does to the tickets and the calls. */
  ghost predicate Moves(s: State, a: Action, s': State) {
    && (forall r :: TicketOf(s', r) == Spent <==> TicketOf(s, r) == Spent || SpendsNow(s, a, r))
    && s.calls <= s'.calls && (a.Run? ==> s'.asyncs == s.asyncs)
    && (forall r :: TicketOf(s', r) == Fired && TicketOf(s, r) != Fired ==> CalledNow(s, s', r))
  }

  lemma StepFates(s: State, a: Action)
    requires OwnerInv(s) && RequestInv(s)
    ensures Moves(s, a, Step(s, a))
  {
    hide OwnerInv, TicketInv, RunInv, AnswerInv, CallbackInv, StepActivity, Spends, Moves;
    if s.panicked {
      SameMoves(s, a);
    } else if a.Run? {
      RunMoves(s, a);
    } else {
      OtherMoves(s, a);
    }
  }

  lemma SameMoves(s: State, a: Action)
    requires s.panicked
    ensures Moves(s, a, s)
  {
  }

  lemma RunMoves(s: State, a: Action)
    requires OwnerInv(s) && RequestInv(s) && !s.panicked && a.Run?
    ensures Moves(s, a, StepActivity(s, a.t, a.choice))
  {
    hide OwnerInv, RequestInv, StepActivity, Spends;
    ActivityFates(s, a.t, a.choice);
  }

  lemma OtherMoves(s: State, a: Action)
    requires TicketInv(s) && !s.panicked && !a.Run?
    ensures Moves(s, a, Step(s, a))
  {
    hide TicketInv, Moves, Step;
    NewTicket(s);
    if a.CallSync? || a.CallAsync? {
      AskMoves(s, a);
    } else {
      KeptMoves(s, a);
    }
  }

  lemma AskMoves(s: State, a: Action)
    requires TicketOf(s, s.nextReq) == Unborn && !s.panicked && (a.CallSync? || a.CallAsync?)
    ensures Moves(s, a, Step(s, a))
  {
    hide Spends;
    var s' := Step(s, a);
    assert s'.calls == s.calls;
    if Pc(s, a.t).Idle? {
      assert s'.tickets == s.tickets[s.nextReq := InFlight(a.t)];
    }
  }

  lemma KeptMoves(s: State, a: Action)
    requires !a.Run? && !a.CallSync? && !a.CallAsync?
    ensures Moves(s, a, Step(s, a))
  {
    StepKeeps(s, a);
    hide Step;
    assert forall r :: TicketOf(Step(s, a), r) == TicketOf(s, r);
  }

  lemma StepKeeps(s: State, a: Action)
    requires !a.Run? && !a.CallSync? && !a.CallAsync?
    ensures Step(s, a).tickets == s.tickets && Step(s, a).calls == s.calls
  {
  }

  lemma NewTicket(s: State)
    requires TicketInv(s)
    ensures TicketOf(s, s.nextReq) == Unborn
  {
  }

  /** Of the ways a ticket is used up, two are open to an asynchronous request. */
  lemma AsyncSpends(s: State, a: Action, r: Rid)
    requires OwnerInv(s) && RequestInv(s) && r in s.asyncs
    ensures SpendsNow(s, a, r) <==> EndsNow(s, a, r)
  {
    hide OwnerInv, TicketInv, RunInv, AnswerInv, CallbackInv, HandOk, Ent, Ch;
    if !s.panicked && a.Run? {
      var t := a.t;
      RS.PostingKnown(s, t);
      match Pc(s, t)
      case Ins(c, q, e) => RS.CallbackFilled(s, t, c, q, e);
      case ClrOut(c, q, pend, code) => HeadKind(s, Key(q, Out));
      case ClrAll(p, d) => HeadKind(s, Key(p, Out));
      case ClrIn(p, x) => HandKind(s, t, x);
      case Disp(k, e, ret) => HandKind(s, t, e);
      case _ =>
    }
  }

  /** Only callback entries have a callback on an outbound queue. */
  lemma HeadKind(s: State, k: Key)
    requires OwnerInv(s) && k.d == Out
    ensures Ch(s, k).q != [] ==> (Ent(s, Ch(s, k).q[0]).cb <==> Ent(s, Ch(s, k).q[0]).typ.UserReqCallback?)
  {
    hide OwnerInv;
    if Ch(s, k).q != [] {
      RS.PopFacts(s, k);
    }
  }

  /** A request without a callback is no asynchronous one. */
  lemma HandKind(s: State, t: Tid, e: Eid)
    requires OwnerInv(s) && RequestInv(s) && CarrierHand(Pc(s, t), e) && !Pc(s, t).Ins?
    ensures Ent(s, e).noreturn ==> Ent(s, e).req !in s.asyncs
    ensures Ent(s, e).typ.UserReq? && !Ent(s, e).cb ==> Ent(s, e).req !in s.asyncs
  {
    hide OwnerInv, TicketInv, RunInv, AnswerInv, CallbackInv;
    O.HandsKnown(s, t, e);
    if Ticketed(Ent(s, e)) {
      RS.KindKnown(s, e);
    }
  }

  /** A ticket once spent stays so. */
  lemma {:induction false} SpentStays(actions: seq<Action>, j: nat, r: Rid)
    requires j < |actions| && SpendsNow(Exec(actions[..j]), actions[j], r)
    ensures TicketOf(Exec(actions), r) == Spent
    decreases |actions|
  {
    hide OwnerInv, RequestInv, Step, SpendsNow;
    var n := |actions| - 1;
    var before := actions[..n];
    O.OwnerAlways(before);
    RS.RequestAlways(before);
    StepFates(Exec(before), actions[n]);
    if j < n {
      assert before[..j] == actions[..j];
      SpentStays(before, j, r);
    }
  }

  lemma EventSpends(s: State, a: Action, r: Rid)
    requires OwnerInv(s) && EndsNow(s, a, r)
    ensures SpendsNow(s, a, r)
  {
    hide OwnerInv, Ent, Ch;
    match Pc(s, a.t)
    case ClrOut(c, q, pend, code) => HeadKind(s, Key(q, Out));
    case ClrAll(p, d) => HeadKind(s, Key(p, Out));
    case _ =>
  }

  lemma {:induction false} SpentBy(actions: seq<Action>, r: Rid) returns (j: nat)
    requires r in Exec(actions).asyncs && TicketOf(Exec(actions), r) == Spent
    ensures j < |actions| && EndsNow(Exec(actions[..j]), actions[j], r)
  {
    hide OwnerInv, RequestInv, Step, SpendsNow, EndsNow;
    if actions == [] {
      NothingAsked(r);
    }
    var n := |actions| - 1;
    var before := actions[..n];
    O.OwnerAlways(before);
    RS.RequestAlways(before);
    StepFates(Exec(before), actions[n]);
    if TicketOf(Exec(before), r) == Spent {
      AsyncBefore(Exec(before), actions[n], r);
      j := SpentBy(before, r);
      assert before[..j] == actions[..j];
    } else {
      SpendsRuns(Exec(before), actions[n], r);
      AsyncSpends(Exec(before), actions[n], r);
      j := n;
    }
  }

  lemma NothingAsked(r: Rid)
    ensures r !in INIT.asyncs
  {
  }

  lemma SpendsRuns(s: State, a: Action, r: Rid)
    requires SpendsNow(s, a, r)
    ensures a.Run?
  {
  }

  /** A request that has a ticket is as old as its kind. */
  lemma AsyncBefore(s: State, a: Action, r: Rid)
    requires OwnerInv(s) && RequestInv(s) && r in Step(s, a).asyncs && TicketOf(s, r) != Unborn
    ensures r in s.asyncs
  {
    hide OwnerInv, TicketInv, RunInv, AnswerInv, CallbackInv, StepActivity;
    NewTicket(s);
    StepFates(s, a);
  }

  /** An asynchronous request is spent, and will never be called back, exactly if its caller was refused or a clear of
    * the outbound queue took its callback entry off it. */
  lemma AsynchronousFate(actions: seq<Action>, r: Rid)
    requires r in Exec(actions).asyncs
    ensures TicketOf(Exec(actions), r) == Spent <==>
      exists j :: 0 <= j < |actions| && EndsNow(Exec(actions[..j]), actions[j], r)
  {
    hide OwnerInv, Exec, EndsNow;
    if TicketOf(Exec(actions), r) == Spent {
      var j := SpentBy(actions, r);
    }
    if j :| 0 <= j < |actions| && EndsNow(Exec(actions[..j]), actions[j], r) {
      O.OwnerAlways(actions[..j]);
      EventSpends(Exec(actions[..j]), actions[j], r);
      SpentStays(actions, j, r);
    }
  }

  /** The calls made are those of the requests whose tickets a call has used up; so a request whose ticket is spent has
    * no call, and one that has neither is still under way. */
  lemma {:induction false} CalledExactly(actions: seq<Action>, r: Rid)
    ensures var s := Exec(actions);
      TicketOf(s, r) == Fired <==> exists i :: 0 <= i < |s.calls| && s.calls[i].req == r
  {
    hide OwnerInv, RequestInv, Step;
    var s := Exec(actions);
    RS.RequestAlways(actions);
    CallsFired(s);
    if actions != [] && TicketOf(s, r) == Fired {
      var n := |actions| - 1;
      var before := actions[..n];
      O.OwnerAlways(before);
      RS.RequestAlways(before);
      StepFates(Exec(before), actions[n]);
      CalledExactly(before, r);
      if TicketOf(Exec(before), r) == Fired {
        var i :| 0 <= i < |Exec(before).calls| && Exec(before).calls[i].req == r;
        assert s.calls[i].req == r;
      } else {
        assert s.calls[|s.calls| - 1].req == r;
      }
    }
  }

  lemma CallsFired(s: State)
    requires RequestInv(s)
    ensures forall i :: 0 <= i < |s.calls| ==> TicketOf(s, s.calls[i].req) == Fired
  {
  }
}
