/** What a queue holds after any run, whom a dispatcher serves, and what a clear leaves behind. */
module DispatchService {
  import opened Base
  import opened DispatchModel
  import F = DispatchFlow
  import I = DispatchInsertion
  import H = DispatchHandshake
  import S = DispatchScenario

  // ----- the queues -----

  /** A dispatcher may serve this direction of the phidget. */
  predicate Served(h: Phid, d: Dir) {
    match d
    case In => h.open
    case Out => h.attached || h.detaching
  }

  /** The next step of t puts its entry at the end of k. */
  predicate Appends(s: State, t: Tid, ch: Choice, k: Key) {
    && Pc(s, t).Ins? && I.Verdict(s, t, ch) == Some(0)
    && Pc(s, t).q == k.p && (k.d.In? <==> Ent(s, Pc(s, t).e).inbound)
  }

  /** The next step of t takes the first entry off k: to dispatch it, because outbound packets are refused, or
    * because both queues are being cleared, the outbound one first. */
  predicate Takes(s: State, t: Tid, k: Key) {
    && Ch(s, k).q != []
    && match Pc(s, t)
       case Serve(j) => j == k && Served(Ph(s, k.p), k.d)
       case ClrOut(_, q, _, _) => k == Key(q, Out) && Ch(s, k).has
       case ClrAll(p, d) => k.p == p && if k.d.Out? then d.Out? else d.In? || Ch(s, Key(p, Out)).q == []
       case _ => false
  }

  predicate Does(s: State, a: Action) { a.Run? && !s.panicked }

  /** What has been put on k in the course of a run, in order. */
  ghost function Appended(actions: seq<Action>, k: Key): seq<Eid> {
    if actions == [] then [] else
      var n := |actions| - 1;
      var s, a := Exec(actions[..n]), actions[n];
      Appended(actions[..n], k) + if Does(s, a) && Appends(s, a.t, a.choice, k) then [Pc(s, a.t).e] else []
  }

  /** How many entries have been taken off k. */
  ghost function TakenOff(actions: seq<Action>, k: Key): nat {
    if actions == [] then 0 else
      var n := |actions| - 1;
      var s, a := Exec(actions[..n]), actions[n];
      TakenOff(actions[..n], k) + if Does(s, a) && Takes(s, a.t, k) then 1 else 0
  }

  /** A queue holds what has been put on it without what has been taken off, from the front. */
  lemma {:induction false} QueueHolds(actions: seq<Action>, k: Key)
    ensures TakenOff(actions, k) <= |Appended(actions, k)|
    ensures Ch(Exec(actions), k).q == Appended(actions, k)[TakenOff(actions, k)..]
  {
    hide Step, Appends, Takes;
    if actions != [] {
      var n := |actions| - 1;
      QueueHolds(actions[..n], k);
      QueueStep(Exec(actions[..n]), actions[n], k);
      var all, off := Appended(actions[..n], k), TakenOff(actions[..n], k);
      forall e ensures (all + [e])[off..] == all[off..] + [e] {}
    }
  }

  lemma QueueStep(s: State, a: Action, k: Key)
    ensures var q, q' := Ch(s, k).q, Ch(Step(s, a), k).q;
      if Does(s, a) && Appends(s, a.t, a.choice, k) then q' == q + [Pc(s, a.t).e]
      else if Does(s, a) && Takes(s, a.t, k) then q != [] && q' == q[1..]
      else q' == q
    ensures Does(s, a) ==> !(Appends(s, a.t, a.choice, k) && Takes(s, a.t, k))
  {
    hide StepActivity;
    if Does(s, a) {
      QueueRun(s, a.t, a.choice, k);
    }
  }

  lemma QueueRun(s: State, t: Tid, ch: Choice, k: Key)
    ensures var q, q' := Ch(s, k).q, Ch(StepActivity(s, t, ch), k).q;
      if Appends(s, t, ch, k) then q' == q + [Pc(s, t).e]
      else if Takes(s, t, k) then q != [] && q' == q[1..]
      else q' == q
  {
    if Pc(s, t).Ins? {
      InsQueue(s, t, ch, k);
    } else if Pc(s, t).Serve? || Pc(s, t).ClrOut? || Pc(s, t).ClrAll? {
      TakeQueue(s, t, ch, k);
    } else if Pc(s, t).AtFlag? || Pc(s, t).AtRetain? || Pc(s, t).AtPlace? || Pc(s, t).AtWake? {
      PlaceQueue(s, t, ch, k);
    } else if Pc(s, t).Loop? || Pc(s, t).Scan? || Pc(s, t).ScanOpen? || Pc(s, t).ScanDrop? {
      SeekQueue(s, t, ch, k);
    } else {
      OtherQueue(s, t, ch);
    }
  }

  lemma InsQueue(s: State, t: Tid, ch: Choice, k: Key)
    requires Pc(s, t).Ins?
    ensures Ch(StepActivity(s, t, ch), k).q ==
      if Appends(s, t, ch, k) then Ch(s, k).q + [Pc(s, t).e] else Ch(s, k).q
  {
    hide Insert;
    var c, q, e := Pc(s, t).c, Pc(s, t).q, Pc(s, t).e;
    var j := Key(q, DirOf(Ent(s, e)));
    var drop, shed, full := Dropped(Ent(s, e), Ph(s, q)), Shed(Ent(s, e), Ch(s, j)), Full(Ent(s, e), Ch(s, j));
    I.InsertMoves(s, t, c, q, e, j, drop, shed, full);
  }

  lemma ClearOneQueue(s: State, t: Tid, j: Key, pc: PC, k: Key)
    requires Ch(s, j).q != []
    ensures Ch(ClearOne(s, t, j, pc), k).q == if k == j then Ch(s, k).q[1..] else Ch(s, k).q
  {
    hide Losing;
  }

  lemma TakeQueue(s: State, t: Tid, ch: Choice, k: Key)
    requires Pc(s, t).Serve? || Pc(s, t).ClrOut? || Pc(s, t).ClrAll?
    ensures Ch(StepActivity(s, t, ch), k).q == if Takes(s, t, k) then Ch(s, k).q[1..] else Ch(s, k).q
  {
    hide StepServe, StepClrOut, StepClrAll, Ph, Served, Ch;
    match Pc(s, t)
    case Serve(j) => ServeQueue(s, t, j, k);
    case ClrOut(c, q, pend, code) => ClrOutQueue(s, t, c, q, pend, code, k);
    case ClrAll(p, d) => ClrAllQueue(s, t, p, d, k);
  }

  lemma ClrOutQueue(s: State, t: Tid, c: Cont, q: Pid, pend: Option<Eid>, code: Code, k: Key)
    ensures Ch(StepClrOut(s, t, c, q, pend, code), k).q ==
      if k == Key(q, Out) && Ch(s, k).has && Ch(s, k).q != [] then Ch(s, k).q[1..] else Ch(s, k).q
  {
    hide ClearOne, Cleared;
    if Ch(s, Key(q, Out)).q != [] {
      ClearOneQueue(s, t, Key(q, Out), ClrOutRet(c, q, Head(Ch(s, Key(q, Out)).q, 0), pend, code), k);
    }
  }

  lemma ClrAllQueue(s: State, t: Tid, p: Pid, d: Dir, k: Key)
    ensures Ch(StepClrAll(s, t, p, d), k).q ==
      if k.p == p && Ch(s, k).q != [] && (if k.d.Out? then d.Out? else d.In? || Ch(s, Key(p, Out)).q == [])
      then Ch(s, k).q[1..] else Ch(s, k).q
  {
    hide ClearOne, Ch;
    if d.Out? && Ch(s, Key(p, Out)).q != [] {
      ClearOneQueue(s, t, Key(p, Out), ClrRet(p, Head(Ch(s, Key(p, Out)).q, 0), Out), k);
    } else if Ch(s, Key(p, In)).q != [] {
      ClearOneQueue(s, t, Key(p, In), ClrIn(p, Head(Ch(s, Key(p, In)).q, 0)), k);
    } else {
      assert Ch(GoTo(s, t, Idle), k) == Ch(s, k) by { hide *; GoQueue(s, t, Idle, k); }
    }
  }

  lemma GoQueue(s: State, t: Tid, pc: PC, k: Key)
    ensures Ch(GoTo(s, t, pc), k) == Ch(s, k)
  {
  }

  lemma ServeQueue(s: State, t: Tid, j: Key, k: Key)
    ensures Ch(StepServe(s, t, j), k).q ==
      if j == k && Ch(s, k).q != [] && Served(Ph(s, k.p), k.d) then Ch(s, k).q[1..] else Ch(s, k).q
  {
    hide Ph, Ent, Head;
    var s' := StepServe(s, t, j);
    if Leaves(s, j) {
      assert s'.ch == s.ch[j := Left(s, j)];
    } else {
      assert s'.ch == s.ch[j := PopToDispatch(Ch(s, j))];
    }
    hide StepServe;
  }

  /** A step that leaves every queue as it is. */
  ghost predicate QueuesSame(s: State, s': State) { forall k :: Ch(s', k).q == Ch(s, k).q }

  lemma PlaceQueue(s: State, t: Tid, ch: Choice, k: Key)
    requires Pc(s, t).AtFlag? || Pc(s, t).AtRetain? || Pc(s, t).AtPlace? || Pc(s, t).AtWake?
    ensures Ch(StepActivity(s, t, ch), k).q == Ch(s, k).q
  {
    hide StepFlag, StepRetain, StepPlace, StepWake, QueuesSame;
    assert QueuesSame(s, StepActivity(s, t, ch)) by {
      match Pc(s, t)
      case AtFlag(c, q, d, e) => FlagQueue(s, t, c, q, d, e);
      case AtRetain(c, q, d, e) => RetainQueue(s, t, c, q, d, e);
      case AtPlace(c, q, d, e) => PlaceOnList(s, t, c, q, d, e);
      case AtWake(c, q, e) => WakeQueue(s, t, c, q, e, ch);
    }
    SameAt(s, StepActivity(s, t, ch), k);
  }

  lemma SameAt(s: State, s': State, k: Key)
    requires QueuesSame(s, s')
    ensures Ch(s', k).q == Ch(s, k).q
  {
  }

  lemma OneChan(s: State, s': State, j: Key, c: Chan)
    requires s'.ch == s.ch[j := c] && c.q == Ch(s, j).q
    ensures QueuesSame(s, s')
  {
  }

  lemma FlagQueue(s: State, t: Tid, c: Cont, q: Pid, d: Dir, e: Eid)
    ensures QueuesSame(s, StepFlag(s, t, c, q, d, e))
  {
    hide QueuesSame, Ch;
    var j := Key(q, d);
    if Ch(s, j).flag {
      assert QueuesSame(s, s.(pc := s.pc[t := AtWake(c, q, e)])) by { hide *; PcQueue(s, t, AtWake(c, q, e)); }
    } else {
      OneChan(s, StepFlag(s, t, c, q, d, e), j, Ch(s, j).(flag := true, tok := Taken(t)));
    }
  }

  lemma PcQueue(s: State, t: Tid, pc: PC)
    ensures QueuesSame(s, s.(pc := s.pc[t := pc]))
  {
  }

  lemma RetainQueue(s: State, t: Tid, c: Cont, q: Pid, d: Dir, e: Eid)
    ensures QueuesSame(s, StepRetain(s, t, c, q, d, e))
  {
    hide QueuesSame, Ch, Ph;
    var k := Key(q, d);
    OneChan(s, StepRetain(s, t, c, q, d, e), k, Ch(s, k).(tok := Held(t)));
  }

  lemma PlaceOnList(s: State, t: Tid, c: Cont, q: Pid, d: Dir, e: Eid)
    ensures QueuesSame(s, StepPlace(s, t, c, q, d, e))
  {
    hide QueuesSame, Ch;
    var k := Key(q, d);
    if s.dlock.Some? {
      ChSame(s, s);
    } else {
      OneChan(s, StepPlace(s, t, c, q, d, e), k, Ch(s, k).(tok := Listed));
    }
  }

  lemma WakeQueue(s: State, t: Tid, c: Cont, q: Pid, e: Eid, ch: Choice)
    ensures QueuesSame(s, StepWake(s, t, c, q, e, ch))
  {
    hide QueuesSame;
    assert StepWake(s, t, c, q, e, ch).ch == s.ch;
    ChSame(s, StepWake(s, t, c, q, e, ch));
  }

  lemma SeekQueue(s: State, t: Tid, ch: Choice, k: Key)
    requires Pc(s, t).Loop? || Pc(s, t).Scan? || Pc(s, t).ScanOpen? || Pc(s, t).ScanDrop?
    ensures Ch(StepActivity(s, t, ch), k).q == Ch(s, k).q
  {
    hide StepLoop, StepScan, StepScanOpen, StepScanDrop, QueuesSame;
    assert QueuesSame(s, StepActivity(s, t, ch)) by {
      match Pc(s, t)
      case Loop => LoopQueue(s, t, ch);
      case Scan(i) => ScanQueue(s, t, i);
      case ScanOpen(i, p) => ScanOpenQueue(s, t, i, p);
      case ScanDrop(i, p) => ScanDropQueue(s, t, i, p);
    }
    SameAt(s, StepActivity(s, t, ch), k);
  }

  lemma LoopTakes(s: State, t: Tid, ch: Choice)
    requires !s.dlock.Some? && !ch.yes && s.inL != []
    ensures QueuesSame(s, StepLoop(s, t, ch))
  {
    hide QueuesSame, Ch;
    OneChan(s, StepLoop(s, t, ch), Key(s.inL[0], In), Ch(s, Key(s.inL[0], In)).(tok := Held(t)));
  }

  lemma LoopGoes(s: State, t: Tid, ch: Choice)
    requires s.dlock.Some? || ch.yes || s.inL == []
    ensures StepLoop(s, t, ch).ch == s.ch
  {
    hide Ch;
  }

  lemma LoopQueue(s: State, t: Tid, ch: Choice)
    ensures QueuesSame(s, StepLoop(s, t, ch))
  {
    hide QueuesSame, StepLoop;
    if !s.dlock.Some? && !ch.yes && s.inL != [] {
      LoopTakes(s, t, ch);
    } else {
      LoopGoes(s, t, ch);
      ChSame(s, StepLoop(s, t, ch));
    }
  }

  lemma ChSame(s: State, s': State)
    requires s'.ch == s.ch
    ensures QueuesSame(s, s')
  {
  }

  lemma ScanTakes(s: State, t: Tid, i: int)
    requires 0 <= i < |s.outL| && (Ph(s, s.outL[i]).attached || Ph(s, s.outL[i]).detaching)
    ensures QueuesSame(s, StepScan(s, t, i))
  {
    hide QueuesSame, Ch, RemoveAt;
    OneChan(s, StepScan(s, t, i), Key(s.outL[i], Out), Ch(s, Key(s.outL[i], Out)).(tok := Held(t)));
  }

  lemma ScanGoes(s: State, t: Tid, i: int)
    requires 0 <= i < |s.outL| ==> !Ph(s, s.outL[i]).attached && !Ph(s, s.outL[i]).detaching
    ensures StepScan(s, t, i).ch == s.ch
  {
    hide Ch, RemoveAt, Ph;
    if 0 <= i < |s.outL| {
      assert StepScan(s, t, i) == GoTo(s, t, ScanOpen(i, s.outL[i]));
      hide StepScan;
    }
  }

  lemma ScanQueue(s: State, t: Tid, i: int)
    ensures QueuesSame(s, StepScan(s, t, i))
  {
    hide QueuesSame, StepScan;
    if 0 <= i < |s.outL| && (Ph(s, s.outL[i]).attached || Ph(s, s.outL[i]).detaching) {
      ScanTakes(s, t, i);
    } else {
      ScanGoes(s, t, i);
      ChSame(s, StepScan(s, t, i));
    }
  }

  lemma ScanOpenQueue(s: State, t: Tid, i: int, p: Pid)
    ensures QueuesSame(s, StepScanOpen(s, t, i, p))
  {
    hide QueuesSame, Ch, RemoveAt;
    if !Ph(s, p).open && 0 <= i < |s.outL| {
      OneChan(s, StepScanOpen(s, t, i, p), Key(p, Out), Ch(s, Key(p, Out)).(tok := Held(t)));
    } else {
      ChSame(s, StepScanOpen(s, t, i, p));
    }
  }

  lemma ScanDropQueue(s: State, t: Tid, i: int, p: Pid)
    ensures QueuesSame(s, StepScanDrop(s, t, i, p))
  {
    hide QueuesSame, Ch, Ph;
    OneChan(s, StepScanDrop(s, t, i, p), Key(p, Out),
            Ch(s, Key(p, Out)).(flag := false, tok := NoToken, failed := true));
  }

  lemma OtherQueue(s: State, t: Tid, ch: Choice)
    requires !Pc(s, t).Ins? && !Pc(s, t).Serve? && !Pc(s, t).ClrOut? && !Pc(s, t).ClrAll?
    requires !Pc(s, t).AtFlag? && !Pc(s, t).AtRetain? && !Pc(s, t).AtPlace? && !Pc(s, t).AtWake?
    requires !Pc(s, t).Loop? && !Pc(s, t).Scan? && !Pc(s, t).ScanOpen? && !Pc(s, t).ScanDrop?
    ensures StepActivity(s, t, ch).ch == s.ch
  {
    hide Take, GiveBack, Finish, ClearIn, Dispatch, StepWait, StepWaitDone, StepDispSig, StepRel, GoTo, Ent, PoolPick,
         PoolEmpty;
    match Pc(s, t)
    case Get(c, q) =>
      F.AwayTake(s, t, c, q, PoolPick(s.pool), s.dlock.Some?, PoolEmpty(s.pool), c.Post? && ch.yes);
    case ClrOutRet(c, q, x, pend, code) =>
      F.AwayReturn(s, t, x, ClrOut(c, q, pend, code), s.dlock.Some?, Ent(s, x).noreturn);
    case Rej(c, q, e, code, thenClear) =>
      var pc := if thenClear && ch.yes then ClrOut(c, q, None, code) else Done(c, q, 0, code);
      F.AwayReturn(s, t, e, pc, s.dlock.Some?, Ent(s, e).noreturn);
    case Done(c, q, e, code) => F.AwayFinish(s, t, c, e, code, code == OK);
    case Wait(r, e) => F.AwayWait(s, t, r, e);
    case WaitDone(r, e) => F.AwayWait(s, t, r, e);
    case ClrIn(p, x) =>
      F.AwayClearIn(s, t, p, x, Ent(s, x), Ent(s, x).noreturn,
                    (Ent(s, x).typ.UserReq? && Ent(s, x).cb) || Ent(s, x).typ.UserReqCallback?);
    case ClrRet(p, x, d) => F.AwayReturn(s, t, x, ClrAll(p, d), s.dlock.Some?, Ent(s, x).noreturn);
    case Disp(k, e, ret) =>
      F.AwayDispatch(s, t, k, e, ret, Ent(s, e), ch.code, Ent(s, e).typ.UserReq?, Ent(s, e).typ.UserReqCallback?);
    case DispSig(k, e, ret, res) => F.AwayMore(s, t, Idle, k, e, ret, res, 0);
    case DispEnd(k, e, ret) =>
      F.AwayMore(s, t, Serve(k), k, e, ret, 0, 0);
      F.AwayReturn(s, t, e, Serve(k), s.dlock.Some?, Ent(s, e).noreturn);
    case Rel(p) => F.AwayMore(s, t, Idle, Key(p, In), 0, false, 0, p);
    case Idle =>
  }

  // ----- clearing -----

  /** The activity is clearing the queues of p. */
  predicate Clearing(pc: PC, p: Pid) { (pc.ClrAll? || pc.ClrIn? || pc.ClrRet?) && pc.p == p }

  /** It is done with the outbound queue. */
  predicate Inbound(pc: PC) { pc.ClrIn? || ((pc.ClrAll? || pc.ClrRet?) && pc.d.In?) }

  lemma ClearingStep(s: State, t: Tid, ch: Choice, p: Pid)
    requires Clearing(Pc(s, t), p)
    ensures var pc, pc' := Pc(s, t), Pc(StepActivity(s, t, ch), t);
      && (Clearing(pc', p) || pc'.Idle?)
      && (Inbound(pc) && !pc'.Idle? ==> Inbound(pc'))
      && (!Inbound(pc) && (Inbound(pc') || pc'.Idle?) ==> Ch(s, Key(p, Out)).q == [])
      && (pc'.Idle? ==> Ch(s, Key(p, In)).q == [])
  {
    hide ClearNext, ClearIn, Returning, Ent, Ch;
    match Pc(s, t)
    case ClrAll(_, d) => ClearingNext(s, t, p, d);
    case ClrIn(_, x) =>
      ClearingIn(s, t, p, x, Ent(s, x), Ent(s, x).noreturn,
                 (Ent(s, x).typ.UserReq? && Ent(s, x).cb) || Ent(s, x).typ.UserReqCallback?);
    case ClrRet(_, x, d) => I.ReturnGoes(s, t, x, ClrAll(p, d));
  }

  lemma ClearingNext(s: State, t: Tid, p: Pid, d: Dir)
    ensures var pc := Pc(StepClrAll(s, t, p, d), t);
      && (Clearing(pc, p) || pc.Idle?) && (d.In? && !pc.Idle? ==> Inbound(pc))
      && (d.Out? && (Inbound(pc) || pc.Idle?) ==> Ch(s, Key(p, Out)).q == [])
      && (pc.Idle? ==> Ch(s, Key(p, In)).q == [])
  {
    hide GoTo, ClearOne, Ch, Head;
    I.ClearOneGoes(s, t, Key(p, Out), ClrRet(p, Head(Ch(s, Key(p, Out)).q, 0), Out));
    I.ClearOneGoes(s, t, Key(p, In), ClrIn(p, Head(Ch(s, Key(p, In)).q, 0)));
    I.GoGoes(s, t, Idle);
  }

  lemma ClearingIn(s: State, t: Tid, p: Pid, x: Eid, ent: Entry, waited: bool, called: bool)
    ensures var pc := Pc(ClearIn(s, t, p, x, ent, waited, called), t); Clearing(pc, p) && Inbound(pc)
  {
  }

  lemma AppendedGrows(actions: seq<Action>, k: Key, m: nat)
    requires m <= |actions|
    ensures |Appended(actions[..m], k)| <= |Appended(actions, k)| && TakenOff(actions[..m], k) <= TakenOff(actions, k)
  {
    hide Appends, Takes;
    if m == |actions| {
      assert actions[..m] == actions;
    } else {
      assert actions[..|actions| - 1][..m] == actions[..m];
      AppendedGrows(actions[..|actions| - 1], k, m);
    }
  }

  /** Everything that had been put on k in the first m actions is off it. */
  ghost predicate Emptied(actions: seq<Action>, m: nat, k: Key)
    requires m <= |actions|
  {
    TakenOff(actions, k) >= |Appended(actions[..m], k)|
  }

  lemma EmptiedNow(actions: seq<Action>, m: nat, k: Key)
    requires m < |actions|
    requires var before := actions[..|actions| - 1]; Ch(Exec(before), k).q == [] || Emptied(before, m, k)
    ensures Emptied(actions, m, k)
  {
    hide Appends, Takes, Exec;
    var before := actions[..|actions| - 1];
    assert before[..m] == actions[..m];
    QueueHolds(before, k);
    AppendedGrows(before, k, m);
    AppendedGrows(actions, k, |before|);
  }

  /** How far a clear that t made at action m has got. */
  ghost predicate Progress(actions: seq<Action>, m: nat, t: Tid, p: Pid)
    requires m <= |actions|
  {
    var pc := Pc(Exec(actions), t);
    && (Clearing(pc, p) || pc.Idle?)
    && (Inbound(pc) || pc.Idle? ==> Emptied(actions, m, Key(p, Out)))
    && (pc.Idle? ==> Emptied(actions, m, Key(p, In)))
  }

  lemma {:induction false} ClearProgress(actions: seq<Action>, m: nat, t: Tid, p: Pid)
    requires m < |actions| && actions[m] == CallClear(t, p)
    requires !Exec(actions[..m]).panicked && Pc(Exec(actions[..m]), t).Idle?
    requires forall j :: m < j < |actions| ==> !Pc(Exec(actions[..j]), t).Idle?
    ensures Progress(actions, m, t, p)
  {
    hide Exec, Step, Emptied;
    var n := |actions| - 1;
    var before := actions[..n];
    I.LastStep(actions);
    if m == n {
      ClearStarts(Exec(before), t, p);
    } else {
      assert before[..m] == actions[..m];
      forall j | m < j < n ensures !Pc(Exec(before[..j]), t).Idle? {
        assert before[..j] == actions[..j];
      }
      ClearProgress(before, m, t, p);
      ClearGoesOn(Exec(before), actions[n], t, p);
      forall d ensures Ch(Exec(before), Key(p, d)).q == [] || Emptied(before, m, Key(p, d)) ==>
        Emptied(actions, m, Key(p, d))
      {
        if Ch(Exec(before), Key(p, d)).q == [] || Emptied(before, m, Key(p, d)) {
          EmptiedNow(actions, m, Key(p, d));
        }
      }
    }
  }

  lemma ClearStarts(s: State, t: Tid, p: Pid)
    requires !s.panicked && Pc(s, t).Idle?
    ensures Pc(Step(s, CallClear(t, p)), t) == ClrAll(p, Out)
  {
  }

  lemma ClearGoesOn(s: State, a: Action, t: Tid, p: Pid)
    requires Clearing(Pc(s, t), p)
    ensures var pc, pc' := Pc(s, t), Pc(Step(s, a), t);
      && (Clearing(pc', p) || pc'.Idle?)
      && (Inbound(pc) && !pc'.Idle? ==> Inbound(pc'))
      && (!Inbound(pc) && (Inbound(pc') || pc'.Idle?) ==> Ch(s, Key(p, Out)).q == [])
      && (pc'.Idle? ==> Ch(s, Key(p, In)).q == [])
  {
    hide StepActivity, Ch;
    if !s.panicked && a.Run? && a.t == t {
      hide Step;
      assert Step(s, a) == StepActivity(s, t, a.choice) by { hide *; RunStep(s, t, a.choice); }
      ClearingStep(s, t, a.choice, p);
    } else if !s.panicked && a.Run? {
      hide Step;
      assert Step(s, a) == StepActivity(s, a.t, a.choice) by { hide *; RunStep(s, a.t, a.choice); }
      H.ActivityMovesOne(s, a.t, a.choice, t);
    } else {
      CallMoves(s, a, t);
    }
  }

  lemma RunStep(s: State, t: Tid, ch: Choice)
    requires !s.panicked
    ensures Step(s, Run(t, ch)) == StepActivity(s, t, ch)
  {
    hide StepActivity;
  }

  lemma CallMoves(s: State, a: Action, t: Tid)
    requires (s.panicked || !a.Run?) && !Pc(s, t).Idle?
    ensures Pc(Step(s, a), t) == Pc(s, t)
  {
    hide StepActivity, Ph;
  }

  /** A clear that has returned has emptied both queues: whatever had been put on them when it was called, by whomever,
    * has been taken off, and only what was put on them since can still be there. */
  lemma ClearEmpties(actions: seq<Action>, m: nat, t: Tid, p: Pid, d: Dir)
    requires m < |actions| && actions[m] == CallClear(t, p)
    requires !Exec(actions[..m]).panicked && Pc(Exec(actions[..m]), t).Idle?
    requires forall j :: m < j < |actions| ==> !Pc(Exec(actions[..j]), t).Idle?
    requires Pc(Exec(actions), t).Idle?
    ensures TakenOff(actions, Key(p, d)) >= |Appended(actions[..m], Key(p, d))|
    ensures |Ch(Exec(actions), Key(p, d)).q| <=
      |Appended(actions, Key(p, d))| - |Appended(actions[..m], Key(p, d))|
  {
    hide Exec;
    ClearProgress(actions, m, t, p);
    QueueHolds(actions, Key(p, d));
  }

  /** A refused insertion and an overflowing channel clear the outbound queue, and leave it when it is empty. */
  lemma RefusalClears(s: State, t: Tid, ch: Choice)
    requires !s.panicked && Pc(s, t).ClrOut?
    ensures var k, s' := Key(Pc(s, t).q, Out), Step(s, Run(t, ch));
      if !Ch(s, k).has then s' == s
      else if Ch(s, k).q == [] then Pc(s', t) == Cleared(Pc(s, t).c, Pc(s, t).q, Pc(s, t).pend, Pc(s, t).code)
      else Pc(s', t) == ClrOutRet(Pc(s, t).c, Pc(s, t).q, Ch(s, k).q[0], Pc(s, t).pend, Pc(s, t).code)
  {
    hide GoTo, ClearOne, Ch, Cleared;
    var c, q, pend, code := Pc(s, t).c, Pc(s, t).q, Pc(s, t).pend, Pc(s, t).code;
    I.ClearOneGoes(s, t, Key(q, Out), ClrOutRet(c, q, Head(Ch(s, Key(q, Out)).q, 0), pend, code));
    I.GoGoes(s, t, Cleared(c, q, pend, code));
  }

  // ----- whom a dispatcher serves -----

  /** n steps of t in a row. */
  ghost function Go(s: State, t: Tid, n: nat): State
    decreases n
  {
    if n == 0 then s else Go(Step(s, Run(t, Choice(0, false, 0))), t, n - 1)
  }

  /** How many phidgets stand in l before the first that is attached or detaching. */
  ghost function Unready(s: State, l: seq<Pid>): (n: nat)
    ensures n <= |l|
  {
    if l == [] || Ph(s, l[0]).attached || Ph(s, l[0]).detaching then 0 else 1 + Unready(s, l[1..])
  }

  ghost function Opened(s: State, l: seq<Pid>): seq<Pid> {
    if l == [] then [] else (if Ph(s, l[0]).open then [l[0]] else []) + Opened(s, l[1..])
  }

  /** The dispatcher has gone past the phidgets kept and serves the first of rest, or has found none. */
  ghost predicate Found(s: State, t: Tid, kept: seq<Pid>, rest: seq<Pid>) {
    s.dlock == None &&
    if rest == [] then Pc(s, t) == Loop && s.outL == kept
    else Pc(s, t) == Serve(Key(rest[0], Out)) && s.outL == kept + rest[1..]
  }

  ghost predicate SameFlags(s: State, s': State) {
    forall p :: var h, h' := Ph(s, p), Ph(s', p);
      h'.attached == h.attached && h'.detaching == h.detaching && h'.open == h.open
  }

  lemma {:induction false} SameFound(s: State, s': State, l: seq<Pid>)
    requires SameFlags(s, s')
    ensures Unready(s', l) == Unready(s, l) && Opened(s', l) == Opened(s, l)
  {
    if l != [] {
      var h, h' := Ph(s, l[0]), Ph(s', l[0]);
      assert h'.attached == h.attached && h'.detaching == h.detaching && h'.open == h.open;
      SameFound(s, s', l[1..]);
    }
  }

  ghost predicate Scanning(s: State, t: Tid, i: nat) {
    !s.panicked && s.dlock == Some(t) && Pc(s, t) == Scan(i) && i <= |s.outL|
  }

  lemma GoOne(s: State, t: Tid)
    ensures Go(s, t, 1) == Step(s, Run(t, Choice(0, false, 0)))
  {
    hide Step;
  }

  lemma ScanEnds(s: State, t: Tid, i: nat)
    requires Scanning(s, t, i) && Unready(s, s.outL[i..]) == 0
    ensures Found(Go(s, t, 1), t, s.outL[..i], s.outL[i..])
  {
    hide Ch, Ph;
    GoOne(s, t);
    hide Go;
    if i == |s.outL| {
      assert s.outL[..i] == s.outL && s.outL[i..] == [];
    } else {
      assert s.outL[i..][0] == s.outL[i] && s.outL[i..][1..] == s.outL[i + 1..];
    }
  }

  lemma ScanPasses(s: State, t: Tid, i: nat)
    requires Scanning(s, t, i) && Unready(s, s.outL[i..]) > 0
    ensures i < |s.outL| && Step(s, Run(t, Choice(0, false, 0))) == GoTo(s, t, ScanOpen(i, s.outL[i]))
  {
    hide Ph;
  }

  lemma ScanKeeps(s: State, t: Tid, i: nat)
    requires Scanning(s, t, i) && Unready(s, s.outL[i..]) > 0 && Ph(s, s.outL[i]).open
    ensures var s' := Go(s, t, 2); Scanning(s', t, i + 1) && s'.outL == s.outL && SameFlags(s, s')
  {
    var s1 := Step(s, Run(t, Choice(0, false, 0)));
    ScanPasses(s, t, i);
    GoOne(s1, t);
    assert Go(s, t, 2) == Go(s1, t, 1) by { hide Step; }
    hide Go;
  }

  lemma ScanSkips(s: State, t: Tid, i: nat)
    requires Scanning(s, t, i) && Unready(s, s.outL[i..]) > 0 && !Ph(s, s.outL[i]).open
    ensures var s' := Go(s, t, 3); Scanning(s', t, i) && s'.outL == s.outL[..i] + s.outL[i + 1..] && SameFlags(s, s')
  {
    var s1 := Step(s, Run(t, Choice(0, false, 0)));
    var s2 := Step(s1, Run(t, Choice(0, false, 0)));
    ScanPasses(s, t, i);
    GoOne(s2, t);
    assert Go(s, t, 3) == Go(s2, t, 1) by { hide Step; assert Go(s, t, 3) == Go(s1, t, 2); }
    hide Go, Step, SameFlags;
    GoKeeps(s, t, ScanOpen(i, s.outL[i]));
    ScanRemoves(s1, t, i, s.outL[i]);
    FlagsThrough(s, s1, Go(s, t, 3));
  }

  lemma GoKeeps(s: State, t: Tid, pc: PC)
    ensures var s' := GoTo(s, t, pc);
      && s'.ph == s.ph && s'.panicked == s.panicked && s'.dlock == s.dlock && s'.outL == s.outL && Pc(s', t) == pc
      && forall p :: Ph(s', p) == Ph(s, p)
  {
  }

  lemma ScanRemoves(s: State, t: Tid, i: nat, p: Pid)
    requires !s.panicked && s.dlock == Some(t) && Pc(s, t) == ScanOpen(i, p) && i < |s.outL| && !Ph(s, p).open
    ensures var s1 := Step(s, Run(t, Choice(0, false, 0)));
      var s' := Step(s1, Run(t, Choice(0, false, 0)));
      Scanning(s', t, i) && s'.outL == s.outL[..i] + s.outL[i + 1..] && SameFlags(s, s')
  {
    hide Step, SameFlags;
    OpenDrops(s, t, i, p);
    var s1 := Step(s, Run(t, Choice(0, false, 0)));
    DropScans(s1, t, i, p);
    FlagsThrough(s, s1, Step(s1, Run(t, Choice(0, false, 0))));
  }

  lemma FlagsThrough(s: State, s1: State, s': State)
    requires s1.ph == s.ph && SameFlags(s1, s')
    ensures SameFlags(s, s')
  {
  }

  lemma OpenDrops(s: State, t: Tid, i: nat, p: Pid)
    requires !s.panicked && s.dlock == Some(t) && Pc(s, t) == ScanOpen(i, p) && i < |s.outL| && !Ph(s, p).open
    ensures var s' := Step(s, Run(t, Choice(0, false, 0)));
      && Pc(s', t) == ScanDrop(i, p) && !s'.panicked && s'.dlock == s.dlock && s'.ph == s.ph
      && s'.outL == s.outL[..i] + s.outL[i + 1..]
  {
    hide Ch;
  }

  lemma DropScans(s: State, t: Tid, i: nat, p: Pid)
    requires !s.panicked && s.dlock == Some(t) && Pc(s, t) == ScanDrop(i, p) && i <= |s.outL|
    ensures var s' := Step(s, Run(t, Choice(0, false, 0)));
      Scanning(s', t, i) && s'.outL == s.outL && SameFlags(s, s')
  {
    hide Ch;
  }

  lemma {:induction false} GoGo(s: State, t: Tid, m: nat, n: nat)
    ensures Go(Go(s, t, m), t, n) == Go(s, t, m + n)
    decreases m
  {
    hide Step;
    if m > 0 {
      GoGo(Step(s, Run(t, Choice(0, false, 0))), t, m - 1, n);
    }
  }

  ghost predicate Finds(s: State, t: Tid, kept: seq<Pid>, rest: seq<Pid>) {
    exists n :: Found(Go(s, t, n), t, kept, rest)
  }

  lemma FindsLater(s: State, t: Tid, m: nat, kept: seq<Pid>, rest: seq<Pid>)
    requires Finds(Go(s, t, m), t, kept, rest)
    ensures Finds(s, t, kept, rest)
  {
    hide Step, Found, Go;
    var n :| Found(Go(Go(s, t, m), t, n), t, kept, rest);
    GoGo(s, t, m, n);
  }

  /** Where a dispatcher that looks from place i on ends. */
  ghost predicate FindsFrom(s: State, t: Tid, i: nat)
    requires i <= |s.outL|
  {
    var l := s.outL[i..];
    Finds(s, t, s.outL[..i] + Opened(s, l[..Unready(s, l)]), l[Unready(s, l)..])
  }

  lemma {:induction false} ScanFinds(s: State, t: Tid, i: nat)
    requires Scanning(s, t, i)
    ensures FindsFrom(s, t, i)
    decreases |s.outL| - i
  {
    hide Go, Step, Found, SameFlags, Finds, Ph, Opened, FindsFrom;
    if Unready(s, s.outL[i..]) == 0 {
      FoundFinds(s, t, i);
    } else if Ph(s, s.outL[i]).open {
      ScanKeeps(s, t, i);
      ScanFinds(Go(s, t, 2), t, i + 1);
      ScanAgain(s, t, 2, i, i + 1);
    } else {
      ScanSkips(s, t, i);
      ScanFinds(Go(s, t, 3), t, i);
      ScanAgain(s, t, 3, i, i);
    }
  }

  lemma ScanAgain(s: State, t: Tid, m: nat, i: nat, i': nat)
    requires i <= |s.outL| && Unready(s, s.outL[i..]) > 0
    requires var s' := Go(s, t, m);
      && SameFlags(s, s') && i' <= |s'.outL| && s'.outL[i'..] == s.outL[i..][1..] && FindsFrom(s', t, i')
      && s'.outL[..i'] == s.outL[..i] + if Ph(s, s.outL[i]).open then [s.outL[i]] else []
    ensures FindsFrom(s, t, i)
  {
    hide Go, Step, Found, SameFlags, Finds, Ph, Opened, Unready;
    var s', l := Go(s, t, m), s.outL[i..];
    var j := Unready(s, l);
    PastFirst(s, s', l);
    assert s.outL[..i] + Opened(s, l[..j]) == s'.outL[..i'] + Opened(s', l[1..][..j - 1]);
    FindsLater(s, t, m, s.outL[..i] + Opened(s, l[..j]), l[j..]);
  }

  lemma PastFirst(s: State, s': State, l: seq<Pid>)
    requires SameFlags(s, s') && Unready(s, l) > 0
    ensures var j := Unready(s, l);
      && j == 1 + Unready(s', l[1..]) && l[j..] == l[1..][j - 1..]
      && Opened(s, l[..j]) == (if Ph(s, l[0]).open then [l[0]] else []) + Opened(s', l[1..][..j - 1])
  {
    hide SameFlags;
    var j := Unready(s, l);
    SameFound(s, s', l[1..]);
    SameFound(s, s', l[1..][..j - 1]);
    assert l[..j][1..] == l[1..][..j - 1];
  }

  lemma NoneOpened(s: State)
    ensures Opened(s, []) == []
  {
  }

  lemma FoundFinds(s: State, t: Tid, i: nat)
    requires Scanning(s, t, i) && Unready(s, s.outL[i..]) == 0
    ensures FindsFrom(s, t, i)
  {
    hide Found, Go, Unready, Opened, Step;
    var l := s.outL[i..];
    NoneOpened(s);
    ScanEnds(s, t, i);
    assert l[..0] == [] && l[0..] == l && s.outL[..i] + [] == s.outL[..i];
    assert Found(Go(s, t, 1), t, s.outL[..i], l);
  }

  /** A dispatcher that is needed serves the first phidget with inbound entries; with none, the first one on the
    * outbound list that is attached or detaching, having taken the closed ones before it off the list; and with none
    * of those either it looks again, with only the open ones still on the list. */
  lemma Dispatches(s: State, t: Tid)
    requires !s.panicked && s.dlock == None && Pc(s, t) == Loop
    ensures s.inL != [] ==>
      var s' := Go(s, t, 1); Pc(s', t) == Serve(Key(s.inL[0], In)) && s'.inL == s.inL[1..] && s'.outL == s.outL
    ensures s.inL == [] ==>
      var j := Unready(s, s.outL); Finds(s, t, Opened(s, s.outL[..j]), s.outL[j..])
  {
    hide Found;
    if s.inL != [] {
      LoopServes(s, t);
    } else {
      var s' := Go(s, t, 1);
      LoopScans(s, t);
      hide Step, SameFlags, Finds, Go, Opened, Unready;
      ScanFinds(s', t, 0);
      var j := Unready(s, s.outL);
      assert s'.outL[0..] == s.outL;
      SameFound(s, s', s.outL);
      SameFound(s, s', s.outL[..j]);
      assert s'.outL[..0] + Opened(s, s.outL[..j]) == Opened(s, s.outL[..j]);
      FindsLater(s, t, 1, Opened(s, s.outL[..j]), s.outL[j..]);
    }
  }

  lemma LoopServes(s: State, t: Tid)
    requires !s.panicked && s.dlock == None && Pc(s, t) == Loop && s.inL != []
    ensures var s' := Go(s, t, 1);
      Pc(s', t) == Serve(Key(s.inL[0], In)) && s'.inL == s.inL[1..] && s'.outL == s.outL
  {
    hide Ch;
  }

  lemma LoopScans(s: State, t: Tid)
    requires !s.panicked && s.dlock == None && Pc(s, t) == Loop && s.inL == []
    ensures var s' := Go(s, t, 1); Scanning(s', t, 0) && s'.outL == s.outL && SameFlags(s, s')
  {
  }

  /** While it may, a dispatcher takes the first entry to dispatch, to give it back itself unless somebody waits for
    * it; otherwise it clears the flag and lets the phidget go. */
  lemma Serves(s: State, t: Tid, ch: Choice)
    requires !s.panicked && Pc(s, t).Serve?
    ensures var k, s' := Pc(s, t).k, Step(s, Run(t, ch));
      if Served(Ph(s, k.p), k.d) && Ch(s, k).q != [] then
        Pc(s', t) == Disp(k, Ch(s, k).q[0], !Ent(s, Ch(s, k).q[0]).noreturn) && Ch(s', k).flag == Ch(s, k).flag
      else Pc(s', t) == Rel(k.p) && !Ch(s', k).flag
  {
    hide Step, StepServe, Ent, Ch, Ph;
    var k := Pc(s, t).k;
    S.Acts(s, t, ch);
    if Leaves(s, k) {
      ServeLeaves(s, t, k);
    } else {
      ServeGoesOn(s, t, k);
    }
  }

  lemma ServeLeaves(s: State, t: Tid, k: Key)
    requires Leaves(s, k)
    ensures var s' := StepServe(s, t, k); Pc(s', t) == Rel(k.p) && !Ch(s', k).flag
  {
  }

  lemma ServeGoesOn(s: State, t: Tid, k: Key)
    requires !Leaves(s, k)
    ensures var s', e := StepServe(s, t, k), Ch(s, k).q[0];
      Pc(s', t) == Disp(k, e, !Ent(s, e).noreturn) && Ch(s', k).flag == Ch(s, k).flag
  {
  }

  /** Who finds the flag clear sets it and puts the phidget at the end of its list; nobody else touches the lists but
    * the dispatchers, who take phidgets off. */
  lemma PutOnList(s: State, t: Tid, ch: Choice)
    requires !s.panicked && (Pc(s, t).AtFlag? || Pc(s, t).AtPlace?)
    ensures var pc, s' := Pc(s, t), Step(s, Run(t, ch));
      var k := Key(pc.q, pc.d);
      if pc.AtFlag? then
        && s'.inL == s.inL && s'.outL == s.outL && Ch(s', k).flag
        && Pc(s', t) == if Ch(s, k).flag then AtWake(pc.c, pc.q, pc.e) else AtRetain(pc.c, pc.q, pc.d, pc.e)
      else if s.dlock.Some? then s' == s
      else
        && s'.inL == s.inL + (if pc.d.In? then [pc.q] else [])
        && s'.outL == s.outL + (if pc.d.Out? then [pc.q] else [])
        && Pc(s', t) == AtWake(pc.c, pc.q, pc.e)
  {
    hide StepFlag, StepPlace, Ch;
    match Pc(s, t)
    case AtFlag(c, q, d, e) => FlagListed(s, t, c, q, d, e);
    case AtPlace(c, q, d, e) => PlaceListed(s, t, c, q, d, e);
  }

  lemma FlagListed(s: State, t: Tid, c: Cont, q: Pid, d: Dir, e: Eid)
    ensures var s', k := StepFlag(s, t, c, q, d, e), Key(q, d);
      && s'.inL == s.inL && s'.outL == s.outL && Ch(s', k).flag
      && Pc(s', t) == if Ch(s, k).flag then AtWake(c, q, e) else AtRetain(c, q, d, e)
  {
    var k := Key(q, d);
    if Ch(s, k).flag {
      I.GoGoes(s, t, AtWake(c, q, e));
    } else {
      assert StepFlag(s, t, c, q, d, e).pc == s.pc[t := AtRetain(c, q, d, e)];
      FlagSets(s, t, c, q, d, e);
    }
    hide StepFlag;
  }

  lemma FlagSets(s: State, t: Tid, c: Cont, q: Pid, d: Dir, e: Eid)
    requires !Ch(s, Key(q, d)).flag
    ensures Ch(StepFlag(s, t, c, q, d, e), Key(q, d)).flag
  {
  }

  lemma PlaceListed(s: State, t: Tid, c: Cont, q: Pid, d: Dir, e: Eid)
    ensures var s' := StepPlace(s, t, c, q, d, e);
      if s.dlock.Some? then s' == s
      else
        && s'.inL == s.inL + (if d.In? then [q] else []) && s'.outL == s.outL + (if d.Out? then [q] else [])
        && Pc(s', t) == AtWake(c, q, e)
  {
    hide Ch;
  }
}
