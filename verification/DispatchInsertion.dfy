/** What becomes of an entry that is inserted, whoever inserts it, and what its inserter is told. */
module DispatchInsertion {
  import opened Base
  import opened DispatchModel
  import opened DispatchOwner
  import O = DispatchOwnerSteps
  import S = DispatchScenario
  import H = DispatchHandshake

  // ----- one insertion -----

  /** The entry a call takes: requests and what clients send a server are inbound, and everything else is outbound. */
  lemma TakenAs(actions: seq<Action>, t: Tid, ch: Choice)
    requires Pc(Exec(actions), t).Get?
    ensures var c, s' := Pc(Exec(actions), t).c, Step(Exec(actions), Run(t, ch));
      Pc(s', t).Ins? ==>
        var ent := Ent(s', Pc(s', t).e);
        match c
        case Post(typ) => ent.typ == typ && (ent.inbound <==> typ.ServerPkt?) && !ent.noreturn
        case Sync(r) => ent.typ == UserReq && ent.inbound && !ent.cb && ent.req == r && ent.noreturn && ent.waiting
        case Async(r) => ent.typ == UserReq && ent.inbound && ent.cb && ent.req == r && !ent.noreturn
        case CbOf(_, _, _, r, res) =>
          ent.typ == UserReqCallback && !ent.inbound && ent.cb && ent.req == r && ent.res == res && !ent.noreturn
  {
    hide OwnerInv, Exec, Ent, Step;
    var s, c, q := Exec(actions), Pc(Exec(actions), t).c, Pc(Exec(actions), t).q;
    O.OwnerAlways(actions);
    FreeIsBlank(s);
    if s.panicked {
      assert Step(s, Run(t, ch)) == s by { Stuck(s, t, ch); }
    } else {
      S.Acts(s, t, ch);
      TakenEntry(s, t, c, q, PoolPick(s.pool), s.dlock.Some?, PoolEmpty(s.pool), c.Post? && ch.yes);
    }
  }

  lemma Stuck(s: State, t: Tid, ch: Choice)
    requires s.panicked
    ensures Step(s, Run(t, ch)) == s
  {
  }

  lemma TakenEntry(s: State, t: Tid, c: Cont, q: Pid, e: Eid, locked: bool, empty: bool, surrender: bool)
    requires Pc(s, t) == Get(c, q) && e == PoolPick(s.pool)
    ensures var s' := Take(s, t, c, q, e, locked, empty, surrender);
      Pc(s', t).Ins? ==> Pc(s', t) == Ins(c, q, e) && Ent(s', e) == Filled(c, t, PEnt(PoolGet(s.pool), e))
  {
    hide PoolGet, Filled, Disarming, Posting, Arming, PoolPick;
  }

  lemma FreeIsBlank(s: State)
    requires OwnerInv(s)
    ensures var ent := PEnt(PoolGet(s.pool), PoolPick(s.pool)); !ent.inbound && !ent.noreturn
  {
  }

  /** An entry is appended to its queue exactly if none of three things holds: it is a packet or a callback and the
    * channel is detaching, or neither attached nor attaching; it is a packet and 200 outbound or 64 inbound entries
    * are queued; or more than 4096 outbound or 64 inbound entries are.  No other queue changes. */
  lemma Inserted(s: State, t: Tid, c: Cont, q: Pid, e: Eid, ch: Choice)
    requires !s.panicked && Pc(s, t) == Ins(c, q, e)
    ensures var s', ent, h := Step(s, Run(t, ch)), Ent(s, e), Ph(s, q);
      var k := Key(q, if ent.inbound then In else Out);
      var packet := ent.typ.ChannelPkt? || ent.typ.ClientPkt? || ent.typ.ServerPkt?;
      var dropped := (packet || ent.typ.UserReqCallback?) && (h.detaching || (!h.attached && !h.attaching));
      var shed := packet && Ch(s, k).count >= if ent.inbound then 64 else 200;
      var full := Ch(s, k).count > if ent.inbound then 64 else 4096;
      && (Ch(s', k).q == Ch(s, k).q + [e] <==> !dropped && !shed && !full)
      && (dropped || shed || full ==> Ch(s', k).q == Ch(s, k).q)
      && (forall j :: j != k ==> Ch(s', j).q == Ch(s, j).q)
      && Pc(s', t) ==
        if dropped then ClrOut(c, q, Some(e), 0x34)
        else if shed then Rej(c, q, e, 0x10, true)
        else if full then Rej(c, q, e, 0x10, false)
        else AtFlag(c, q, k.d, e)
  {
    var k := Key(q, DirOf(Ent(s, e)));
    var drop, shed, full := Dropped(Ent(s, e), Ph(s, q)), Shed(Ent(s, e), Ch(s, k)), Full(Ent(s, e), Ch(s, k));
    InsertMoves(s, t, c, q, e, k, drop, shed, full);
  }

  lemma InsertMoves(s: State, t: Tid, c: Cont, q: Pid, e: Eid, k: Key, drop: bool, shed: bool, full: bool)
    ensures var s' := Insert(s, t, c, q, e, k, drop, shed, full);
      && Ch(s', k).q == (if drop || shed || full then Ch(s, k).q else Ch(s, k).q + [e])
      && (forall j :: j != k ==> Ch(s', j).q == Ch(s, j).q)
      && Pc(s', t) ==
        if drop then ClrOut(c, q, Some(e), NOTATTACHED)
        else if shed then Rej(c, q, e, NOSPC, true)
        else if full then Rej(c, q, e, NOSPC, false)
        else AtFlag(c, q, k.d, e)
  {
    hide Disarming, Posting;
  }

  // ----- from the decision to the return -----

  /** The code that the next step of t decides its insertion with, if it does: there is no entry to be had, the caller
    * gives its entry up, or the entry is refused or appended. */
  function Verdict(s: State, t: Tid, ch: Choice): Option<Code> {
    match Pc(s, t)
    case Get(c, _) =>
      if s.dlock.Some? then None
      else if s.pool.free == [] && s.pool.count >= 32768 then Some(0x16)
      else if c.Post? && ch.yes then Some(0x2)
      else None
    case Ins(_, q, e) =>
      var ent, h := Ent(s, e), Ph(s, q);
      var queued := Ch(s, Key(q, if ent.inbound then In else Out)).count;
      var packet := ent.typ.ChannelPkt? || ent.typ.ClientPkt? || ent.typ.ServerPkt?;
      if (packet || ent.typ.UserReqCallback?) && (h.detaching || (!h.attached && !h.attaching)) then Some(0x34)
      else if packet && queued >= (if ent.inbound then 64 else 200) then Some(0x10)
      else if queued > (if ent.inbound then 64 else 4096) then Some(0x10)
      else Some(0)
    case _ => None
  }

  /** Who inserts, on which phidget, and with what code it will come back. */
  datatype Insertion = Insertion(c: Cont, q: Pid, code: Code)

  /** The insertion an activity is in, once it is decided. */
  function Decided(pc: PC): Option<Insertion> {
    match pc
    case AtFlag(c, q, _, _) => Some(Insertion(c, q, 0))
    case AtRetain(c, q, _, _) => Some(Insertion(c, q, 0))
    case AtPlace(c, q, _, _) => Some(Insertion(c, q, 0))
    case AtWake(c, q, _) => Some(Insertion(c, q, 0))
    case ClrOut(c, q, _, code) => Some(Insertion(c, q, code))
    case ClrOutRet(c, q, _, _, code) => Some(Insertion(c, q, code))
    case Rej(c, q, _, code, _) => Some(Insertion(c, q, code))
    case Done(c, q, _, code) => Some(Insertion(c, q, code))
    case _ => None
  }

  /** The action is the step of t that decides the insertion so. */
  predicate DecidesNow(s: State, a: Action, t: Tid, i: Insertion) {
    && !s.panicked && a.Run? && a.t == t && Verdict(s, t, a.choice) == Some(i.code)
    && (Pc(s, t).Get? || Pc(s, t).Ins?) && Pc(s, t).c == i.c && Pc(s, t).q == i.q
  }

  lemma GetDecides(s: State, t: Tid, c: Cont, q: Pid, ch: Choice)
    requires Pc(s, t) == Get(c, q)
    ensures var d := Decided(Pc(StepGet(s, t, c, q, ch), t));
      if Verdict(s, t, ch).Some? then d == Some(Insertion(c, q, Verdict(s, t, ch).value)) else d == None
  {
    hide PoolTake, PoolGet, Disarming, Posting, Arming;
  }

  /** A decided insertion stays decided as it is until it is over. */
  lemma Goes(s: State, t: Tid, ch: Choice)
    requires Decided(Pc(s, t)).Some?
    ensures var d := Decided(Pc(StepActivity(s, t, ch), t));
      d == Decided(Pc(s, t)) || (d == None && Pc(s, t).Done?)
  {
    hide StepFlag, StepRetain, StepPlace, StepWake, StepClrOut, StepClrOutRet, StepRej, Finish, Ent;
    match Pc(s, t)
    case AtFlag(c, q, d, e) => FlagGoes(s, t, c, q, d, e);
    case AtRetain(c, q, d, e) => PlaceGoes(s, t, c, q, d, e);
    case AtPlace(c, q, d, e) => PlaceGoes(s, t, c, q, d, e);
    case AtWake(c, q, e) => WakeGoes(s, t, c, q, e, ch);
    case ClrOut(c, q, pend, code) => ClrOutGoes(s, t, c, q, pend, code);
    case ClrOutRet(c, q, x, pend, code) => BackGoes(s, t, ch);
    case Rej(c, q, e, code, thenClear) => BackGoes(s, t, ch);
    case Done(c, q, e, code) => FinishGoes(s, t, c, e, code, code == OK);
  }

  lemma FlagGoes(s: State, t: Tid, c: Cont, q: Pid, d: Dir, e: Eid)
    ensures Decided(Pc(StepFlag(s, t, c, q, d, e), t)) == Some(Insertion(c, q, 0))
  {
    hide Ch;
    var s', pc := StepFlag(s, t, c, q, d, e), if Ch(s, Key(q, d)).flag then AtWake(c, q, e) else AtRetain(c, q, d, e);
    assert s'.pc == s.pc[t := pc];
    hide StepFlag;
  }

  lemma PlaceGoes(s: State, t: Tid, c: Cont, q: Pid, d: Dir, e: Eid)
    ensures Decided(Pc(StepRetain(s, t, c, q, d, e), t)) == Some(Insertion(c, q, 0))
    ensures var s' := StepPlace(s, t, c, q, d, e); s' == s || Decided(Pc(s', t)) == Some(Insertion(c, q, 0))
  {
    hide Ch, Ph;
  }

  lemma WakeGoes(s: State, t: Tid, c: Cont, q: Pid, e: Eid, ch: Choice)
    ensures var s' := StepWake(s, t, c, q, e, ch); s' == s || Decided(Pc(s', t)) == Some(Insertion(c, q, 0))
  {
  }

  lemma ClrOutGoes(s: State, t: Tid, c: Cont, q: Pid, pend: Option<Eid>, code: Code)
    ensures var s' := StepClrOut(s, t, c, q, pend, code); s' == s || Decided(Pc(s', t)) == Some(Insertion(c, q, code))
  {
    hide GoTo, ClearOne, Ch, Head;
    var x := Head(Ch(s, Key(q, Out)).q, 0);
    GoGoes(s, t, Cleared(c, q, pend, code));
    ClearOneGoes(s, t, Key(q, Out), ClrOutRet(c, q, x, pend, code));
  }

  lemma ClearOneGoes(s: State, t: Tid, k: Key, pc: PC)
    ensures Pc(ClearOne(s, t, k, pc), t) == pc
  {
    hide Ch, Losing, PopToClear, Head;
  }

  lemma FinishGoes(s: State, t: Tid, c: Cont, e: Eid, code: Code, ok: bool)
    ensures Decided(Pc(Finish(s, t, c, e, code, ok), t)).None?
  {
  }

  lemma ReturnGoes(s: State, t: Tid, e: Eid, pc: PC)
    ensures var s' := Returning(s, t, e, pc); Pc(s', t) == Pc(s, t) || Pc(s', t) == pc
  {
    hide PoolReturn, Returned, Ent;
  }

  lemma BackGoes(s: State, t: Tid, ch: Choice)
    requires Pc(s, t).ClrOutRet? || Pc(s, t).Rej?
    ensures Decided(Pc(StepActivity(s, t, ch), t)) == Decided(Pc(s, t))
  {
    hide Returning;
    match Pc(s, t)
    case ClrOutRet(c, q, x, pend, code) => ReturnGoes(s, t, x, ClrOut(c, q, pend, code));
    case Rej(c, q, e, code, thenClear) =>
      ReturnGoes(s, t, e, if thenClear && ch.yes then ClrOut(c, q, None, code) else Done(c, q, 0, code));
  }

  lemma NeverDecided(s: State, t: Tid, ch: Choice)
    requires Decided(Pc(s, t)).None? && !Pc(s, t).Get? && !Pc(s, t).Ins?
    ensures Decided(Pc(StepActivity(s, t, ch), t)).None?
  {
    hide StepWait, StepWaitDone, ClearNext, ClearIn, Returning, StepLoop, StepScan, StepScanOpen, StepScanDrop,
         StepServe, Dispatch, StepDispSig, StepRel, Ent, Ch, GoTo;
    match Pc(s, t)
    case Idle =>
    case Wait(r, e) => WaitGoes(s, t, r, e);
    case WaitDone(r, e) => WaitGoes(s, t, r, e);
    case ClrAll(p, d) => ClearGoes(s, t, p, d == Out && Ch(s, Key(p, Out)).q != [], Ch(s, Key(p, In)).q != []);
    case ClrIn(p, x) =>
      ClearInGoes(s, t, p, x, Ent(s, x), Ent(s, x).noreturn,
                  (Ent(s, x).typ.UserReq? && Ent(s, x).cb) || Ent(s, x).typ.UserReqCallback?);
    case ClrRet(p, x, d) => ReturnGoes(s, t, x, ClrAll(p, d));
    case Loop => SeekGoes(s, t, ch);
    case Scan(i) => SeekGoes(s, t, ch);
    case ScanOpen(i, p) => SeekGoes(s, t, ch);
    case ScanDrop(i, p) => DropGoes(s, t, i, p);
    case Serve(k) => ServeGoes(s, t, k);
    case Disp(k, e, ret) =>
      DispatchGoes(s, t, k, e, ret, Ent(s, e), ch.code, Ent(s, e).typ.UserReq?, Ent(s, e).typ.UserReqCallback?);
    case DispSig(k, e, ret, res) => SignalGoes(s, t, k, e, ret, res);
    case DispEnd(k, e, ret) =>
      GoGoes(s, t, Serve(k));
      if ret {
        ReturnGoes(s, t, e, Serve(k));
      }
    case Rel(p) => SignalGoes(s, t, Key(p, In), 0, false, 0);
  }

  lemma WaitGoes(s: State, t: Tid, r: Rid, e: Eid)
    requires Decided(Pc(s, t)).None?
    ensures Decided(Pc(StepWait(s, t, r, e), t)).None? && Decided(Pc(StepWaitDone(s, t, r, e), t)).None?
  {
    hide Ent, PoolReturn, PoolSet, Returned;
  }

  lemma ClearGoes(s: State, t: Tid, p: Pid, out: bool, inb: bool)
    ensures Decided(Pc(ClearNext(s, t, p, out, inb), t)).None?
  {
    hide GoTo, ClearOne, Ch, Head;
    ClearOneGoes(s, t, Key(p, Out), ClrRet(p, Head(Ch(s, Key(p, Out)).q, 0), Out));
    ClearOneGoes(s, t, Key(p, In), ClrIn(p, Head(Ch(s, Key(p, In)).q, 0)));
    GoGoes(s, t, Idle);
  }

  lemma ClearInGoes(s: State, t: Tid, p: Pid, x: Eid, ent: Entry, waited: bool, called: bool)
    ensures Decided(Pc(ClearIn(s, t, p, x, ent, waited, called), t)).None?
  {
  }

  lemma SeekGoes(s: State, t: Tid, ch: Choice)
    requires Pc(s, t).Loop? || Pc(s, t).Scan? || Pc(s, t).ScanOpen?
    ensures Decided(Pc(StepActivity(s, t, ch), t)).None?
  {
    hide StepActivity;
    H.SeekQuiet(s, t, ch);
  }

  lemma DropGoes(s: State, t: Tid, i: int, p: Pid)
    ensures Decided(Pc(StepScanDrop(s, t, i, p), t)).None?
  {
  }

  lemma ServeGoes(s: State, t: Tid, k: Key)
    ensures Decided(Pc(StepServe(s, t, k), t)).None?
  {
    hide Leaves, Left, PopToDispatch, Ent, Head, Ch, Ph;
    var s' := StepServe(s, t, k);
    var e := Head(Ch(s, k).q, 0);
    assert s'.pc == s.pc[t := if Leaves(s, k) then Rel(k.p) else Disp(k, e, !Ent(s, e).noreturn)];
    hide StepServe;
  }

  lemma DispatchGoes(s: State, t: Tid, k: Key, e: Eid, ret: bool, ent: Entry, code: Code, req: bool, callback: bool)
    ensures Decided(Pc(Dispatch(s, t, k, e, ret, ent, code, req, callback), t)).None?
  {
  }

  lemma SignalGoes(s: State, t: Tid, k: Key, e: Eid, ret: bool, res: Code)
    ensures Decided(Pc(StepDispSig(s, t, k, e, ret, res), t)).None? && Decided(Pc(StepRel(s, t, k.p), t)).None?
  {
  }

  lemma GoGoes(s: State, t: Tid, pc: PC)
    ensures Pc(GoTo(s, t, pc), t) == pc
  {
  }

  lemma StepDecided(s: State, a: Action, t: Tid)
    ensures var d, d' := Decided(Pc(s, t)), Decided(Pc(Step(s, a), t));
      && (forall i: Insertion :: DecidesNow(s, a, t, i) ==> d == None && d' == Some(i))
      && ((forall i: Insertion :: !DecidesNow(s, a, t, i)) ==> d' == None || d' == d)
  {
    hide StepActivity, Verdict;
    if !s.panicked && a.Run? && a.t != t {
      H.ActivityMovesOne(s, a.t, a.choice, t);
    } else if !s.panicked && a.Run? {
      Moved(s, t, a.choice);
      if (Pc(s, t).Get? || Pc(s, t).Ins?) && Verdict(s, t, a.choice).Some? {
        assert DecidesNow(s, a, t, Insertion(Pc(s, t).c, Pc(s, t).q, Verdict(s, t, a.choice).value));
      }
    }
  }

  lemma Moved(s: State, t: Tid, ch: Choice)
    ensures var pc, d, d' := Pc(s, t), Decided(Pc(s, t)), Decided(Pc(StepActivity(s, t, ch), t));
      if pc.Get? || pc.Ins? then
        var v := Verdict(s, t, ch);
        d == None && d' == if v.None? then None else Some(Insertion(pc.c, pc.q, v.value))
      else Verdict(s, t, ch).None? && (d' == None || d' == d)
  {
    match Pc(s, t) {
      case Get(c, q) =>
        hide StepGet, Verdict;
        GetDecides(s, t, c, q, ch);
      case Ins(c, q, e) =>
        hide StepIns;
        InsDecides(s, t, c, q, e, ch);
      case _ =>
        hide StepActivity;
        if Decided(Pc(s, t)).Some? {
          Goes(s, t, ch);
        } else {
          NeverDecided(s, t, ch);
        }
    }
  }

  lemma InsDecides(s: State, t: Tid, c: Cont, q: Pid, e: Eid, ch: Choice)
    requires Pc(s, t) == Ins(c, q, e)
    ensures Verdict(s, t, ch).Some?
    ensures Decided(Pc(StepIns(s, t, c, q, e), t)) == Some(Insertion(c, q, Verdict(s, t, ch).value))
  {
    hide Insert;
    var k := Key(q, DirOf(Ent(s, e)));
    var drop, shed, full := Dropped(Ent(s, e), Ph(s, q)), Shed(Ent(s, e), Ch(s, k)), Full(Ent(s, e), Ch(s, k));
    InsertMoves(s, t, c, q, e, k, drop, shed, full);
  }

  ghost predicate StaysDecided(actions: seq<Action>, j: nat, t: Tid)
    requires j < |actions|
  {
    forall n :: j < n <= |actions| ==> Decided(Pc(Exec(actions[..n]), t)).Some?
  }

  /** Whoever inserts an entry will be told what one step of its own decided, and will have been told only that: an
    * activity is about to return a code from insertDispatchEntry iff some step of the run met the guard of the branch
    * with that code and the activity has not been back since. */
  lemma {:induction false} ToldExactly(actions: seq<Action>, t: Tid, i: Insertion)
    ensures Decided(Pc(Exec(actions), t)) == Some(i) <==>
      exists j :: 0 <= j < |actions| && DecidesNow(Exec(actions[..j]), actions[j], t, i) && StaysDecided(actions, j, t)
  {
    hide Step, DecidesNow, Decided, Exec, StaysDecided;
    if actions == [] {
      NothingDecided(t);
    } else {
      var n := |actions| - 1;
      var before := actions[..n];
      ToldExactly(before, t, i);
      LastStep(actions);
      StepDecided(Exec(before), actions[n], t);
      StaysLast(actions, t);
      if Decided(Pc(Exec(actions), t)) == Some(i) && !DecidesNow(Exec(before), actions[n], t, i) {
        assert Decided(Pc(Exec(before), t)) == Some(i);
        var j :| 0 <= j < n && DecidesNow(Exec(before[..j]), before[j], t, i) && StaysDecided(before, j, t);
        assert before[..j] == actions[..j];
        assert DecidesNow(Exec(actions[..j]), actions[j], t, i) && StaysDecided(actions, j, t);
      }
      if j :| 0 <= j < |actions| && DecidesNow(Exec(actions[..j]), actions[j], t, i) && StaysDecided(actions, j, t) {
        assert before[..j] == actions[..j];
        if j < n {
          assert DecidesNow(Exec(before[..j]), before[j], t, i) && StaysDecided(before, j, t);
        }
      }
    }
  }

  lemma LastStep(actions: seq<Action>)
    requires actions != []
    ensures Exec(actions) == Step(Exec(actions[..|actions| - 1]), actions[|actions| - 1])
  {
    hide Step;
  }

  lemma StaysLast(actions: seq<Action>, t: Tid)
    requires actions != []
    ensures var n := |actions| - 1; var now := Decided(Pc(Exec(actions), t)).Some?;
      && (StaysDecided(actions, n, t) <==> now)
      && (forall j :: 0 <= j < n ==> (StaysDecided(actions, j, t) <==> StaysDecided(actions[..n], j, t) && now))
  {
    hide Exec, Decided, StaysDecided;
    var n := |actions| - 1;
    StaysNow(actions, t);
    forall j | 0 <= j < n
      ensures StaysDecided(actions, j, t) <==>
        StaysDecided(actions[..n], j, t) && Decided(Pc(Exec(actions), t)).Some?
    {
      StaysSnoc(actions, j, t);
    }
  }

  lemma StaysNow(actions: seq<Action>, t: Tid)
    requires actions != []
    ensures StaysDecided(actions, |actions| - 1, t) <==> Decided(Pc(Exec(actions), t)).Some?
  {
    hide Exec, Decided;
    assert actions[..|actions|] == actions;
    if StaysDecided(actions, |actions| - 1, t) {
      assert Decided(Pc(Exec(actions[..|actions|]), t)).Some?;
    }
  }

  lemma StaysSnoc(actions: seq<Action>, j: nat, t: Tid)
    requires j < |actions| - 1
    ensures StaysDecided(actions, j, t) <==>
      StaysDecided(actions[..|actions| - 1], j, t) && Decided(Pc(Exec(actions), t)).Some?
  {
    hide Exec, Decided;
    var n := |actions| - 1;
    var before := actions[..n];
    assert actions[..n + 1] == actions;
    if StaysDecided(actions, j, t) {
      assert Decided(Pc(Exec(actions[..n + 1]), t)).Some?;
      forall m | j < m <= n ensures Decided(Pc(Exec(before[..m]), t)).Some? {
        assert before[..m] == actions[..m];
      }
    }
    if StaysDecided(before, j, t) && Decided(Pc(Exec(actions), t)).Some? {
      forall m | j < m <= n + 1 ensures Decided(Pc(Exec(actions[..m]), t)).Some? {
        if m <= n {
          assert before[..m] == actions[..m];
        }
      }
    }
  }

  lemma NothingDecided(t: Tid)
    ensures Decided(Pc(Exec([]), t)).None?
  {
  }
}
