/** A run from beginning to end: the engine is not safe by standing still.  One activity makes a synchronous
  * request of any phidget that is open and attached, a dispatcher that its insertion starts runs it, and the caller
  * gets the dispatcher's result, whatever that is; the pool then has the entry back. */
module DispatchScenario {
  import opened Base
  import opened DispatchModel

  const CALLER := 1
  const DISPATCHER := 2

  function Go(t: Tid): Action { Run(t, Choice(OK, false, 0)) }

  /** The actions, in order: x is what bridgeInput answers. */
  function Script(p: Pid, x: Code): seq<Action> {
    [SetState(p, true, true, false, false), CallSync(CALLER, p),
     Go(CALLER), Go(CALLER), Go(CALLER), Go(CALLER), Go(CALLER),
     Run(CALLER, Choice(OK, true, DISPATCHER)), Go(CALLER), Go(DISPATCHER), Go(DISPATCHER),
     Run(DISPATCHER, Choice(x, false, 0)), Go(DISPATCHER), Go(CALLER), Go(CALLER)]
  }

  function Key0(p: Pid): Key { Key(p, In) }

  /** The parts of the state the run goes through. */
  ghost predicate At(s: State, p: Pid, caller: PC, dispatcher: PC) {
    && !s.panicked && s.dlock == None && Pc(s, CALLER) == caller && Pc(s, DISPATCHER) == dispatcher
    && Ph(s, p).open && s.nextReq == 1 && s.returned == map[]
  }

  /** The request is in entry 0, which is the only one. */
  ghost predicate Carried(s: State, waiting: bool, res: Code) {
    && s.pool.free == [] && s.pool.count == 1 && s.pool.next == 1 && 0 in s.pool.ents
    && Ent(s, 0).typ == UserReq && !Ent(s, 0).cb && Ent(s, 0).noreturn && Ent(s, 0).inbound
    && Ent(s, 0).waiting == waiting
    && Ent(s, 0).res == res && Ent(s, 0).req == 0
  }

  lemma ExecSnoc(actions: seq<Action>, a: Action)
    ensures Exec(actions + [a]) == Step(Exec(actions), a)
  {
    assert (actions + [a])[..|actions|] == actions;
  }

  /** A step of t is the lock region that its program counter is at. */
  lemma Acts(s: State, t: Tid, ch: Choice)
    requires !s.panicked
    ensures var s' := Step(s, Run(t, ch));
      match Pc(s, t)
      case Idle => s' == s
      case Get(c, q) => s' == StepGet(s, t, c, q, ch)
      case Ins(c, q, e) => s' == StepIns(s, t, c, q, e)
      case AtFlag(c, q, d, e) => s' == StepFlag(s, t, c, q, d, e)
      case AtRetain(c, q, d, e) => s' == StepRetain(s, t, c, q, d, e)
      case AtPlace(c, q, d, e) => s' == StepPlace(s, t, c, q, d, e)
      case AtWake(c, q, e) => s' == StepWake(s, t, c, q, e, ch)
      case ClrOut(c, q, pend, code) => s' == StepClrOut(s, t, c, q, pend, code)
      case ClrOutRet(c, q, x, pend, code) => s' == StepClrOutRet(s, t, c, q, x, pend, code)
      case Rej(c, q, e, code, thenClear) => s' == StepRej(s, t, c, q, e, code, thenClear, ch)
      case Done(c, q, e, code) => s' == StepDone(s, t, c, q, e, code)
      case Wait(r, e) => s' == StepWait(s, t, r, e)
      case WaitDone(r, e) => s' == StepWaitDone(s, t, r, e)
      case Loop => s' == StepLoop(s, t, ch)
      case Serve(k) => s' == StepServe(s, t, k)
      case Disp(k, e, ret) => s' == StepDisp(s, t, k, e, ret, ch)
      case DispSig(k, e, ret, res) => s' == StepDispSig(s, t, k, e, ret, res)
      case _ => true
  {
    hide StepGet, StepIns, StepFlag, StepRetain, StepPlace, StepWake, StepClrOut, StepClrOutRet, StepRej, StepDone,
         StepWait, StepWaitDone, StepLoop, StepServe, StepDisp, StepDispSig;
  }

  lemma Called(p: Pid) returns (s: State)
    ensures s == Step(Step(INIT, SetState(p, true, true, false, false)), CallSync(CALLER, p))
    ensures At(s, p, Get(Sync(0), p), Idle) && s.pool == INIT.pool && Ch(s, Key0(p)) == NO_CHAN && s.inL == []
  {
    s := Step(Step(INIT, SetState(p, true, true, false, false)), CallSync(CALLER, p));
  }

  lemma Taken(s: State, p: Pid) returns (s': State)
    requires At(s, p, Get(Sync(0), p), Idle) && s.pool == INIT.pool && Ch(s, Key0(p)) == NO_CHAN && s.inL == []
    ensures s' == Step(s, Go(CALLER))
    ensures At(s', p, Ins(Sync(0), p, 0), Idle) && Carried(s', true, 0) && Ch(s', Key0(p)) == NO_CHAN && s'.inL == []
  {
    hide Step, PoolTake, PoolPick, PoolEmpty;
    FirstEntry();
    assert Step(s, Go(CALLER)) == StepGet(s, CALLER, Sync(0), p, Choice(OK, false, 0)) by {
      hide *;
      Acts(s, CALLER, Choice(OK, false, 0));
    }
    s' := Step(s, Go(CALLER));
  }

  /** The first entry is a new one. */
  lemma FirstEntry()
    ensures !PoolEmpty(INIT.pool) && PoolPick(INIT.pool) == 0
    ensures var pool := PoolTake(INIT.pool, 0, Sync(0), CALLER);
      && pool.free == [] && pool.count == 1 && pool.next == 1 && 0 in pool.ents
      && PEnt(pool, 0) == Filled(Sync(0), CALLER, BLANK.(waiting := true))
  {
  }

  ghost predicate OnQueue(s: State, p: Pid, flag: bool) {
    Ch(s, Key0(p)).q == [0] && Ch(s, Key0(p)).flag == flag
  }

  lemma Queued(s: State, p: Pid) returns (s': State)
    requires At(s, p, Ins(Sync(0), p, 0), Idle) && Carried(s, true, 0) && Ch(s, Key0(p)) == NO_CHAN && s.inL == []
    ensures s' == Step(s, Go(CALLER))
    ensures At(s', p, AtFlag(Sync(0), p, In, 0), Idle) && Carried(s', true, 0) && OnQueue(s', p, false) && s'.inL == []
  {
    hide Step;
    assert Step(s, Go(CALLER)) == StepIns(s, CALLER, Sync(0), p, 0) by {
      hide *;
      Acts(s, CALLER, Choice(OK, false, 0));
    }
    s' := Step(s, Go(CALLER));
  }

  lemma Flagged(s: State, p: Pid) returns (s': State)
    requires At(s, p, AtFlag(Sync(0), p, In, 0), Idle) && Carried(s, true, 0) && OnQueue(s, p, false) && s.inL == []
    ensures s' == Step(s, Go(CALLER))
    ensures At(s', p, AtRetain(Sync(0), p, In, 0), Idle) && Carried(s', true, 0) && OnQueue(s', p, true) && s'.inL == []
  {
    hide Step;
    Acts(s, CALLER, Choice(OK, false, 0));
    s' := Step(s, Go(CALLER));
  }

  lemma Retained(s: State, p: Pid) returns (s': State)
    requires At(s, p, AtRetain(Sync(0), p, In, 0), Idle) && Carried(s, true, 0) && OnQueue(s, p, true) && s.inL == []
    ensures s' == Step(s, Go(CALLER))
    ensures At(s', p, AtPlace(Sync(0), p, In, 0), Idle) && Carried(s', true, 0) && OnQueue(s', p, true) && s'.inL == []
  {
    hide Step;
    Acts(s, CALLER, Choice(OK, false, 0));
    s' := Step(s, Go(CALLER));
  }

  lemma Placed(s: State, p: Pid) returns (s': State)
    requires At(s, p, AtPlace(Sync(0), p, In, 0), Idle) && Carried(s, true, 0) && OnQueue(s, p, true) && s.inL == []
    ensures s' == Step(s, Go(CALLER))
    ensures At(s', p, AtWake(Sync(0), p, 0), Idle) && Carried(s', true, 0) && OnQueue(s', p, true) && s'.inL == [p]
  {
    hide Step;
    Acts(s, CALLER, Choice(OK, false, 0));
    s' := Step(s, Go(CALLER));
  }

  lemma Woken(s: State, p: Pid) returns (s': State)
    requires At(s, p, AtWake(Sync(0), p, 0), Idle) && Carried(s, true, 0) && OnQueue(s, p, true) && s.inL == [p]
    ensures s' == Step(s, Run(CALLER, Choice(OK, true, DISPATCHER)))
    ensures At(s', p, Done(Sync(0), p, 0, OK), Loop) && Carried(s', true, 0) && OnQueue(s', p, true) && s'.inL == [p]
  {
    hide Step;
    Acts(s, CALLER, Choice(OK, true, DISPATCHER));
    s' := Step(s, Run(CALLER, Choice(OK, true, DISPATCHER)));
  }

  lemma Waiting(s: State, p: Pid) returns (s': State)
    requires At(s, p, Done(Sync(0), p, 0, OK), Loop) && Carried(s, true, 0) && OnQueue(s, p, true) && s.inL == [p]
    ensures s' == Step(s, Go(CALLER))
    ensures At(s', p, Wait(0, 0), Loop) && Carried(s', true, 0) && OnQueue(s', p, true) && s'.inL == [p]
  {
    hide Step;
    Acts(s, CALLER, Choice(OK, false, 0));
    s' := Step(s, Go(CALLER));
  }

  lemma Found(s: State, p: Pid) returns (s': State)
    requires At(s, p, Wait(0, 0), Loop) && Carried(s, true, 0) && OnQueue(s, p, true) && s.inL == [p]
    ensures s' == Step(s, Go(DISPATCHER))
    ensures At(s', p, Wait(0, 0), Serve(Key0(p))) && Carried(s', true, 0) && OnQueue(s', p, true)
  {
    hide Step;
    Acts(s, DISPATCHER, Choice(OK, false, 0));
    s' := Step(s, Go(DISPATCHER));
  }

  lemma Served(s: State, p: Pid) returns (s': State)
    requires At(s, p, Wait(0, 0), Serve(Key0(p))) && Carried(s, true, 0) && OnQueue(s, p, true)
    ensures s' == Step(s, Go(DISPATCHER))
    ensures At(s', p, Wait(0, 0), Disp(Key0(p), 0, false)) && Carried(s', true, 0)
  {
    hide Step, PopToDispatch;
    Acts(s, DISPATCHER, Choice(OK, false, 0));
    s' := Step(s, Go(DISPATCHER));
  }

  lemma Ran(s: State, p: Pid, x: Code) returns (s': State)
    requires At(s, p, Wait(0, 0), Disp(Key0(p), 0, false)) && Carried(s, true, 0)
    ensures s' == Step(s, Run(DISPATCHER, Choice(x, false, 0)))
    ensures At(s', p, Wait(0, 0), DispSig(Key0(p), 0, false, x)) && Carried(s', true, 0)
  {
    hide Step;
    Acts(s, DISPATCHER, Choice(x, false, 0));
    s' := Step(s, Run(DISPATCHER, Choice(x, false, 0)));
  }

  lemma Signalled(s: State, p: Pid, x: Code) returns (s': State)
    requires At(s, p, Wait(0, 0), DispSig(Key0(p), 0, false, x)) && Carried(s, true, 0)
    ensures s' == Step(s, Go(DISPATCHER))
    ensures At(s', p, Wait(0, 0), DispEnd(Key0(p), 0, false)) && Carried(s', false, x)
  {
    hide Step;
    Acts(s, DISPATCHER, Choice(OK, false, 0));
    s' := Step(s, Go(DISPATCHER));
  }

  lemma Noticed(s: State, p: Pid, x: Code) returns (s': State)
    requires At(s, p, Wait(0, 0), DispEnd(Key0(p), 0, false)) && Carried(s, false, x)
    ensures s' == Step(s, Go(CALLER))
    ensures At(s', p, WaitDone(0, 0), DispEnd(Key0(p), 0, false)) && Carried(s', false, x)
  {
    hide Step;
    Acts(s, CALLER, Choice(OK, false, 0));
    s' := Step(s, Go(CALLER));
  }

  lemma Answered(s: State, p: Pid, x: Code) returns (s': State)
    requires At(s, p, WaitDone(0, 0), DispEnd(Key0(p), 0, false)) && Carried(s, false, x)
    ensures s' == Step(s, Go(CALLER))
    ensures Pc(s', CALLER) == Idle && s'.returned == map[0 := x]
    ensures s'.pool.free == [0] && s'.pool.count == 1 && !s'.panicked
  {
    hide Step;
    Acts(s, CALLER, Choice(OK, false, 0));
    s' := Step(s, Go(CALLER));
  }

  /** The actions from the i-th on. */
  function After(s: State, actions: seq<Action>): State
    decreases |actions|
  {
    if actions == [] then s else After(Step(s, actions[0]), actions[1..])
  }

  lemma {:induction false} AfterExec(before: seq<Action>, actions: seq<Action>)
    ensures After(Exec(before), actions) == Exec(before + actions)
    decreases |actions|
  {
    hide Step;
    if actions == [] {
      assert before + actions == before;
    } else {
      ExecSnoc(before, actions[0]);
      AfterExec(before + [actions[0]], actions[1..]);
      assert before + [actions[0]] + actions[1..] == before + actions;
    }
  }

  lemma One(s: State, a: seq<Action>, i: nat)
    requires i < |a|
    ensures After(s, a[i..]) == After(Step(s, a[i]), a[i + 1..])
  {
    hide Step;
    assert a[i..][1..] == a[i + 1..];
  }

  lemma Two(s: State, a: seq<Action>, i: nat)
    requires i + 1 < |a|
    ensures After(s, a[i..]) == After(Step(Step(s, a[i]), a[i + 1]), a[i + 2..])
  {
    hide Step, After;
    One(s, a, i);
    One(Step(s, a[i]), a, i + 1);
  }

  /** For every phidget and every answer there is a run in which a synchronous caller gets that answer. */
  lemma SynchronousCallCompletes(p: Pid, x: Code)
    ensures var s := Exec(Script(p, x));
      Pc(s, CALLER) == Idle && s.returned == map[0 := x] && s.pool.free == [0] && s.pool.count == 1 && !s.panicked
  {
    hide *;
    var a := Script(p, x);
    ScriptIs(p, x);
    var s2 := Called(p);
    var s3 := Taken(s2, p);
    var s4 := Queued(s3, p);
    var s5 := Flagged(s4, p);
    var s6 := Retained(s5, p);
    var s7 := Placed(s6, p);
    var s8 := Woken(s7, p);
    var s9 := Waiting(s8, p);
    var s10 := Found(s9, p);
    var s11 := Served(s10, p);
    var s12 := Ran(s11, p, x);
    var s13 := Signalled(s12, p, x);
    var s14 := Noticed(s13, p, x);
    var s15 := Answered(s14, p, x);
    Two(INIT, a, 0);
    One(s2, a, 2);
    One(s3, a, 3);
    One(s4, a, 4);
    One(s5, a, 5);
    One(s6, a, 6);
    One(s7, a, 7);
    One(s8, a, 8);
    One(s9, a, 9);
    One(s10, a, 10);
    One(s11, a, 11);
    One(s12, a, 12);
    One(s13, a, 13);
    One(s14, a, 14);
    AfterNothing(s15);
    AfterAll(a);
    assert a[0..] == a && a[15..] == [];
  }

  lemma ScriptIs(p: Pid, x: Code)
    ensures var a := Script(p, x);
      && |a| == 15 && a[0] == SetState(p, true, true, false, false) && a[1] == CallSync(CALLER, p)
      && a[2] == Go(CALLER) && a[3] == Go(CALLER) && a[4] == Go(CALLER) && a[5] == Go(CALLER) && a[6] == Go(CALLER)
      && a[7] == Run(CALLER, Choice(OK, true, DISPATCHER)) && a[8] == Go(CALLER) && a[9] == Go(DISPATCHER)
      && a[10] == Go(DISPATCHER) && a[11] == Run(DISPATCHER, Choice(x, false, 0)) && a[12] == Go(DISPATCHER)
      && a[13] == Go(CALLER) && a[14] == Go(CALLER)
  {
  }

  lemma AfterAll(a: seq<Action>)
    ensures After(INIT, a) == Exec(a)
  {
    hide Step, After;
    AfterExec([], a);
    assert [] + a == a;
  }

  lemma AfterNothing(s: State)
    ensures After(s, []) == s
  {
  }
}
