/** Two runs that show that the engine does break its word: one in which a callback is told that the phidget is
  * not attached although its request was answered, and one that fails the assertion of returnDispatchEntry.
  * They are followed through a view of the state, which holds what these runs read and write. */
module DispatchWitnesses {
  import opened Base
  import opened DispatchModel
  import S = DispatchScenario
  import H = DispatchHandshake

  const CALLER := S.CALLER
  const SERVER := S.DISPATCHER

  datatype View = View(caller: PC, server: PC, into: Chan, out: Chan, ph: Phid, inL: seq<Pid>, pool: Pool,
                       nextReq: Rid, calls: seq<Call>, processed: map<Rid, Code>)

  predicate Sees(s: State, p: Pid, v: View) {
    && !s.panicked && s.dlock == None && Pc(s, CALLER) == v.caller && Pc(s, SERVER) == v.server
    && Ch(s, Key(p, In)) == v.into && Ch(s, Key(p, Out)) == v.out && Ph(s, p) == v.ph && s.inL == v.inL
    && s.pool == v.pool && s.nextReq == v.nextReq && s.calls == v.calls && s.processed == v.processed
  }

  function ChanOf(v: View, d: Dir): Chan { if d == In then v.into else v.out }
  function WithChan(v: View, d: Dir, c: Chan): View { if d == In then v.(into := c) else v.(out := c) }

  // ----- one step at a time -----

  lemma Rests(s: State, p: Pid, v: View, ch: Choice)
    requires Sees(s, p, v) && v.caller.Idle?
    ensures Sees(Step(s, Run(CALLER, ch)), p, v)
  {
    hide Step;
    S.Acts(s, CALLER, ch);
  }

  lemma CallsAsync(s: State, p: Pid, v: View)
    requires Sees(s, p, v) && v.caller.Idle?
    ensures Sees(Step(s, CallAsync(CALLER, p)), p, v.(caller := Get(Async(v.nextReq), p), nextReq := v.nextReq + 1))
  {
  }

  lemma CallsSync(s: State, p: Pid, v: View)
    requires Sees(s, p, v) && v.caller.Idle?
    ensures Sees(Step(s, CallSync(CALLER, p)), p, v.(caller := Get(Sync(v.nextReq), p), nextReq := v.nextReq + 1))
  {
  }

  lemma CallsPost(s: State, p: Pid, v: View)
    requires Sees(s, p, v) && v.caller.Idle?
    ensures Sees(Step(s, CallPost(CALLER, p, Lifecycle)), p, v.(caller := Get(Post(Lifecycle), p)))
  {
  }

  lemma Gets(s: State, p: Pid, v: View, c: Cont)
    requires Sees(s, p, v) && v.caller == Get(c, p) && !PoolEmpty(v.pool)
    ensures var e := PoolPick(v.pool);
      Sees(Step(s, S.Go(CALLER)), p, v.(caller := Ins(c, p, e), pool := PoolTake(v.pool, e, c, CALLER)))
  {
    hide Step;
    assert Step(s, S.Go(CALLER)) == StepGet(s, CALLER, c, p, Choice(OK, false, 0)) by {
      hide *;
      S.Acts(s, CALLER, Choice(OK, false, 0));
    }
    hide PoolTake, PoolPick, PoolEmpty;
  }

  lemma Inserts(s: State, p: Pid, v: View, c: Cont, e: Eid, d: Dir)
    requires Sees(s, p, v) && v.caller == Ins(c, p, e) && d == DirOf(PEnt(v.pool, e))
    requires !AfterNotDetaching(PEnt(v.pool, e).typ) && ChanOf(v, d).count <= HardMax(d)
    ensures Sees(Step(s, S.Go(CALLER)), p,
                 WithChan(v.(caller := AtFlag(c, p, d, e)), d, Enqueue(ChanOf(v, d), e)))
  {
    hide Step, Enqueue;
    InsertsAtEnd(s, p, v, c, e, d);
  }

  lemma InsertsAtEnd(s: State, p: Pid, v: View, c: Cont, e: Eid, d: Dir)
    requires Sees(s, p, v) && v.caller == Ins(c, p, e) && d == DirOf(PEnt(v.pool, e))
    requires !AfterNotDetaching(PEnt(v.pool, e).typ) && ChanOf(v, d).count <= HardMax(d)
    ensures Step(s, S.Go(CALLER)) == Insert(s, CALLER, c, p, e, Key(p, d), false, false, false)
  {
    hide Step, Insert;
    assert Step(s, S.Go(CALLER)) == StepIns(s, CALLER, c, p, e) by {
      hide *;
      S.Acts(s, CALLER, Choice(OK, false, 0));
    }
  }

  lemma Flags(s: State, p: Pid, v: View, c: Cont, e: Eid, d: Dir)
    requires Sees(s, p, v) && v.caller == AtFlag(c, p, d, e)
    ensures Sees(Step(s, S.Go(CALLER)), p,
                 if ChanOf(v, d).flag then v.(caller := AtWake(c, p, e))
                 else WithChan(v.(caller := AtRetain(c, p, d, e)), d,
                               ChanOf(v, d).(flag := true, tok := Taken(CALLER))))
  {
    hide Step, Sees;
    if ChanOf(v, d).flag {
      FlagsSet(s, p, v, c, e, d);
    } else {
      FlagsClear(s, p, v, c, e, d);
    }
  }

  lemma FlagsSet(s: State, p: Pid, v: View, c: Cont, e: Eid, d: Dir)
    requires Sees(s, p, v) && v.caller == AtFlag(c, p, d, e) && ChanOf(v, d).flag
    ensures Sees(Step(s, S.Go(CALLER)), p, v.(caller := AtWake(c, p, e)))
  {
    hide Step;
    S.Acts(s, CALLER, Choice(OK, false, 0));
    assert Step(s, S.Go(CALLER)) == GoTo(s, CALLER, AtWake(c, p, e));
    Goes(s, p, v, AtWake(c, p, e));
  }

  lemma FlagsClear(s: State, p: Pid, v: View, c: Cont, e: Eid, d: Dir)
    requires Sees(s, p, v) && v.caller == AtFlag(c, p, d, e) && !ChanOf(v, d).flag
    ensures Sees(Step(s, S.Go(CALLER)), p,
                 WithChan(v.(caller := AtRetain(c, p, d, e)), d, ChanOf(v, d).(flag := true, tok := Taken(CALLER))))
  {
    hide Step;
    assert Step(s, S.Go(CALLER)) == StepFlag(s, CALLER, c, p, d, e) by {
      hide *;
      S.Acts(s, CALLER, Choice(OK, false, 0));
    }
  }

  lemma Retains(s: State, p: Pid, v: View, c: Cont, e: Eid, d: Dir)
    requires Sees(s, p, v) && v.caller == AtRetain(c, p, d, e)
    ensures Sees(Step(s, S.Go(CALLER)), p,
                 WithChan(v.(caller := AtPlace(c, p, d, e), ph := v.ph.(refcnt := v.ph.refcnt + 1)), d,
                          ChanOf(v, d).(tok := Held(CALLER))))
  {
    hide Step;
    assert Step(s, S.Go(CALLER)) == StepRetain(s, CALLER, c, p, d, e) by {
      hide *;
      S.Acts(s, CALLER, Choice(OK, false, 0));
    }
  }

  lemma Places(s: State, p: Pid, v: View, c: Cont, e: Eid, d: Dir)
    requires Sees(s, p, v) && v.caller == AtPlace(c, p, d, e)
    ensures Sees(Step(s, S.Go(CALLER)), p,
                 WithChan(v.(caller := AtWake(c, p, e), inL := if d == In then v.inL + [p] else v.inL), d,
                          ChanOf(v, d).(tok := Listed)))
  {
    hide Step;
    assert Step(s, S.Go(CALLER)) == StepPlace(s, CALLER, c, p, d, e) by {
      hide *;
      S.Acts(s, CALLER, Choice(OK, false, 0));
    }
  }

  lemma Wakes(s: State, p: Pid, v: View, c: Cont, e: Eid, start: bool, other: Tid)
    requires Sees(s, p, v) && v.caller == AtWake(c, p, e) && (start ==> other == SERVER)
    ensures Sees(Step(s, Run(CALLER, Choice(OK, start, other))), p,
                 v.(caller := Done(c, p, e, OK), server := if start && v.server.Idle? then Loop else v.server))
  {
    hide Step, Sees;
    if start && v.server.Idle? {
      Starts(s, p, v, c, e);
    } else {
      StartsNone(s, p, v, c, e, start, other);
    }
  }

  lemma Starts(s: State, p: Pid, v: View, c: Cont, e: Eid)
    requires Sees(s, p, v) && v.caller == AtWake(c, p, e) && v.server.Idle?
    ensures Sees(Step(s, Run(CALLER, Choice(OK, true, SERVER))), p, v.(caller := Done(c, p, e, OK), server := Loop))
  {
    WakesOther(s, c, p, e);
    hide Step;
    ServerGoes(s, p, v, Loop);
    Goes(GoTo(s, SERVER, Loop), p, v.(server := Loop), Done(c, p, e, OK));
  }

  lemma WakesOther(s: State, c: Cont, p: Pid, e: Eid)
    requires !s.panicked && s.dlock == None && Pc(s, CALLER) == AtWake(c, p, e) && Pc(s, SERVER).Idle?
    ensures Step(s, Run(CALLER, Choice(OK, true, SERVER))) ==
      GoTo(GoTo(s, SERVER, Loop), CALLER, Done(c, p, e, OK))
  {
    hide Step;
    S.Acts(s, CALLER, Choice(OK, true, SERVER));
    hide GoTo;
  }

  lemma ServerGoes(s: State, p: Pid, v: View, pc: PC)
    requires Sees(s, p, v)
    ensures Sees(GoTo(s, SERVER, pc), p, v.(server := pc))
  {
  }

  lemma StartsNone(s: State, p: Pid, v: View, c: Cont, e: Eid, start: bool, other: Tid)
    requires Sees(s, p, v) && v.caller == AtWake(c, p, e) && (start ==> other == SERVER && !v.server.Idle?)
    ensures Sees(Step(s, Run(CALLER, Choice(OK, start, other))), p, v.(caller := Done(c, p, e, OK)))
  {
    WakesAlone(s, c, p, e, start, other);
    hide Step;
    Goes(s, p, v, Done(c, p, e, OK));
  }

  lemma WakesAlone(s: State, c: Cont, p: Pid, e: Eid, start: bool, other: Tid)
    requires !s.panicked && s.dlock == None && Pc(s, CALLER) == AtWake(c, p, e) && (start ==> !Pc(s, other).Idle?)
    ensures Step(s, Run(CALLER, Choice(OK, start, other))) == GoTo(s, CALLER, Done(c, p, e, OK))
  {
    hide Step;
    S.Acts(s, CALLER, Choice(OK, start, other));
  }

  lemma Goes(s: State, p: Pid, v: View, pc: PC)
    requires Sees(s, p, v)
    ensures Sees(GoTo(s, CALLER, pc), p, v.(caller := pc))
  {
  }

  lemma Finishes(s: State, p: Pid, v: View, c: Cont, e: Eid)
    requires Sees(s, p, v) && v.caller == Done(c, p, e, OK) && (c.Post? || c.Async?)
    ensures Sees(Step(s, S.Go(CALLER)), p, v.(caller := Idle))
  {
    hide Step;
    S.Acts(s, CALLER, Choice(OK, false, 0));
  }

  // ----- a whole insertion -----

  /** A call into the engine and enough steps of its activity to bring it to its end. */
  function Inserting(before: seq<Action>, call: Action, start: bool): seq<Action> {
    before + [call] + [S.Go(CALLER)] + [S.Go(CALLER)] + [S.Go(CALLER)] + [S.Go(CALLER)] + [S.Go(CALLER)]
      + [Run(CALLER, Choice(OK, start, SERVER))] + [S.Go(CALLER)]
  }

  /** The entry that the call of c has queued on d. */
  function Queued(v: View, c: Cont, d: Dir): View {
    var e := PoolPick(v.pool);
    WithChan(v.(caller := Idle, pool := PoolTake(v.pool, e, c, CALLER)), d,
             Enqueue(ChanOf(v, d), e).(flag := true, tok := if ChanOf(v, d).flag then ChanOf(v, d).tok else Listed))
  }

  /** What the first insertion does besides. */
  function Scheduled(v: View, p: Pid, d: Dir, start: bool): View {
    v.(ph := v.ph.(refcnt := v.ph.refcnt + 1), inL := if d == In then v.inL + [p] else v.inL,
       server := if start && v.server.Idle? then Loop else v.server)
  }

  ghost predicate Insertable(v: View, c: Cont, p: Pid, d: Dir) {
    && v.caller == Get(c, p) && (c.Post? || c.Async?) && !PoolEmpty(v.pool) && ChanOf(v, d).count <= HardMax(d)
    && var ent := PEnt(PoolTake(v.pool, PoolPick(v.pool), c, CALLER), PoolPick(v.pool));
    d == DirOf(ent) && !AfterNotDetaching(ent.typ)
  }

  /** The insertion has queued the entry and is about to look at the flag. */
  function AtItsFlag(v: View, c: Cont, p: Pid, d: Dir): View {
    var e := PoolPick(v.pool);
    WithChan(v.(caller := AtFlag(c, p, d, e), pool := PoolTake(v.pool, e, c, CALLER)), d, Enqueue(ChanOf(v, d), e))
  }

  lemma UpToFlag(a: seq<Action>, p: Pid, v: View, c: Cont, d: Dir)
    requires Sees(Exec(a), p, v) && Insertable(v, c, p, d)
    ensures Sees(Exec(a + [S.Go(CALLER)] + [S.Go(CALLER)]), p, AtItsFlag(v, c, p, d))
    ensures ChanOf(AtItsFlag(v, c, p, d), d).flag == ChanOf(v, d).flag
    ensures ChanOf(AtItsFlag(v, c, p, d), d).tok == ChanOf(v, d).tok
  {
    hide Step, Exec, Sees, PoolTake, PoolPick, PoolEmpty, Enqueue;
    var e := PoolPick(v.pool);
    var v' := v.(caller := Ins(c, p, e), pool := PoolTake(v.pool, e, c, CALLER));
    Gets(Exec(a), p, v, c);
    S.ExecSnoc(a, S.Go(CALLER));
    Inserts(Exec(a + [S.Go(CALLER)]), p, v', c, e, d);
    S.ExecSnoc(a + [S.Go(CALLER)], S.Go(CALLER));
    EnqueueFlag(ChanOf(v, d), e);
  }

  /** From the flag on, when it was clear. */
  lemma TakesToken(a: seq<Action>, p: Pid, v: View, c: Cont, e: Eid, d: Dir)
    requires Sees(Exec(a), p, v) && v.caller == AtFlag(c, p, d, e) && !ChanOf(v, d).flag
    ensures Sees(Exec(a + [S.Go(CALLER)] + [S.Go(CALLER)] + [S.Go(CALLER)]), p,
                 WithChan(Scheduled(v, p, d, false).(caller := AtWake(c, p, e)), d,
                          ChanOf(v, d).(flag := true, tok := Listed)))
  {
    hide Step, Exec, Sees;
    var v1 := WithChan(v.(caller := AtRetain(c, p, d, e)), d, ChanOf(v, d).(flag := true, tok := Taken(CALLER)));
    Flags(Exec(a), p, v, c, e, d);
    S.ExecSnoc(a, S.Go(CALLER));
    var v2 := WithChan(v1.(caller := AtPlace(c, p, d, e), ph := v1.ph.(refcnt := v1.ph.refcnt + 1)), d,
                       ChanOf(v1, d).(tok := Held(CALLER)));
    Retains(Exec(a + [S.Go(CALLER)]), p, v1, c, e, d);
    S.ExecSnoc(a + [S.Go(CALLER)], S.Go(CALLER));
    Places(Exec(a + [S.Go(CALLER)] + [S.Go(CALLER)]), p, v2, c, e, d);
    S.ExecSnoc(a + [S.Go(CALLER)] + [S.Go(CALLER)], S.Go(CALLER));
  }

  lemma WakesAndFinishes(a: seq<Action>, p: Pid, v: View, c: Cont, e: Eid, start: bool, other: Tid)
    requires Sees(Exec(a), p, v) && v.caller == AtWake(c, p, e) && (start ==> other == SERVER) && (c.Post? || c.Async?)
    ensures Sees(Exec(a + [Run(CALLER, Choice(OK, start, other))] + [S.Go(CALLER)]), p,
                 v.(caller := Idle, server := if start && v.server.Idle? then Loop else v.server))
  {
    hide Step, Exec, Sees;
    Wakes(Exec(a), p, v, c, e, start, other);
    var a' := a + [Run(CALLER, Choice(OK, start, other))];
    S.ExecSnoc(a, Run(CALLER, Choice(OK, start, other)));
    Finishes(Exec(a'), p, v.(caller := Done(c, p, e, OK), server := if start && v.server.Idle? then Loop else v.server),
             c, e);
    S.ExecSnoc(a', S.Go(CALLER));
  }

  lemma FirstInsertion(before: seq<Action>, call: Action, start: bool, p: Pid, v: View, c: Cont, d: Dir)
    requires Sees(Exec(before + [call]), p, v) && Insertable(v, c, p, d) && !ChanOf(v, d).flag
    ensures Sees(Exec(Inserting(before, call, start)), p, Scheduled(Queued(v, c, d), p, d, start))
  {
    hide Step, Exec, Sees, PoolTake, PoolPick, PoolEmpty, Enqueue, Insertable;
    var a, e := before + [call], PoolPick(v.pool);
    UpToFlag(a, p, v, c, d);
    a := a + [S.Go(CALLER)] + [S.Go(CALLER)];
    var v1 := AtItsFlag(v, c, p, d);
    TakesToken(a, p, v1, c, e, d);
    a := a + [S.Go(CALLER)] + [S.Go(CALLER)] + [S.Go(CALLER)];
    var v2 := WithChan(Scheduled(v1, p, d, false).(caller := AtWake(c, p, e)), d,
                       ChanOf(v1, d).(flag := true, tok := Listed));
    PostOrAsync(v, c, p, d);
    WakesAndFinishes(a, p, v2, c, e, start, SERVER);
  }

  lemma PostOrAsync(v: View, c: Cont, p: Pid, d: Dir)
    requires Insertable(v, c, p, d)
    ensures c.Post? || c.Async?
  {
  }

  lemma EnqueueFlag(c: Chan, e: Eid)
    ensures Enqueue(c, e).flag == c.flag && Enqueue(c, e).tok == c.tok
  {
  }

  lemma LaterInsertion(before: seq<Action>, call: Action, p: Pid, v: View, c: Cont, d: Dir)
    requires Sees(Exec(before + [call]), p, v) && Insertable(v, c, p, d) && ChanOf(v, d).flag
    ensures Sees(Exec(Inserting(before, call, false)), p, Queued(v, c, d))
  {
    hide Step, Exec, Sees, PoolTake, PoolPick, PoolEmpty, Enqueue, Insertable;
    var a, e := before + [call], PoolPick(v.pool);
    UpToFlag(a, p, v, c, d);
    a := a + [S.Go(CALLER)] + [S.Go(CALLER)];
    var v1 := AtItsFlag(v, c, p, d);
    Flags(Exec(a), p, v1, c, e, d);
    S.ExecSnoc(a, S.Go(CALLER));
    a := a + [S.Go(CALLER)];
    PostOrAsync(v, c, p, d);
    WakesAndFinishes(a, p, v1.(caller := AtWake(c, p, e)), c, e, false, 0);
    a := a + [S.Go(CALLER)] + [S.Go(CALLER)];
    Rests(Exec(a), p, v1.(caller := Idle), Choice(OK, false, SERVER));
    S.ExecSnoc(a, Run(CALLER, Choice(OK, false, SERVER)));
    a := a + [Run(CALLER, Choice(OK, false, SERVER))];
    Rests(Exec(a), p, v1.(caller := Idle), Choice(OK, false, 0));
    S.ExecSnoc(a, S.Go(CALLER));
  }

  /** With an empty free list the entry taken is a new one. */
  lemma NewEntry(pool: Pool, c: Cont, t: Tid)
    requires pool.free == [] && pool.count < ENTRY_MAX
    ensures !PoolEmpty(pool) && PoolPick(pool) == pool.next
    ensures var pool' := PoolTake(pool, pool.next, c, t);
      && pool'.free == [] && pool'.count == pool.count + 1 && pool'.next == pool.next + 1
      && PEnt(pool', pool.next) == Filled(c, t, BLANK.(waiting := true))
      && forall x :: x != pool.next ==> PEnt(pool', x) == PEnt(pool, x)
  {
  }

  /** Requests are made of phidgets that are open and attached. */
  function Opened(p: Pid): seq<Action> { [SetState(p, true, true, false, false)] }

  const FRESH :=
    View(Idle, Idle, NO_CHAN, NO_CHAN, NO_PHID.(open := true, attached := true), [], INIT.pool, 0, [], map[])

  lemma Opens(p: Pid)
    ensures Sees(Exec(Opened(p)), p, FRESH)
  {
    var a := Opened(p);
    assert a[..0] == [];
    assert Exec(a) == Step(INIT, a[0]);
  }

  // ----- the assertion -----

  /** n asynchronous requests, and no dispatcher. */
  function Filling(p: Pid, n: nat): seq<Action> {
    if n == 0 then Opened(p) else Inserting(Filling(p, n - 1), CallAsync(CALLER, p), false)
  }

  /** n entries are queued and no entry is free. */
  predicate Loaded(v: View, n: nat) {
    v.caller.Idle? && v.into.count == n && (v.into.flag <==> n > 0) && v.pool.free == [] && v.pool.count == n
  }

  lemma {:induction false} Loads(p: Pid, n: nat) returns (v: View)
    requires n <= PHID_IMAX + 1
    ensures Sees(Exec(Filling(p, n)), p, v) && Loaded(v, n)
  {
    hide Exec, Step, Sees;
    if n == 0 {
      Opens(p);
      v := FRESH;
    } else {
      var w := Loads(p, n - 1);
      v := LoadsOneMore(Filling(p, n - 1), p, w, n - 1);
    }
  }

  lemma LoadsOneMore(before: seq<Action>, p: Pid, v: View, n: nat) returns (v': View)
    requires Sees(Exec(before), p, v) && Loaded(v, n) && n <= PHID_IMAX
    ensures Sees(Exec(Inserting(before, CallAsync(CALLER, p), false)), p, v') && Loaded(v', n + 1)
  {
    hide Exec, Step, Sees, PoolTake, Inserting;
    CallsAsync(Exec(before), p, v);
    S.ExecSnoc(before, CallAsync(CALLER, p));
    var c := Async(v.nextReq);
    var w := v.(caller := Get(c, p), nextReq := v.nextReq + 1);
    NewEntry(v.pool, c, CALLER);
    if n == 0 {
      v' := Scheduled(Queued(w, c, In), p, In, false);
      FirstInsertion(before, CallAsync(CALLER, p), false, p, w, c, In);
    } else {
      v' := Queued(w, c, In);
      LaterInsertion(before, CallAsync(CALLER, p), p, w, c, In);
    }
  }

  /** A synchronous call finds 65 entries queued, is refused and gives its entry back. */
  function Refusal(p: Pid): seq<Action> {
    Filling(p, PHID_IMAX + 1) + [CallSync(CALLER, p)] + [S.Go(CALLER)] + [S.Go(CALLER)] + [S.Go(CALLER)]
  }

  /** For every phidget there is a run that fails the assertion. */
  lemma AssertionReached(p: Pid)
    ensures Exec(Refusal(p)).panicked
  {
    hide Exec, Step, Sees, PoolTake, PoolPick, PoolEmpty, Filling;
    var v := Loads(p, PHID_IMAX + 1);
    var a := Filling(p, PHID_IMAX + 1);
    var c, e := Sync(v.nextReq), PoolPick(v.pool);
    CallsSync(Exec(a), p, v);
    S.ExecSnoc(a, CallSync(CALLER, p));
    a := a + [CallSync(CALLER, p)];
    var v1 := v.(caller := Get(c, p), nextReq := v.nextReq + 1);
    NewEntry(v.pool, c, CALLER);
    Gets(Exec(a), p, v1, c);
    S.ExecSnoc(a, S.Go(CALLER));
    a := a + [S.Go(CALLER)];
    var v2 := v1.(caller := Ins(c, p, e), pool := PoolTake(v.pool, e, c, CALLER));
    IsRefused(Exec(a), p, v2, c, e);
    S.ExecSnoc(a, S.Go(CALLER));
    a := a + [S.Go(CALLER)];
    FailsAssertion(Exec(a), p, v2.(caller := Rej(c, p, e, NOSPC, false), into := v2.into.(has := true)), c, e);
    S.ExecSnoc(a, S.Go(CALLER));
  }

  lemma IsRefused(s: State, p: Pid, v: View, c: Cont, e: Eid)
    requires Sees(s, p, v) && v.caller == Ins(c, p, e) && v.into.count > PHID_IMAX
    requires PEnt(v.pool, e).typ.UserReq? && PEnt(v.pool, e).inbound
    ensures Sees(Step(s, S.Go(CALLER)), p, v.(caller := Rej(c, p, e, NOSPC, false), into := v.into.(has := true)))
  {
    hide Step;
    S.Acts(s, CALLER, Choice(OK, false, 0));
  }

  lemma FailsAssertion(s: State, p: Pid, v: View, c: Cont, e: Eid)
    requires Sees(s, p, v) && v.caller == Rej(c, p, e, NOSPC, false) && PEnt(v.pool, e).noreturn
    ensures Step(s, S.Go(CALLER)).panicked
  {
    hide Step;
    S.Acts(s, CALLER, Choice(OK, false, 0));
  }

  // ----- the callback -----

  lemma Loops(s: State, p: Pid, v: View)
    requires Sees(s, p, v) && v.server.Loop? && v.inL == [p]
    ensures Sees(Step(s, S.Go(SERVER)), p,
                 v.(server := Serve(Key(p, In)), inL := [], into := v.into.(tok := Held(SERVER))))
  {
    hide Step;
    assert Step(s, S.Go(SERVER)) == StepLoop(s, SERVER, Choice(OK, false, 0)) by {
      hide *;
      S.Acts(s, SERVER, Choice(OK, false, 0));
    }
  }

  lemma Serves(s: State, p: Pid, v: View, e: Eid)
    requires Sees(s, p, v) && v.server == Serve(Key(p, In)) && v.ph.open && v.into.q == [e] && !PEnt(v.pool, e).noreturn
    ensures Sees(Step(s, S.Go(SERVER)), p, v.(server := Disp(Key(p, In), e, true), into := PopToDispatch(v.into)))
  {
    hide Step;
    assert Step(s, S.Go(SERVER)) == StepServe(s, SERVER, Key(p, In)) by {
      hide *;
      S.Acts(s, SERVER, Choice(OK, false, 0));
    }
    hide PopToDispatch;
  }

  lemma RunsRequest(s: State, p: Pid, v: View, e: Eid, x: Code)
    requires Sees(s, p, v) && v.server == Disp(Key(p, In), e, true)
    requires PEnt(v.pool, e).typ.UserReq? && PEnt(v.pool, e).cb
    ensures var r := PEnt(v.pool, e).req;
      Sees(Step(s, Run(SERVER, Choice(x, false, 0))), p,
           v.(server := Get(CbOf(Key(p, In), e, true, r, x), p), processed := v.processed[r := x]))
  {
    hide Step;
    var ch := Choice(x, false, 0);
    assert Step(s, Run(SERVER, ch)) == StepDisp(s, SERVER, Key(p, In), e, true, ch) by {
      hide *;
      S.Acts(s, SERVER, ch);
    }
  }

  lemma GetsToo(s: State, p: Pid, v: View, c: Cont)
    requires Sees(s, p, v) && v.server == Get(c, p) && !PoolEmpty(v.pool)
    ensures var e := PoolPick(v.pool);
      Sees(Step(s, S.Go(SERVER)), p, v.(server := Ins(c, p, e), pool := PoolTake(v.pool, e, c, SERVER)))
  {
    hide Step;
    assert Step(s, S.Go(SERVER)) == StepGet(s, SERVER, c, p, Choice(OK, false, 0)) by {
      hide *;
      S.Acts(s, SERVER, Choice(OK, false, 0));
    }
    hide PoolTake, PoolPick, PoolEmpty;
  }

  lemma Drops(s: State, p: Pid, v: View, c: Cont, e: Eid)
    requires Sees(s, p, v) && v.server == Ins(c, p, e) && PEnt(v.pool, e).typ.UserReqCallback?
    requires !v.ph.attached && !v.ph.attaching
    ensures Sees(Step(s, S.Go(SERVER)), p, v.(server := ClrOut(c, p, Some(e), NOTATTACHED)))
  {
    hide Step;
    assert Step(s, S.Go(SERVER)) == StepIns(s, SERVER, c, p, e) by {
      hide *;
      S.Acts(s, SERVER, Choice(OK, false, 0));
    }
  }

  lemma Clears(s: State, p: Pid, v: View, c: Cont, e: Eid, x: Eid)
    requires Sees(s, p, v) && v.server == ClrOut(c, p, Some(e), NOTATTACHED) && v.out.has && v.out.q == [x]
    ensures Sees(Step(s, S.Go(SERVER)), p,
                 v.(server := ClrOutRet(c, p, x, Some(e), NOTATTACHED), out := PopToClear(v.out)))
  {
    hide Step;
    assert Step(s, S.Go(SERVER)) == StepClrOut(s, SERVER, c, p, Some(e), NOTATTACHED) by {
      hide *;
      S.Acts(s, SERVER, Choice(OK, false, 0));
    }
    hide PopToClear;
  }

  lemma Frees(s: State, p: Pid, v: View, c: Cont, e: Eid, x: Eid)
    requires Sees(s, p, v) && v.server == ClrOutRet(c, p, x, Some(e), NOTATTACHED) && !PEnt(v.pool, x).noreturn
    ensures Sees(Step(s, S.Go(SERVER)), p,
                 v.(server := ClrOut(c, p, Some(e), NOTATTACHED), pool := PoolReturn(v.pool, x)))
  {
    hide Step;
    assert Step(s, S.Go(SERVER)) == StepClrOutRet(s, SERVER, c, p, x, Some(e), NOTATTACHED) by {
      hide *;
      S.Acts(s, SERVER, Choice(OK, false, 0));
    }
    hide PoolReturn;
  }

  lemma FindsNone(s: State, p: Pid, v: View, c: Cont, e: Eid)
    requires Sees(s, p, v) && v.server == ClrOut(c, p, Some(e), NOTATTACHED) && v.out.has && v.out.q == []
    ensures Sees(Step(s, S.Go(SERVER)), p, v.(server := Rej(c, p, e, NOTATTACHED, false)))
  {
    hide Step;
    S.Acts(s, SERVER, Choice(OK, false, 0));
  }

  lemma Rejects(s: State, p: Pid, v: View, c: Cont, e: Eid)
    requires Sees(s, p, v) && v.server == Rej(c, p, e, NOTATTACHED, false) && !PEnt(v.pool, e).noreturn
    ensures Sees(Step(s, S.Go(SERVER)), p,
                 v.(server := Done(c, p, 0, NOTATTACHED), pool := PoolReturn(v.pool, e)))
  {
    hide Step;
    S.Acts(s, SERVER, Choice(OK, false, 0));
    hide PoolReturn;
  }

  lemma TellsCaller(s: State, p: Pid, v: View, c: Cont)
    requires Sees(s, p, v) && v.server == Done(c, p, 0, NOTATTACHED) && c.CbOf?
    ensures Sees(Step(s, S.Go(SERVER)), p,
                 v.(server := DispEnd(c.k, c.e, c.ret), calls := v.calls + [Call(c.r, NOTATTACHED, FailedPost)]))
  {
    hide Step;
    S.Acts(s, SERVER, Choice(OK, false, 0));
  }

  /** An outbound entry and an asynchronous request are queued, and a dispatcher has started. */
  function Prepared(p: Pid): seq<Action> {
    Inserting(Inserting(Opened(p), CallPost(CALLER, p, Lifecycle), false), CallAsync(CALLER, p), true)
  }

  predicate Ready(v: View, p: Pid) {
    && v.server.Loop? && v.inL == [p] && v.into.q == [1] && v.out.q == [0] && v.out.has
    && v.ph.open && v.calls == [] && v.processed == map[]
    && v.pool.free == [] && v.pool.count == 2 && v.pool.next == 2 && !PEnt(v.pool, 0).noreturn
    && PEnt(v.pool, 1).typ.UserReq? && PEnt(v.pool, 1).cb && PEnt(v.pool, 1).req == 0 && !PEnt(v.pool, 1).noreturn
  }

  lemma Prepares(p: Pid) returns (v: View)
    ensures Sees(Exec(Prepared(p)), p, v) && Ready(v, p)
  {
    hide Exec, Step, Sees, PoolTake, Inserting;
    var a, call, c := Opened(p), CallPost(CALLER, p, Lifecycle), Post(Lifecycle);
    Opens(p);
    CallsPost(Exec(a), p, FRESH);
    S.ExecSnoc(a, call);
    NewEntry(FRESH.pool, c, CALLER);
    var v1 := FRESH.(caller := Get(c, p));
    FirstInsertion(a, call, false, p, v1, c, Out);
    var v2 := Scheduled(Queued(v1, c, Out), p, Out, false);
    a := Inserting(a, call, false);
    CallsAsync(Exec(a), p, v2);
    S.ExecSnoc(a, CallAsync(CALLER, p));
    NewEntry(v2.pool, Async(0), CALLER);
    var v3 := v2.(caller := Get(Async(0), p), nextReq := 1);
    FirstInsertion(a, CallAsync(CALLER, p), true, p, v3, Async(0), In);
    v := Scheduled(Queued(v3, Async(0), In), p, In, true);
  }

  /** The phidget's attachment ends. */
  function Detach(p: Pid): Action { SetState(p, true, false, false, false) }

  lemma Detaches(s: State, p: Pid, v: View)
    requires Sees(s, p, v)
    ensures Sees(Step(s, Detach(p)), p,
                 v.(ph := v.ph.(open := true, attached := false, attaching := false, detaching := false)))
  {
  }

  /** bridgeInput answers x; then the phidget is detached, and the callback cannot be posted. */
  function Served(p: Pid, x: Code): seq<Action> {
    Prepared(p) + [S.Go(SERVER)] + [S.Go(SERVER)] + [Run(SERVER, Choice(x, false, 0))]
  }

  function Answered(p: Pid, x: Code): seq<Action> {
    Served(p, x) + [Detach(p)] + [S.Go(SERVER)] + [S.Go(SERVER)]
  }

  function Lost(p: Pid, x: Code): seq<Action> {
    Answered(p, x) + [S.Go(SERVER)] + [S.Go(SERVER)] + [S.Go(SERVER)] + [S.Go(SERVER)] + [S.Go(SERVER)]
  }

  predicate Dropping(v: View, p: Pid, x: Code) {
    && v.server == ClrOut(CbOf(Key(p, In), 1, true, 0, x), p, Some(2), NOTATTACHED) && v.out.q == [0] && v.out.has
    && v.calls == [] && v.processed == map[0 := x] && v.pool.count == 3
    && !PEnt(v.pool, 0).noreturn && !PEnt(v.pool, 2).noreturn
  }

  /** The callback is about to be posted. */
  predicate CallbackDue(v: View, p: Pid, x: Code) {
    && v.server == Get(CbOf(Key(p, In), 1, true, 0, x), p) && v.out.has && v.out.q == [0]
    && v.calls == [] && v.processed == map[0 := x] && !PEnt(v.pool, 0).noreturn
    && v.pool.count == 2 && v.pool.next == 2 && v.pool.free == []
  }

  lemma Serving(p: Pid, x: Code) returns (v: View)
    ensures Sees(Exec(Served(p, x)), p, v) && CallbackDue(v, p, x)
  {
    hide Exec, Step, Sees, PoolTake, Prepared;
    var a := Prepared(p);
    v := Prepares(p);
    Loops(Exec(a), p, v);
    S.ExecSnoc(a, S.Go(SERVER));
    a := a + [S.Go(SERVER)];
    v := v.(server := Serve(Key(p, In)), inL := [], into := v.into.(tok := Held(SERVER)));
    Serves(Exec(a), p, v, 1);
    S.ExecSnoc(a, S.Go(SERVER));
    a := a + [S.Go(SERVER)];
    v := v.(server := Disp(Key(p, In), 1, true), into := PopToDispatch(v.into));
    RunsRequest(Exec(a), p, v, 1, x);
    S.ExecSnoc(a, Run(SERVER, Choice(x, false, 0)));
    v := v.(server := Get(CbOf(Key(p, In), 1, true, 0, x), p), processed := map[0 := x]);
  }

  lemma Answers(p: Pid, x: Code) returns (v: View)
    ensures Sees(Exec(Answered(p, x)), p, v) && Dropping(v, p, x)
  {
    hide Exec, Step, Sees, PoolTake, Served;
    var a, c := Served(p, x), CbOf(Key(p, In), 1, true, 0, x);
    v := Serving(p, x);
    Detaches(Exec(a), p, v);
    S.ExecSnoc(a, Detach(p));
    a := a + [Detach(p)];
    v := v.(ph := v.ph.(open := true, attached := false, attaching := false, detaching := false));
    NewEntry(v.pool, c, SERVER);
    GetsToo(Exec(a), p, v, c);
    S.ExecSnoc(a, S.Go(SERVER));
    a := a + [S.Go(SERVER)];
    v := v.(server := Ins(c, p, 2), pool := PoolTake(v.pool, 2, c, SERVER));
    Drops(Exec(a), p, v, c, 2);
    S.ExecSnoc(a, S.Go(SERVER));
    v := v.(server := ClrOut(c, p, Some(2), NOTATTACHED));
  }

  /** The outbound queue is empty and the callback entry is about to be given back. */
  predicate Rejected(v: View, p: Pid, x: Code) {
    && v.server == Rej(CbOf(Key(p, In), 1, true, 0, x), p, 2, NOTATTACHED, false)
    && v.calls == [] && v.processed == map[0 := x] && !PEnt(v.pool, 2).noreturn
  }

  lemma Drains(a: seq<Action>, p: Pid, x: Code, v: View) returns (v': View)
    requires Sees(Exec(a), p, v) && Dropping(v, p, x)
    ensures Sees(Exec(a + [S.Go(SERVER)] + [S.Go(SERVER)] + [S.Go(SERVER)]), p, v') && Rejected(v', p, x)
  {
    hide Exec, Step, PoolReturn, Sees, PopToClear, PEnt;
    var c := CbOf(Key(p, In), 1, true, 0, x);
    Clears(Exec(a), p, v, c, 2, 0);
    S.ExecSnoc(a, S.Go(SERVER));
    var a1 := a + [S.Go(SERVER)];
    ClearedChan(v.out);
    var v1 := v.(server := ClrOutRet(c, p, 0, Some(2), NOTATTACHED), out := PopToClear(v.out));
    Frees(Exec(a1), p, v1, c, 2, 0);
    H.ReturnSpares(v.pool, 0, 2);
    S.ExecSnoc(a1, S.Go(SERVER));
    var a2 := a1 + [S.Go(SERVER)];
    var v2 := v1.(server := ClrOut(c, p, Some(2), NOTATTACHED), pool := PoolReturn(v.pool, 0));
    FindsNone(Exec(a2), p, v2, c, 2);
    S.ExecSnoc(a2, S.Go(SERVER));
    v' := v2.(server := Rej(c, p, 2, NOTATTACHED, false));
  }

  /** For every phidget and every answer there is a run in which bridgeInput gives request 0 that answer and, the
    * phidget having been detached meanwhile, its callback is given NOTATTACHED. */
  lemma CallbackLosesAnswer(p: Pid, x: Code)
    ensures var s := Exec(Lost(p, x));
      s.calls == [Call(0, NOTATTACHED, FailedPost)] && s.processed == map[0 := x] && !s.panicked
  {
    hide Exec, Step, PoolReturn, Answered, Sees, PEnt;
    var a, c := Answered(p, x), CbOf(Key(p, In), 1, true, 0, x);
    var w := Answers(p, x);
    var v := Drains(a, p, x, w);
    var a3 := a + [S.Go(SERVER)] + [S.Go(SERVER)] + [S.Go(SERVER)];
    Rejects(Exec(a3), p, v, c, 2);
    S.ExecSnoc(a3, S.Go(SERVER));
    var v4 := v.(server := Done(c, p, 0, NOTATTACHED), pool := PoolReturn(v.pool, 2));
    TellsCaller(Exec(a3 + [S.Go(SERVER)]), p, v4, c);
    S.ExecSnoc(a3 + [S.Go(SERVER)], S.Go(SERVER));
    assert v4.calls + [Call(0, NOTATTACHED, FailedPost)] == [Call(0, NOTATTACHED, FailedPost)];
    Seen(Exec(Lost(p, x)), p, v4.(server := DispEnd(c.k, c.e, c.ret), calls := [Call(0, NOTATTACHED, FailedPost)]));
  }

  lemma Seen(s: State, p: Pid, v: View)
    requires Sees(s, p, v)
    ensures s.calls == v.calls && s.processed == v.processed && !s.panicked
  {
  }

  lemma ClearedChan(c: Chan)
    requires |c.q| == 1
    ensures PopToClear(c).q == [] && PopToClear(c).has == c.has
  {
  }
}
