/** Every entry has exactly one owner: the free list, one queue, one activity, or the waiter it was
  * signalled for.  From this follow the accounting of the pool and the WAITING/NORETURN handshake. */
module DispatchOwner {
  import opened Base
  import opened DispatchModel
  import T = DispatchToken

  function ContHand(c: Cont): set<Eid> { if c.CbOf? then {c.e} else {} }

  function Opt(o: Option<Eid>): set<Eid> { if o.Some? then {o.value} else {} }

  /** The entries an activity owns. */
  function Hands(pc: PC): set<Eid> {
    match pc
    case Get(c, _) => ContHand(c)
    case Ins(c, _, e) => ContHand(c) + {e}
    case AtFlag(c, _, _, _) => ContHand(c)
    case AtRetain(c, _, _, _) => ContHand(c)
    case AtPlace(c, _, _, _) => ContHand(c)
    case AtWake(c, _, _) => ContHand(c)
    case ClrOut(c, _, pend, _) => ContHand(c) + Opt(pend)
    case ClrOutRet(c, _, x, pend, _) => ContHand(c) + Opt(pend) + {x}
    case Rej(c, _, e, _, _) => ContHand(c) + {e}
    case Done(c, _, _, _) => ContHand(c)
    case WaitDone(_, e) => {e}
    case ClrIn(_, x) => {x}
    case ClrRet(_, x, _) => {x}
    case Disp(_, e, _) => {e}
    case DispSig(_, e, _, _) => {e}
    case DispEnd(_, e, ret) => if ret then {e} else {}
    case _ => {}
  }

  function ContSync(c: Cont, e: Eid): Option<Eid> { if c.Sync? then Some(e) else None }

  /** The entry a synchronous caller has queued and has not taken back yet. */
  function SyncOf(pc: PC): Option<Eid> {
    match pc
    case AtFlag(c, _, _, e) => ContSync(c, e)
    case AtRetain(c, _, _, e) => ContSync(c, e)
    case AtPlace(c, _, _, e) => ContSync(c, e)
    case AtWake(c, _, e) => ContSync(c, e)
    case Done(c, _, e, code) => if code == OK then ContSync(c, e) else None
    case Wait(_, e) => Some(e)
    case _ => None
  }

  /** The request such a caller is waiting for. */
  function SyncReq(pc: PC): Rid {
    match pc
    case AtFlag(c, _, _, _) => if c.Sync? then c.r else 0
    case AtRetain(c, _, _, _) => if c.Sync? then c.r else 0
    case AtPlace(c, _, _, _) => if c.Sync? then c.r else 0
    case AtWake(c, _, _) => if c.Sync? then c.r else 0
    case Done(c, _, _, _) => if c.Sync? then c.r else 0
    case Wait(r, _) => r
    case _ => 0
  }

  // ----- what an entry looks like, by where it is -----

  predicate SyncShape(ent: Entry) { ent.typ.UserReq? && !ent.cb && ent.noreturn }

  predicate QueuedOk(d: Dir, ent: Entry) {
    && !ent.typ.Nothing? && DirOf(ent) == d
    && (ent.noreturn <==> ent.typ.UserReq? && !ent.cb) && (ent.noreturn ==> ent.waiting)
    && (ent.typ.UserReq? ==> d == In) && (ent.typ.UserReqCallback? ==> ent.cb && d == Out)
    && (ent.cb ==> ent.typ.UserReq? || ent.typ.UserReqCallback?)
  }

  predicate FilledOk(c: Cont, t: Tid, ent: Entry) {
    ent.taker == t && QueuedOk(DirOf(ent), ent) &&
    match c
    case Post(typ) => ent.typ == typ && !typ.UserReq? && !typ.UserReqCallback?
    case Sync(r) => SyncShape(ent) && ent.req == r
    case Async(r) => ent.typ.UserReq? && ent.cb && ent.req == r
    case CbOf(_, _, _, r, _) => ent.typ.UserReqCallback? && ent.req == r
  }

  predicate ContOk(c: Cont, e: Eid, ent: Entry) {
    c.CbOf? && e == c.e ==> ent.typ.UserReq? && ent.cb && !ent.noreturn && c.ret && ent.req == c.r
  }

  predicate HandOk(pc: PC, t: Tid, e: Eid, ent: Entry) {
    match pc
    case Get(c, _) => ContOk(c, e, ent)
    case Ins(c, _, e0) => e0 !in ContHand(c) && if e == e0 then FilledOk(c, t, ent) else ContOk(c, e, ent)
    case AtFlag(c, _, _, _) => ContOk(c, e, ent)
    case AtRetain(c, _, _, _) => ContOk(c, e, ent)
    case AtPlace(c, _, _, _) => ContOk(c, e, ent)
    case AtWake(c, _, _) => ContOk(c, e, ent)
    case ClrOut(c, _, pend, _) =>
      Opt(pend) !! ContHand(c) && if pend == Some(e) then FilledOk(c, t, ent) && !ent.noreturn else ContOk(c, e, ent)
    case ClrOutRet(c, _, x, pend, _) =>
      Opt(pend) !! ContHand(c) && x !in ContHand(c) && x !in Opt(pend) &&
      if e == x then !ent.noreturn && !ent.typ.Nothing?
      else if pend == Some(e) then FilledOk(c, t, ent) && !ent.noreturn else ContOk(c, e, ent)
    case Rej(c, _, e0, _, _) =>
      e0 !in ContHand(c) &&
      if e == e0 then FilledOk(c, t, ent) || (c.Post? && ent.typ.Nothing? && !ent.noreturn && !ent.inbound)
      else ContOk(c, e, ent)
    case Done(c, _, _, _) => ContOk(c, e, ent)
    case WaitDone(r, _) => SyncShape(ent) && !ent.waiting && ent.taker == t && ent.req == r
    case ClrIn(_, _) => QueuedOk(In, ent) && (ent.noreturn ==> ent.taker != t)
    case ClrRet(_, _, _) => !ent.noreturn && !ent.typ.Nothing?
    case Disp(k, _, ret) => QueuedOk(k.d, ent) && (ret <==> !ent.noreturn) && (ent.noreturn ==> ent.taker != t)
    case DispSig(k, _, ret, _) => QueuedOk(k.d, ent) && ent.noreturn && !ret && ent.taker != t
    case DispEnd(_, _, _) => !ent.noreturn && !ent.typ.Nothing?
    case _ => true
  }

  /** Only real message types are ever posted, and a rejection carries an error. */
  predicate PostOk(pc: PC) {
    && (pc.Get? && pc.c.Post? ==> !pc.c.typ.Nothing? && !pc.c.typ.UserReq? && !pc.c.typ.UserReqCallback?)
    && (pc.ClrOut? || pc.ClrOutRet? || pc.Rej? ==> pc.code != OK)
  }

  // ----- the invariant, in parts -----

  ghost predicate PoolOk(p: Pool) {
    && Distinct(p.free) && p.count == |p.ents| && 0 <= p.count <= ENTRY_MAX
    && (p.free != [] ==> p.count < ENTRY_DESIRED)
    && (forall e :: e in p.ents ==> e < p.next)
    && (forall e :: e in p.free ==> e in p.ents && p.ents[e].typ.Nothing? && !p.ents[e].inbound && !p.ents[e].noreturn)
  }

  ghost predicate FreeLoc(s: State) {
    && (forall e :: e in s.pool.ents <==> Where(s, e) != Nowhere)
    && (forall e :: e in s.pool.free <==> Where(s, e) == Free)
  }

  ghost predicate QueueLoc(s: State) {
    forall k :: QueueOk(s, k)
  }

  ghost predicate QueueOk(s: State, k: Key) {
    && Distinct(Ch(s, k).q) && Ch(s, k).count == |Ch(s, k).q| <= HardMax(k.d) + 1
    && (forall e :: e in Ch(s, k).q ==> Where(s, e) == Queued(k))
    && (forall e :: Where(s, e) == Queued(k) ==> e in Ch(s, k).q)
  }

  ghost predicate HandLoc(s: State) {
    && (forall t, e {:trigger e in Hands(Pc(s, t))} :: e in Hands(Pc(s, t)) ==> Where(s, e) == Hand(t))
    && (forall e :: Where(s, e).Hand? ==> e in Hands(Pc(s, Where(s, e).t)))
  }

  ghost predicate HandShape(s: State) {
    && (forall t, e {:trigger e in Hands(Pc(s, t))} :: e in Hands(Pc(s, t)) ==> HandOk(Pc(s, t), t, e, Ent(s, e)))
    && (forall t :: PostOk(Pc(s, t)))
  }

  ghost predicate QueueShape(s: State) {
    forall e :: Where(s, e).Queued? ==> QueuedOk(Where(s, e).k.d, Ent(s, e))
  }

  /** The waiter t and its entry e agree: until WAITING is cleared somebody else has e, then e is t's. */
  predicate SyncAt(s: State, t: Tid, e: Eid) {
    && SyncShape(Ent(s, e)) && Ent(s, e).taker == t && Ent(s, e).req == SyncReq(Pc(s, t))
    && (if Ent(s, e).waiting then Where(s, e).Queued? || (Where(s, e).Hand? && Where(s, e).t != t)
        else Where(s, e) == Claimed(t))
  }

  /** An entry that somebody must be waiting for. */
  predicate Awaited(s: State, e: Eid) {
    Ent(s, e).noreturn && (Where(s, e).Queued? || (Where(s, e).Hand? && Where(s, e).t != Ent(s, e).taker))
  }

  ghost predicate SyncLoc(s: State) {
    && (forall t :: SyncOf(Pc(s, t)).Some? ==> SyncAt(s, t, SyncOf(Pc(s, t)).value))
    && (forall e :: Where(s, e).Claimed? ==> SyncOf(Pc(s, Where(s, e).t)) == Some(e))
    && (forall e :: Awaited(s, e) ==> SyncOf(Pc(s, Ent(s, e).taker)) == Some(e))
  }

  ghost predicate OwnerInv(s: State) {
    PoolOk(s.pool) && FreeLoc(s) && QueueLoc(s) && HandLoc(s) && HandShape(s) && QueueShape(s) && SyncLoc(s)
  }

  // ----- frames: activity t changes entry e only -----

  /** Nothing but activity t, entry e and the queue of k changes. */
  ghost predicate Only(s: State, s': State, t: Tid, e: Eid) {
    && T.Alone(s, s', t)
    && (forall x :: x != e ==> Where(s', x) == Where(s, x) && Ent(s', x) == Ent(s, x))
  }

  lemma HandMove(s: State, s': State, t: Tid, e: Eid)
    requires HandLoc(s) && Only(s, s', t, e)
    requires Hands(Pc(s', t)) - {e} == Hands(Pc(s, t)) - {e}
    requires e in Hands(Pc(s', t)) <==> Where(s', e) == Hand(t)
    requires Where(s, e).Hand? ==> Where(s, e).t == t
    requires Where(s', e).Hand? ==> Where(s', e).t == t
    ensures HandLoc(s')
  {
    forall u, x | x in Hands(Pc(s', u)) ensures Where(s', x) == Hand(u) {
      if u == t && x != e {
        assert x in Hands(Pc(s', t)) - {e};
      }
    }
    forall x | Where(s', x).Hand? ensures x in Hands(Pc(s', Where(s', x).t)) {
      if x != e && Where(s', x).t == t {
        assert x in Hands(Pc(s, t)) - {e};
      }
    }
  }

  lemma ShapeMove(s: State, s': State, t: Tid, e: Eid)
    requires HandLoc(s) && HandShape(s) && Only(s, s', t, e)
    requires Where(s, e).Hand? ==> Where(s, e).t == t
    requires forall x :: x in Hands(Pc(s', t)) ==> HandOk(Pc(s', t), t, x, Ent(s', x))
    requires PostOk(Pc(s', t))
    ensures HandShape(s')
  {
  }

  lemma QueueShapeMove(s: State, s': State, t: Tid, e: Eid)
    requires QueueShape(s) && Only(s, s', t, e)
    requires Where(s', e).Queued? ==> QueuedOk(Where(s', e).k.d, Ent(s', e))
    ensures QueueShape(s')
  {
  }

  predicate AtMost(o: Option<Eid>, e: Eid) { o.Some? ==> o.value == e }

  lemma SyncMove(s: State, s': State, t: Tid, e: Eid)
    requires SyncLoc(s) && Only(s, s', t, e)
    requires SyncOf(Pc(s', t)) == SyncOf(Pc(s, t)) || (AtMost(SyncOf(Pc(s, t)), e) && AtMost(SyncOf(Pc(s', t)), e))
    requires SyncOf(Pc(s', t)).Some? && SyncOf(Pc(s', t)) == SyncOf(Pc(s, t)) ==>
      SyncReq(Pc(s', t)) == SyncReq(Pc(s, t))
    requires forall u :: SyncOf(Pc(s', u)) == Some(e) ==> SyncAt(s', u, e)
    requires Where(s', e).Claimed? ==> SyncOf(Pc(s', Where(s', e).t)) == Some(e)
    requires Awaited(s', e) ==> SyncOf(Pc(s', Ent(s', e).taker)) == Some(e)
    ensures SyncLoc(s')
  {
    forall u | SyncOf(Pc(s', u)).Some? ensures SyncAt(s', u, SyncOf(Pc(s', u)).value) {
      var x := SyncOf(Pc(s', u)).value;
      if x != e {
        assert SyncOf(Pc(s, u)) == Some(x);
      }
    }
    forall x | Where(s', x).Claimed? ensures SyncOf(Pc(s', Where(s', x).t)) == Some(x) {
      if x != e {
        assert SyncOf(Pc(s, Where(s, x).t)) == Some(x);
      }
    }
    forall x | Awaited(s', x) ensures SyncOf(Pc(s', Ent(s', x).taker)) == Some(x) {
      if x != e {
        assert Awaited(s, x);
      }
    }
  }

  /** No queue changes, and e is in none before or after. */
  lemma QueueFrame(s: State, s': State, t: Tid, e: Eid)
    requires QueueLoc(s) && Only(s, s', t, e)
    requires forall k :: Ch(s', k).q == Ch(s, k).q && Ch(s', k).count == Ch(s, k).count
    requires !Where(s, e).Queued? && !Where(s', e).Queued?
    ensures QueueLoc(s')
  {
    forall k ensures QueueOk(s', k) {
      assert QueueOk(s, k);
    }
  }

  lemma QueueAppend(s: State, s': State, t: Tid, e: Eid, k: Key)
    requires QueueLoc(s) && Only(s, s', t, e)
    requires forall j :: j != k ==> Ch(s', j) == Ch(s, j)
    requires Ch(s', k).q == Ch(s, k).q + [e] && Ch(s', k).count == Ch(s, k).count + 1 && Ch(s, k).count <= HardMax(k.d)
    requires !Where(s, e).Queued? && Where(s', e) == Queued(k)
    ensures QueueLoc(s')
  {
    forall j ensures QueueOk(s', j) {
      assert QueueOk(s, j);
    }
  }

  lemma TailDistinct<T>(q: seq<T>)
    requires Distinct(q) && q != []
    ensures Distinct(q[1..]) && q[0] !in q[1..]
  {
    forall i | 0 <= i < |q| - 1 ensures q[1..][i] != q[0] {
      assert q[1..][i] == q[i + 1];
    }
  }

  lemma QueuePop(s: State, s': State, t: Tid, e: Eid, k: Key)
    requires QueueLoc(s) && Only(s, s', t, e)
    requires forall j :: j != k ==> Ch(s', j) == Ch(s, j)
    requires Ch(s, k).q != [] && Ch(s, k).q[0] == e && Ch(s', k).q == Ch(s, k).q[1..]
    requires Ch(s', k).count == Ch(s, k).count - 1
    requires !Where(s', e).Queued?
    ensures QueueLoc(s')
  {
    var q, q' := Ch(s, k).q, Ch(s', k).q;
    assert QueueOk(s, k) && q == [e] + q' && Where(s, e) == Queued(k);
    forall j | j != k ensures QueueOk(s', j) {
      assert QueueOk(s, j);
    }
    assert Distinct(q') && e !in q' by { TailDistinct(q); }
    assert forall x :: x in q <==> x == e || x in q';
  }

  lemma FreeFrame(s: State, s': State, t: Tid, e: Eid)
    requires FreeLoc(s) && Only(s, s', t, e) && s'.pool.free == s.pool.free && s'.pool.ents.Keys == s.pool.ents.Keys
    requires Where(s, e) !in {Nowhere, Free} && Where(s', e) !in {Nowhere, Free}
    ensures FreeLoc(s')
  {
  }

  lemma PoolSetOk(p: Pool, e: Eid, ent: Entry)
    requires PoolOk(p) && e in p.ents && e !in p.free
    ensures PoolOk(PoolSet(p, e, ent))
  {
    assert PoolSet(p, e, ent).ents.Keys == p.ents.Keys;
  }

  lemma PoolGetOk(p: Pool)
    requires PoolOk(p) && !PoolEmpty(p)
    ensures PoolOk(PoolGet(p)) && PoolPick(p) in PoolGet(p).ents && PoolPick(p) !in PoolGet(p).free
    ensures forall x :: x != PoolPick(p) ==>
      PEnt(PoolGet(p), x) == PEnt(p, x) && (x in PoolGet(p).ents <==> x in p.ents)
                                             && (x in PoolGet(p).free <==> x in p.free)
    ensures PoolPick(p) !in p.ents || PoolPick(p) in p.free
    ensures var ent := PEnt(PoolGet(p), PoolPick(p));
      ent.typ.Nothing? && !ent.inbound && !ent.noreturn && ent.waiting && !ent.onlist
    ensures if p.free == [] then PoolGet(p).count == p.count + 1 && PoolGet(p).free == []
            else PoolPick(p) == p.free[0] && PoolGet(p).count == p.count && PoolGet(p).free == p.free[1..]
  {
    if p.free == [] {
      assert p.next !in p.ents;
      assert PoolGet(p).ents.Keys == p.ents.Keys + {p.next};
    } else {
      assert p.free == [p.free[0]] + p.free[1..];
      assert p.free[0] in p.free;
      assert PoolGet(p).ents.Keys == p.ents.Keys;
    }
  }

  lemma PoolGetWaits(p: Pool)
    requires PoolOk(p)
    ensures !PoolEmpty(p) ==> PoolOk(PoolGet(p)) && PEnt(PoolGet(p), PoolPick(p)).waiting
    ensures !PoolEmpty(p) ==> PoolPick(p) in PoolGet(p).ents && PoolPick(p) !in PoolGet(p).free
    ensures forall e :: e in p.free ==> e in p.ents
  {
    if !PoolEmpty(p) {
      PoolGetOk(p);
    }
  }

  lemma PoolReturnOk(p: Pool, e: Eid)
    requires PoolOk(p) && e in p.ents && e !in p.free && !PEnt(p, e).noreturn
    requires PEnt(p, e).typ.Nothing? ==> !PEnt(p, e).inbound
    ensures PoolOk(PoolReturn(p, e))
    ensures forall x :: x != e ==>
      PEnt(PoolReturn(p, e), x) == PEnt(p, x) && (x in PoolReturn(p, e).ents <==> x in p.ents)
                                   && (x in PoolReturn(p, e).free <==> x in p.free)
    ensures if Returned(p) == Free then e in PoolReturn(p, e).ents && e in PoolReturn(p, e).free
            else e !in PoolReturn(p, e).ents && e !in PoolReturn(p, e).free
    ensures if p.count >= 256 then PoolReturn(p, e).free == p.free && PoolReturn(p, e).count == p.count - 1
            else PoolReturn(p, e).free == [e] + p.free && PoolReturn(p, e).count == p.count
    ensures p.count < 256 ==>
      var ent := PEnt(PoolReturn(p, e), e);
      && ent.typ.Nothing? && !ent.inbound && !ent.noreturn && ent.onlist
      && (!PEnt(p, e).typ.Nothing? ==> !ent.waiting)
  {
    if p.count >= ENTRY_DESIRED {
      assert PoolReturn(p, e).ents.Keys == p.ents.Keys - {e};
    } else {
      assert PoolReturn(p, e).ents.Keys == p.ents.Keys;
    }
  }

  // ----- steps that move no entry -----

  /** Only activity t moves on, and neither its entries nor anybody's whereabouts change. */
  ghost predicate Still(s: State, s': State, t: Tid) {
    && T.Alone(s, s', t) && s'.pool == s.pool && s'.loc == s.loc
    && (forall k :: Ch(s', k).q == Ch(s, k).q && Ch(s', k).count == Ch(s, k).count)
    && Hands(Pc(s', t)) == Hands(Pc(s, t))
    && SyncOf(Pc(s', t)) == SyncOf(Pc(s, t))
    && (SyncOf(Pc(s', t)).Some? ==> SyncReq(Pc(s', t)) == SyncReq(Pc(s, t)))
    && (forall x :: x in Hands(Pc(s', t)) ==> HandOk(Pc(s', t), t, x, Ent(s, x)))
    && PostOk(Pc(s', t))
  }

  lemma StillQueues(s: State, s': State, t: Tid)
    requires QueueLoc(s) && Still(s, s', t)
    ensures QueueLoc(s')
  {
    forall k ensures QueueOk(s', k) {
      assert QueueOk(s, k);
    }
  }

  lemma StillHands(s: State, s': State, t: Tid)
    requires HandLoc(s) && HandShape(s) && QueueShape(s) && Still(s, s', t)
    ensures HandLoc(s') && HandShape(s') && QueueShape(s')
  {
    assert forall x :: Where(s', x) == Where(s, x);
    assert forall x :: Ent(s', x) == Ent(s, x);
  }

  lemma StillSync(s: State, s': State, t: Tid)
    requires SyncLoc(s) && Still(s, s', t)
    ensures SyncLoc(s')
  {
    assert forall x :: Where(s', x) == Where(s, x);
    assert forall x :: Ent(s', x) == Ent(s, x);
    assert forall u :: SyncOf(Pc(s', u)) == SyncOf(Pc(s, u));
    forall u | SyncOf(Pc(s', u)).Some? ensures SyncAt(s', u, SyncOf(Pc(s', u)).value) {
      assert SyncAt(s, u, SyncOf(Pc(s, u)).value);
    }
    forall x | Awaited(s', x) ensures SyncOf(Pc(s', Ent(s', x).taker)) == Some(x) {
      assert Awaited(s, x);
    }
  }

  lemma StillStep(s: State, s': State, t: Tid)
    requires OwnerInv(s) && Still(s, s', t)
    ensures OwnerInv(s')
  {
    hide PoolOk, QueueLoc, HandLoc, HandShape, QueueShape, SyncLoc;
    StillQueues(s, s', t);
    StillHands(s, s', t);
    StillSync(s, s', t);
    assert forall x :: Where(s', x) == Where(s, x);
  }
}
