/** Every step keeps the tickets, the record of what ran and the answers of synchronous callers. */
module DispatchTicketSteps {
  import opened Base
  import opened DispatchModel
  import opened DispatchOwner
  import opened DispatchTicket
  import O = DispatchOwnerSteps
  import T = DispatchToken

  // ----- steps that do not touch any request -----

  /** Activity t moves on without touching an entry. */
  lemma CalmStill(s: State, s': State, t: Tid)
    requires OwnerInv(s) && RequestInv(s) && SameRequests(s, s') && T.Alone(s, s', t)
    requires s'.pool == s.pool && s'.loc == s.loc
    requires forall x :: !CarrierHand(Pc(s', t), x)
    requires FewerFlights(Pc(s, t), Pc(s', t))
    requires SyncOf(Pc(s', t)).Some? ==>
      SyncOf(Pc(s, t)) == SyncOf(Pc(s', t)) && SyncReq(Pc(s, t)) == SyncReq(Pc(s', t))
    ensures RequestInv(s')
  {
    hide OwnerInv, RequestInv, FewerFlights, SyncOf, SyncReq, CarrierHand, Hands;
    NextUnknown(s);
    assert forall x :: Where(s', x) == Where(s, x) && Ent(s', x) == Ent(s, x);
    CalmMove(s, s', t, s.pool.next);
  }

  lemma NextUnknown(s: State)
    requires OwnerInv(s)
    ensures Where(s, s.pool.next) == Nowhere
    ensures forall u :: SyncOf(Pc(s, u)) != Some(s.pool.next) && s.pool.next !in Hands(Pc(s, u))
  {
    O.FreeKnown(s, s.pool.next);
  }

  lemma CalmPcs(s: State, s': State, t: Tid, pc: PC)
    requires OwnerInv(s) && RequestInv(s) && SameRequests(s, s') && s'.pc == s.pc[t := pc]
    requires s'.pool == s.pool && s'.loc == s.loc
    requires !pc.Ins? && !pc.Disp? && !pc.ClrIn? && FewerFlights(Pc(s, t), pc)
    requires SyncOf(pc).Some? ==> SyncOf(Pc(s, t)) == SyncOf(pc) && SyncReq(Pc(s, t)) == SyncReq(pc)
    ensures RequestInv(s')
  {
    hide OwnerInv, RequestInv, FewerFlights, SyncOf, SyncReq;
    CalmStill(s, s', t);
  }

  lemma RequestFrame(s: State, s': State)
    requires RequestInv(s) && SameRequests(s, s') && s'.pool == s.pool && s'.loc == s.loc && s'.pc == s.pc
    ensures RequestInv(s')
  {
    hide TicketInv, RunInv, AnswerInv, CallbackInv;
    TicketFrame(s, s');
    RunFrame(s, s');
    AnswerFrame(s, s');
    CallbackFrame(s, s');
  }

  lemma TicketFrame(s: State, s': State)
    requires TicketInv(s) && SameRequests(s, s') && s'.pool == s.pool && s'.loc == s.loc && s'.pc == s.pc
    ensures TicketInv(s')
  {
    hide Flight, CarrierHand, Ticketed;
    assert forall t :: Pc(s', t) == Pc(s, t);
    assert forall e :: Where(s', e) == Where(s, e) && Ent(s', e) == Ent(s, e);
    assert forall r :: TicketOf(s', r) == TicketOf(s, r);
    assert forall e :: Carries(s', e) ==> Carries(s, e);
  }

  lemma RunFrame(s: State, s': State)
    requires RunInv(s) && SameRequests(s, s') && s'.pool == s.pool && s'.loc == s.loc && s'.pc == s.pc
    ensures RunInv(s')
  {
    hide CarrierHand, Ticketed, Starting;
    assert forall t :: Pc(s', t) == Pc(s, t);
    assert forall e :: Where(s', e) == Where(s, e) && Ent(s', e) == Ent(s, e);
    assert forall r :: TicketOf(s', r) == TicketOf(s, r);
    assert forall e :: Carries(s', e) ==> Carries(s, e);
  }

  lemma AnswerFrame(s: State, s': State)
    requires AnswerInv(s) && SameRequests(s, s') && s'.pool == s.pool && s'.pc == s.pc
    ensures AnswerInv(s')
  {
    hide SyncOf, SyncReq;
    assert forall t :: Pc(s', t) == Pc(s, t);
    assert forall e :: Ent(s', e) == Ent(s, e);
    assert forall r, x :: Answer(s, r, x) ==> Answer(s', r, x);
  }

  lemma CallbackFrame(s: State, s': State)
    requires CallbackInv(s) && SameRequests(s, s') && s'.pool == s.pool && s'.loc == s.loc && s'.pc == s.pc
    ensures CallbackInv(s')
  {
    assert forall t :: Pc(s', t) == Pc(s, t);
    assert forall e :: Where(s', e) == Where(s, e) && Ent(s', e) == Ent(s, e);
    assert forall e :: Carries(s', e) ==> Carries(s, e);
    forall i | 0 <= i < |s'.calls| ensures CallOk(s', s'.calls[i]) {
      assert CallOk(s, s.calls[i]);
    }
    forall t ensures PostingOk(s', Pc(s', t)) {
      assert PostingOk(s, Pc(s, t));
    }
  }

  lemma PostingKnown(s: State, t: Tid)
    requires CallbackInv(s)
    ensures PostingOk(s, Pc(s, t)) && KindOk(s, Pc(s, t))
  {
  }

  lemma KindKnown(s: State, e: Eid)
    requires CallbackInv(s) && Carries(s, e)
    ensures EntryKind(s, e)
  {
  }

  lemma CallbackKnown(s: State, e: Eid)
    requires CallbackInv(s) && Carries(s, e) && Ent(s, e).typ.UserReqCallback?
    ensures CallbackOk(s, e)
  {
  }

  lemma GiveBackCalm(s: State, t: Tid, e: Eid, pc: PC)
    requires OwnerInv(s) && RequestInv(s) && e in Hands(Pc(s, t)) && !Ent(s, e).noreturn
    requires !pc.Ins? && !pc.Disp? && !pc.ClrIn? && FewerFlights(Pc(s, t), pc) && SyncOf(pc) == None
    ensures RequestInv(GiveBack(s, t, e, pc, false, false))
  {
    hide OwnerInv, RequestInv, FewerFlights, SyncReq, SyncOf, Hands, HandOk;
    var s' := GiveBack(s, t, e, pc, false, false);
    O.HandsKnown(s, t, e);
    HandKnown(s, t, e);
    assert Only(s, s', t, e);
    CalmMove(s, s', t, e);
  }

  /** An entry in the hands of t is in nobody else's, and only its own entry's waiter waits for it. */
  lemma HandKnown(s: State, t: Tid, e: Eid)
    requires OwnerInv(s) && e in Hands(Pc(s, t))
    ensures forall u :: u != t ==> e !in Hands(Pc(s, u))
    ensures forall u :: SyncOf(Pc(s, u)) == Some(e) ==> SyncAt(s, u, e)
  {
    forall u | SyncOf(Pc(s, u)) == Some(e) ensures SyncAt(s, u, e) {
      O.SyncAtKnown(s, u);
    }
  }

  lemma ReturningCalm(s: State, t: Tid, e: Eid, pc: PC)
    requires OwnerInv(s) && RequestInv(s) && e in Hands(Pc(s, t))
    requires !pc.Ins? && !pc.Disp? && !pc.ClrIn? && FewerFlights(Pc(s, t), pc) && SyncOf(pc) == None
    ensures RequestInv(Returning(s, t, e, pc))
  {
    hide OwnerInv, RequestInv, FewerFlights, SyncOf, Hands, Ent, PoolReturn;
    if Ent(s, e).noreturn {
      RequestFrame(s, s.(panicked := true));
    } else if !s.dlock.Some? {
      GiveBackCalm(s, t, e, pc);
    }
  }

  // ----- insertDispatchEntry -----

  lemma TakeEmptyPosts(s: State, t: Tid, c: Cont, q: Pid, e: Eid, surrender: bool)
    requires OwnerInv(s) && RequestInv(s) && Pc(s, t) == Get(c, q)
    ensures CallbackInv(Take(s, t, c, q, e, false, true, surrender))
  {
    hide OwnerInv, TicketInv, RunInv, AnswerInv, CallbackInv;
    var s', x := Take(s, t, c, q, e, false, true, surrender), s.pool.next;
    NextUnknown(s);
    FlightKnown(s, t);
    PostingKnown(s, t);
    assert forall y :: Where(s', y) == Where(s, y) && Ent(s', y) == Ent(s, y);
    assert Only(s, s', t, x) && Carried(s, s', t, x);
    CallbackMove(s, s', t, x, if c.Post? then 0 else c.r);
  }

  lemma TakeEmpty(s: State, t: Tid, c: Cont, q: Pid, e: Eid, surrender: bool)
    requires OwnerInv(s) && RequestInv(s) && Pc(s, t) == Get(c, q)
    ensures RequestInv(Take(s, t, c, q, e, false, true, surrender))
  {
    hide OwnerInv, TicketInv, RunInv, AnswerInv, CallbackInv;
    var s', x := Take(s, t, c, q, e, false, true, surrender), s.pool.next;
    NextUnknown(s);
    FlightKnown(s, t);
    assert forall y :: Where(s', y) == Where(s, y) && Ent(s', y) == Ent(s, y);
    assert Only(s, s', t, x) && Carried(s, s', t, x);
    TicketMove(s, s', t, x, if c.Post? then 0 else c.r);
    RunMove(s, s', t, x, if c.Post? then 0 else c.r);
    AnswerMove(s, s', t, x);
    TakeEmptyPosts(s, t, c, q, e, surrender);
  }

  lemma FlightKnown(s: State, t: Tid)
    requires TicketInv(s)
    ensures Flight(Pc(s, t)).Some? ==> TicketOf(s, Flight(Pc(s, t)).value) == InFlight(t)
  {
  }

  lemma StartKnown(s: State, t: Tid)
    requires RunInv(s)
    ensures Starting(Pc(s, t)) ==> Pc(s, t).c.r !in s.processed
  {
  }

  lemma CarrierKnown(s: State, e: Eid)
    requires TicketInv(s) && RunInv(s) && Carries(s, e)
    ensures TicketOf(s, Ent(s, e).req) == Armed(e)
    ensures Ent(s, e).typ.UserReq? ==> Ent(s, e).req !in s.processed
  {
  }

  lemma TakeSurrender(s: State, t: Tid, c: Cont, q: Pid)
    requires OwnerInv(s) && RequestInv(s) && Pc(s, t) == Get(c, q) && !PoolEmpty(s.pool) && c.Post?
    ensures RequestInv(Take(s, t, c, q, PoolPick(s.pool), false, false, true))
  {
    hide OwnerInv, RequestInv, PoolGet, PoolPick, PoolEmpty;
    var s', e := Take(s, t, c, q, PoolPick(s.pool), false, false, true), PoolPick(s.pool);
    O.TakeFacts(s);
    O.FreeKnown(s, e);
    assert Only(s, s', t, e);
    CalmMove(s, s', t, e);
  }

  lemma TakeGotCallback(s: State, t: Tid, c: Cont, q: Pid)
    requires OwnerInv(s) && RequestInv(s) && Pc(s, t) == Get(c, q) && !PoolEmpty(s.pool)
    ensures CallbackInv(Take(s, t, c, q, PoolPick(s.pool), false, false, false))
  {
    hide OwnerInv, TicketInv, RunInv, AnswerInv, CallbackInv, PoolGet, PoolPick, PoolEmpty;
    var s', e := Take(s, t, c, q, PoolPick(s.pool), false, false, false), PoolPick(s.pool);
    O.TakeFacts(s);
    O.FreeKnown(s, e);
    O.Known(s, t);
    PostingKnown(s, t);
    assert Only(s, s', t, e) && Carried(s, s', t, e);
    CallbackMove(s, s', t, e, 0);
  }

  lemma TakeGot(s: State, t: Tid, c: Cont, q: Pid)
    requires OwnerInv(s) && RequestInv(s) && Pc(s, t) == Get(c, q) && !PoolEmpty(s.pool)
    ensures RequestInv(Take(s, t, c, q, PoolPick(s.pool), false, false, false))
  {
    hide OwnerInv, TicketInv, RunInv, AnswerInv, CallbackInv, PoolGet, PoolPick, PoolEmpty;
    var s', e := Take(s, t, c, q, PoolPick(s.pool), false, false, false), PoolPick(s.pool);
    var r := if c.Post? then 0 else c.r;
    O.TakeFacts(s);
    O.FreeKnown(s, e);
    O.Known(s, t);
    FlightKnown(s, t);
    StartKnown(s, t);
    assert Only(s, s', t, e) && Carried(s, s', t, e);
    TicketMove(s, s', t, e, r);
    RunMove(s, s', t, e, r);
    AnswerMove(s, s', t, e);
    TakeGotCallback(s, t, c, q);
  }

  lemma TakeStep(s: State, t: Tid, c: Cont, q: Pid, ch: Choice)
    requires OwnerInv(s) && RequestInv(s) && Pc(s, t) == Get(c, q)
    ensures RequestInv(StepGet(s, t, c, q, ch))
  {
    hide OwnerInv, RequestInv, PoolEmpty, PoolPick, PoolTake, PoolGet;
    if !s.dlock.Some? {
      if PoolEmpty(s.pool) {
        TakeEmpty(s, t, c, q, PoolPick(s.pool), c.Post? && ch.yes);
      } else if c.Post? && ch.yes {
        TakeSurrender(s, t, c, q);
      } else {
        TakeGot(s, t, c, q);
      }
    }
  }

  lemma FilledKnown(s: State, t: Tid, c: Cont, q: Pid, e: Eid)
    requires OwnerInv(s) && RequestInv(s) && Pc(s, t) == Ins(c, q, e)
    ensures Where(s, e) == Hand(t) && (!c.Post? ==> TicketOf(s, c.r) == Armed(e))
  {
    hide OwnerInv;
    O.HandsKnown(s, t, e);
  }

  /** The entry stays in the hands of t but is no longer going to be queued. */
  lemma DisarmedPosts(s: State, s': State, t: Tid, c: Cont, q: Pid, e: Eid, pc: PC)
    requires OwnerInv(s) && RequestInv(s) && Pc(s, t) == Ins(c, q, e)
    requires (pc.ClrOut? || pc.Rej?) && pc.c == c && pc.code != OK
    requires s' == s.(ch := s'.ch, tickets := Disarming(s, t, c), posts := Posting(s, c, pc.code), pc := s.pc[t := pc])
    ensures CallbackInv(s')
  {
    hide OwnerInv, TicketInv, RunInv, AnswerInv, CallbackInv, HandOk, Carries;
    FilledKnown(s, t, c, q, e);
    CallbackFilled(s, t, c, q, e);
    DisarmedCarries(s, s', t, c, q, e, pc);
    CallbackMove(s, s', t, e, if c.Post? then 0 else c.r);
  }

  /** The entry of a callback being posted has the request's result. */
  lemma CallbackFilled(s: State, t: Tid, c: Cont, q: Pid, e: Eid)
    requires OwnerInv(s) && RequestInv(s) && Pc(s, t) == Ins(c, q, e)
    ensures c.CbOf? ==> c.r in s.processed && s.processed[c.r] == Ent(s, e).res
    ensures FilledOk(c, t, Ent(s, e)) && (!c.Post? ==> EntryKind(s, e))
  {
    hide OwnerInv, TicketInv, RunInv, AnswerInv, CallbackInv;
    O.HandsKnown(s, t, e);
    if c.CbOf? {
      CallbackKnown(s, e);
    }
    if !c.Post? {
      KindKnown(s, e);
    }
  }

  lemma Disarmed(s: State, s': State, t: Tid, c: Cont, q: Pid, e: Eid, pc: PC)
    requires OwnerInv(s) && RequestInv(s) && Pc(s, t) == Ins(c, q, e)
    requires (pc.ClrOut? || pc.Rej?) && pc.c == c && pc.code != OK
    requires s' == s.(ch := s'.ch, tickets := Disarming(s, t, c), posts := Posting(s, c, pc.code), pc := s.pc[t := pc])
    ensures RequestInv(s')
  {
    hide OwnerInv, TicketInv, RunInv, AnswerInv, CallbackInv, HandOk, Carries;
    var r := if c.Post? then 0 else c.r;
    FilledKnown(s, t, c, q, e);
    HandKnown(s, t, e);
    DisarmedCarries(s, s', t, c, q, e, pc);
    TicketMove(s, s', t, e, r);
    RunMove(s, s', t, e, r);
    AnswerMove(s, s', t, e);
    DisarmedPosts(s, s', t, c, q, e, pc);
  }

  lemma DisarmedCarries(s: State, s': State, t: Tid, c: Cont, q: Pid, e: Eid, pc: PC)
    requires Pc(s, t) == Ins(c, q, e) && Where(s, e) == Hand(t)
    requires pc.ClrOut? || pc.Rej?
    requires s' == s.(ch := s'.ch, tickets := Disarming(s, t, c), posts := Posting(s, c, pc.code), pc := s.pc[t := pc])
    ensures Carried(s, s', t, e) && !Carries(s', e)
  {
    assert forall y :: Where(s', y) == Where(s, y) && Ent(s', y) == Ent(s, y);
  }

  lemma InsertRefused(s: State, t: Tid, c: Cont, q: Pid, e: Eid, k: Key, drop: bool, shed: bool, full: bool)
    requires OwnerInv(s) && RequestInv(s) && Pc(s, t) == Ins(c, q, e)
    requires drop || shed || full
    ensures RequestInv(Insert(s, t, c, q, e, k, drop, shed, full))
  {
    hide OwnerInv, RequestInv, Disarming;
    Disarmed(s, Insert(s, t, c, q, e, k, drop, shed, full), t, c, q, e,
             if drop then ClrOut(c, q, Some(e), NOTATTACHED) else Rej(c, q, e, NOSPC, shed));
  }

  /** A queued entry, whose posting has succeeded if it is a callback. */
  lemma InsertTaken(s: State, t: Tid, c: Cont, q: Pid, e: Eid, k: Key)
    requires OwnerInv(s) && RequestInv(s) && Pc(s, t) == Ins(c, q, e)
    ensures RequestInv(Insert(s, t, c, q, e, k, false, false, false))
  {
    hide OwnerInv, TicketInv, RunInv, AnswerInv, CallbackInv;
    var s' := Insert(s, t, c, q, e, k, false, false, false);
    O.HandsKnown(s, t, e);
    HandKnown(s, t, e);
    if Ticketed(Ent(s, e)) {
      CarrierKnown(s, e);
    }
    assert Only(s, s', t, e) && Carried(s, s', t, e);
    TicketMove(s, s', t, e, 0);
    RunMove(s, s', t, e, 0);
    AnswerMove(s, s', t, e);
    InsertTakenPosts(s, t, c, q, e, k);
  }

  lemma InsertTakenPosts(s: State, t: Tid, c: Cont, q: Pid, e: Eid, k: Key)
    requires OwnerInv(s) && RequestInv(s) && Pc(s, t) == Ins(c, q, e)
    ensures CallbackInv(Insert(s, t, c, q, e, k, false, false, false))
  {
    hide OwnerInv, TicketInv, RunInv, AnswerInv, CallbackInv;
    var s' := Insert(s, t, c, q, e, k, false, false, false);
    FilledKnown(s, t, c, q, e);
    CallbackFilled(s, t, c, q, e);
    assert Only(s, s', t, e) && Carried(s, s', t, e);
    CallbackMove(s, s', t, e, if c.Post? then 0 else c.r);
  }

  lemma InsertStep(s: State, t: Tid, c: Cont, q: Pid, e: Eid)
    requires OwnerInv(s) && RequestInv(s) && Pc(s, t) == Ins(c, q, e)
    ensures RequestInv(StepIns(s, t, c, q, e))
  {
    hide OwnerInv, RequestInv, Insert, Ent, Ch, Ph, Dropped, Shed, Full;
    var k := Key(q, DirOf(Ent(s, e)));
    var drop, shed, full := Dropped(Ent(s, e), Ph(s, q)), Shed(Ent(s, e), Ch(s, k)), Full(Ent(s, e), Ch(s, k));
    if drop || shed || full {
      InsertRefused(s, t, c, q, e, k, drop, shed, full);
    } else {
      InsertTaken(s, t, c, q, e, k);
    }
  }

  lemma FlagStep(s: State, t: Tid, c: Cont, q: Pid, d: Dir, e: Eid)
    requires OwnerInv(s) && RequestInv(s) && Pc(s, t) == AtFlag(c, q, d, e)
    ensures RequestInv(StepFlag(s, t, c, q, d, e))
  {
    hide OwnerInv, RequestInv;
    if Ch(s, Key(q, d)).flag {
      CalmPcs(s, GoTo(s, t, AtWake(c, q, e)), t, AtWake(c, q, e));
    } else {
      CalmPcs(s, StepFlag(s, t, c, q, d, e), t, AtRetain(c, q, d, e));
    }
  }

  lemma RetainStep(s: State, t: Tid, c: Cont, q: Pid, d: Dir, e: Eid)
    requires OwnerInv(s) && RequestInv(s) && Pc(s, t) == AtRetain(c, q, d, e)
    ensures RequestInv(StepRetain(s, t, c, q, d, e))
  {
    hide OwnerInv, RequestInv;
    CalmPcs(s, StepRetain(s, t, c, q, d, e), t, AtPlace(c, q, d, e));
  }

  lemma PlaceStep(s: State, t: Tid, c: Cont, q: Pid, d: Dir, e: Eid)
    requires OwnerInv(s) && RequestInv(s) && Pc(s, t) == AtPlace(c, q, d, e)
    ensures RequestInv(StepPlace(s, t, c, q, d, e))
  {
    hide OwnerInv, RequestInv;
    if !s.dlock.Some? {
      CalmPcs(s, StepPlace(s, t, c, q, d, e), t, AtWake(c, q, e));
    }
  }

  lemma WakeOwn(s: State, t: Tid, c: Cont, q: Pid, e: Eid)
    requires OwnerInv(s) && RequestInv(s) && Pc(s, t) == AtWake(c, q, e)
    ensures RequestInv(GoTo(s, t, Done(c, q, e, OK)))
  {
    hide OwnerInv, RequestInv;
    CalmPcs(s, GoTo(s, t, Done(c, q, e, OK)), t, Done(c, q, e, OK));
  }

  lemma WakeStep(s: State, t: Tid, c: Cont, q: Pid, e: Eid, ch: Choice)
    requires OwnerInv(s) && RequestInv(s) && Pc(s, t) == AtWake(c, q, e)
    ensures RequestInv(StepWake(s, t, c, q, e, ch))
  {
    hide OwnerInv, RequestInv;
    if ch.yes && ch.other != t && Pc(s, ch.other).Idle? {
      O.WakeOther(s, ch.other);
      CalmPcs(s, GoTo(s, ch.other, Loop), ch.other, Loop);
      WakeOwn(GoTo(s, ch.other, Loop), t, c, q, e);
    }
    WakeOwn(s, t, c, q, e);
  }

  // ----- clearing the outbound queue, and the end of insertDispatchEntry -----

  lemma PopFacts(s: State, k: Key)
    requires OwnerInv(s) && Ch(s, k).q != []
    ensures var e := Ch(s, k).q[0];
      && Where(s, e) == Queued(k) && QueuedOk(k.d, Ent(s, e))
      && (Ticketed(Ent(s, e)) ==> Carries(s, e))
      && (forall u :: e !in Hands(Pc(s, u)))
      && (forall u :: SyncOf(Pc(s, u)) == Some(e) ==> SyncAt(s, u, e))
  {
    hide OwnerInv;
    O.QueueKnown(s, k);
  }

  lemma ClearOutCallbacks(s: State, t: Tid, p: Pid, pc: PC)
    requires OwnerInv(s) && RequestInv(s) && Ch(s, Key(p, Out)).q != []
    requires Pc(s, t).ClrOut? || Pc(s, t).ClrAll?
    requires SyncOf(pc) == None && FewerFlights(Pc(s, t), pc) && !pc.Ins? && !pc.Disp? && !pc.ClrIn?
    ensures CallbackInv(ClearOne(s, t, Key(p, Out), pc))
  {
    hide OwnerInv, TicketInv, RunInv, AnswerInv, CallbackInv;
    var s' := ClearOne(s, t, Key(p, Out), pc);
    var e := Ch(s, Key(p, Out)).q[0];
    PopFacts(s, Key(p, Out));
    PostingKnown(s, t);
    assert Only(s, s', t, e) && Carried(s, s', t, e);
    CallbackMove(s, s', t, e, 0);
  }

  lemma ClearOutOk(s: State, t: Tid, p: Pid, pc: PC)
    requires OwnerInv(s) && RequestInv(s) && Ch(s, Key(p, Out)).q != []
    requires Pc(s, t).ClrOut? || Pc(s, t).ClrAll?
    requires SyncOf(pc) == None && FewerFlights(Pc(s, t), pc) && !pc.Ins? && !pc.Disp? && !pc.ClrIn?
    ensures RequestInv(ClearOne(s, t, Key(p, Out), pc))
  {
    hide OwnerInv, TicketInv, RunInv, AnswerInv, CallbackInv, Hands, HandOk, SyncReq;
    var s', e := ClearOne(s, t, Key(p, Out), pc), Ch(s, Key(p, Out)).q[0];
    PopFacts(s, Key(p, Out));
    FlightKnown(s, t);
    if Ent(s, e).cb {
      CarrierKnown(s, e);
    }
    assert Only(s, s', t, e) && Carried(s, s', t, e);
    TicketMove(s, s', t, e, Ent(s, e).req);
    RunMove(s, s', t, e, Ent(s, e).req);
    AnswerMove(s, s', t, e);
    ClearOutCallbacks(s, t, p, pc);
  }

  lemma ClrOutStep(s: State, t: Tid, c: Cont, q: Pid, pend: Option<Eid>, code: Code)
    requires OwnerInv(s) && RequestInv(s) && Pc(s, t) == ClrOut(c, q, pend, code)
    ensures RequestInv(StepClrOut(s, t, c, q, pend, code))
  {
    hide OwnerInv, RequestInv, ClearOne;
    if Ch(s, Key(q, Out)).has {
      if Ch(s, Key(q, Out)).q == [] {
        O.Known(s, t);
        CalmPcs(s, StepClrOut(s, t, c, q, pend, code), t, Cleared(c, q, pend, code));
      } else {
        ClearOutOk(s, t, q, ClrOutRet(c, q, Ch(s, Key(q, Out)).q[0], pend, code));
      }
    }
  }

  lemma ClrOutRetStep(s: State, t: Tid, c: Cont, q: Pid, x: Eid, pend: Option<Eid>, code: Code)
    requires OwnerInv(s) && RequestInv(s) && Pc(s, t) == ClrOutRet(c, q, x, pend, code)
    ensures RequestInv(StepClrOutRet(s, t, c, q, x, pend, code))
  {
    hide OwnerInv, RequestInv, Returning;
    ReturningCalm(s, t, x, ClrOut(c, q, pend, code));
  }

  lemma RejStep(s: State, t: Tid, c: Cont, q: Pid, e: Eid, code: Code, thenClear: bool, ch: Choice)
    requires OwnerInv(s) && RequestInv(s) && Pc(s, t) == Rej(c, q, e, code, thenClear)
    ensures RequestInv(StepRej(s, t, c, q, e, code, thenClear, ch))
  {
    hide OwnerInv, RequestInv, Returning;
    O.Known(s, t);
    ReturningCalm(s, t, e, if thenClear && ch.yes then ClrOut(c, q, None, code) else Done(c, q, 0, code));
  }

  lemma FinishCbCalls(s: State, t: Tid, c: Cont, q: Pid, e: Eid, code: Code)
    requires OwnerInv(s) && RequestInv(s) && Pc(s, t) == Done(c, q, e, code) && c.CbOf? && code != OK
    ensures CallbackInv(Finish(s, t, c, e, code, false))
  {
    hide OwnerInv, TicketInv, RunInv, AnswerInv, CallbackInv;
    var s' := Finish(s, t, c, e, code, false);
    var x := s.pool.next;
    NextUnknown(s);
    PostingKnown(s, t);
    assert forall y :: Where(s', y) == Where(s, y) && Ent(s', y) == Ent(s, y);
    assert Only(s, s', t, x) && Carried(s, s', t, x);
    CallbackMove(s, s', t, x, c.r);
  }

  lemma FinishCb(s: State, t: Tid, c: Cont, q: Pid, e: Eid, code: Code)
    requires OwnerInv(s) && RequestInv(s) && Pc(s, t) == Done(c, q, e, code) && c.CbOf? && code != OK
    ensures RequestInv(Finish(s, t, c, e, code, false))
  {
    hide OwnerInv, TicketInv, RunInv, AnswerInv, CallbackInv;
    var s', x := Finish(s, t, c, e, code, false), s.pool.next;
    NextUnknown(s);
    FlightKnown(s, t);
    assert forall y :: Where(s', y) == Where(s, y) && Ent(s', y) == Ent(s, y);
    assert Only(s, s', t, x) && Carried(s, s', t, x);
    TicketMove(s, s', t, x, c.r);
    RunMove(s, s', t, x, c.r);
    AnswerMove(s, s', t, x);
    FinishCbCalls(s, t, c, q, e, code);
  }

  lemma FinishStep(s: State, t: Tid, c: Cont, q: Pid, e: Eid, code: Code)
    requires OwnerInv(s) && RequestInv(s) && Pc(s, t) == Done(c, q, e, code)
    ensures RequestInv(StepDone(s, t, c, q, e, code))
  {
    hide OwnerInv, RequestInv;
    if c.CbOf? && code != OK {
      FinishCb(s, t, c, q, e, code);
    } else {
      CalmPcs(s, GoTo(s, t, After(c, e, code == OK)), t, After(c, e, code == OK));
    }
  }

  // ----- the waiter -----

  lemma WaitCallbacks(s: State, t: Tid, r: Rid, e: Eid)
    requires OwnerInv(s) && RequestInv(s) && Pc(s, t) == Wait(r, e) && !Ent(s, e).waiting
    ensures CallbackInv(StepWait(s, t, r, e))
  {
    hide OwnerInv, TicketInv, RunInv, AnswerInv, CallbackInv;
    var s' := StepWait(s, t, r, e);
    WaiterKnown(s, t, e);
    assert Only(s, s', t, e) && Carried(s, s', t, e);
    CallbackMove(s, s', t, e, 0);
  }

  lemma WaitStep(s: State, t: Tid, r: Rid, e: Eid)
    requires OwnerInv(s) && RequestInv(s) && Pc(s, t) == Wait(r, e)
    ensures RequestInv(StepWait(s, t, r, e))
  {
    hide OwnerInv, TicketInv, RunInv, AnswerInv, CallbackInv;
    if !Ent(s, e).waiting {
      var s' := StepWait(s, t, r, e);
      WaiterKnown(s, t, e);
      assert Only(s, s', t, e) && Carried(s, s', t, e);
      TicketMove(s, s', t, e, 0);
      RunMove(s, s', t, e, 0);
      WaitAnswer(s, t, r, e);
      WaitCallbacks(s, t, r, e);
    }
  }

  lemma WaitAnswer(s: State, t: Tid, r: Rid, e: Eid)
    requires OwnerInv(s) && AnswerInv(s) && Pc(s, t) == Wait(r, e) && !Ent(s, e).waiting
    ensures AnswerInv(StepWait(s, t, r, e))
  {
    hide OwnerInv, AnswerInv;
    WaiterKnown(s, t, e);
    AnswerKnown(s, t);
    AnswerMove(s, StepWait(s, t, r, e), t, e);
  }

  lemma AnswerKnown(s: State, t: Tid)
    requires AnswerInv(s)
    ensures SyncOf(Pc(s, t)).Some? ==>
      Ent(s, SyncOf(Pc(s, t)).value).waiting || Answer(s, SyncReq(Pc(s, t)), Ent(s, SyncOf(Pc(s, t)).value).res)
    ensures Pc(s, t).WaitDone? ==> Answer(s, Pc(s, t).r, Ent(s, Pc(s, t).e).res)
    ensures Pc(s, t).DispSig? ==>
      Ent(s, Pc(s, t).e).req in s.processed && s.processed[Ent(s, Pc(s, t).e).req] == Pc(s, t).res
  {
  }

  /** An entry whose WAITING bit is clear is with its waiter and nobody else. */
  lemma WaiterKnown(s: State, t: Tid, e: Eid)
    requires OwnerInv(s) && SyncOf(Pc(s, t)) == Some(e) && !Ent(s, e).waiting
    ensures Where(s, e) == Claimed(t) && Ent(s, e).req == SyncReq(Pc(s, t))
    ensures forall u :: e !in Hands(Pc(s, u)) && (u != t ==> SyncOf(Pc(s, u)) != Some(e))
  {
    O.SyncAtKnown(s, t);
    forall u ensures u != t ==> SyncOf(Pc(s, u)) != Some(e) {
      O.SyncAtKnown(s, u);
    }
  }

  lemma WaitDoneCallbacks(s: State, t: Tid, r: Rid, e: Eid)
    requires OwnerInv(s) && RequestInv(s) && Pc(s, t) == WaitDone(r, e) && !s.dlock.Some?
    ensures CallbackInv(StepWaitDone(s, t, r, e))
  {
    hide OwnerInv, TicketInv, RunInv, AnswerInv, CallbackInv;
    var s' := StepWaitDone(s, t, r, e);
    O.HandsKnown(s, t, e);
    assert Only(s, s', t, e) && Carried(s, s', t, e);
    CallbackMove(s, s', t, e, 0);
  }

  lemma WaitDoneStep(s: State, t: Tid, r: Rid, e: Eid)
    requires OwnerInv(s) && RequestInv(s) && Pc(s, t) == WaitDone(r, e)
    ensures RequestInv(StepWaitDone(s, t, r, e))
  {
    hide OwnerInv, TicketInv, RunInv, AnswerInv, CallbackInv;
    if !s.dlock.Some? {
      var s' := StepWaitDone(s, t, r, e);
      O.HandsKnown(s, t, e);
      O.NobodyWaits(s, t, e);
      HandKnown(s, t, e);
      AnswerKnown(s, t);
      assert Only(s, s', t, e) && Carried(s, s', t, e);
      TicketMove(s, s', t, e, 0);
      RunMove(s, s', t, e, 0);
      AnswerMove(s, s', t, e);
      WaitDoneCallbacks(s, t, r, e);
    }
  }

  // ----- clearPhidgetDispatch -----

  lemma ClearInPop(s: State, t: Tid, p: Pid, d: Dir)
    requires OwnerInv(s) && RequestInv(s) && Pc(s, t) == ClrAll(p, d) && Ch(s, Key(p, In)).q != []
    ensures RequestInv(ClearOne(s, t, Key(p, In), ClrIn(p, Ch(s, Key(p, In)).q[0])))
  {
    hide OwnerInv, TicketInv, RunInv, AnswerInv, CallbackInv;
    var e := Ch(s, Key(p, In)).q[0];
    var s' := ClearOne(s, t, Key(p, In), ClrIn(p, e));
    PopFacts(s, Key(p, In));
    assert Only(s, s', t, e);
    if Ent(s, e).typ.UserReqCallback? {
      CallbackKnown(s, e);
    }
    CalmMove(s, s', t, e);
  }

  lemma ClearNextStep(s: State, t: Tid, p: Pid, d: Dir)
    requires OwnerInv(s) && RequestInv(s) && Pc(s, t) == ClrAll(p, d)
    ensures RequestInv(StepClrAll(s, t, p, d))
  {
    hide OwnerInv, RequestInv, ClearOne;
    var out, inb := d == Out && Ch(s, Key(p, Out)).q != [], Ch(s, Key(p, In)).q != [];
    if out {
      ClearOutOk(s, t, p, ClrRet(p, Ch(s, Key(p, Out)).q[0], Out));
    } else if inb {
      ClearInPop(s, t, p, d);
    } else {
      CalmPcs(s, GoTo(s, t, Idle), t, Idle);
    }
  }

  lemma ClearInSignalsCallbacks(s: State, t: Tid, p: Pid, x: Eid, ent: Entry, called: bool)
    requires OwnerInv(s) && RequestInv(s) && Pc(s, t) == ClrIn(p, x) && ent == Ent(s, x) && ent.noreturn
    ensures CallbackInv(ClearIn(s, t, p, x, ent, true, called))
  {
    hide OwnerInv, TicketInv, RunInv, AnswerInv, CallbackInv;
    var s' := ClearIn(s, t, p, x, ent, true, called);
    O.HandsKnown(s, t, x);
    assert Only(s, s', t, x) && Carried(s, s', t, x);
    CallbackMove(s, s', t, x, 0);
  }

  lemma ClearInSignals(s: State, t: Tid, p: Pid, x: Eid, ent: Entry, called: bool)
    requires OwnerInv(s) && RequestInv(s) && Pc(s, t) == ClrIn(p, x) && ent == Ent(s, x) && ent.noreturn
    ensures RequestInv(ClearIn(s, t, p, x, ent, true, called))
  {
    hide OwnerInv, TicketInv, RunInv, AnswerInv, CallbackInv;
    var s' := ClearIn(s, t, p, x, ent, true, called);
    O.HandsKnown(s, t, x);
    HandKnown(s, t, x);
    CarrierKnown(s, x);
    assert Only(s, s', t, x) && Carried(s, s', t, x);
    TicketMove(s, s', t, x, ent.req);
    RunMove(s, s', t, x, ent.req);
    AnswerMove(s, s', t, x);
    ClearInSignalsCallbacks(s, t, p, x, ent, called);
  }

  lemma ClearInCallsCallbacks(s: State, t: Tid, p: Pid, x: Eid, ent: Entry)
    requires OwnerInv(s) && RequestInv(s) && Pc(s, t) == ClrIn(p, x) && ent == Ent(s, x) && Ticketed(ent)
    ensures CallbackInv(ClearIn(s, t, p, x, ent, false, true))
  {
    hide OwnerInv, TicketInv, RunInv, AnswerInv, CallbackInv;
    var s' := ClearIn(s, t, p, x, ent, false, true);
    O.HandsKnown(s, t, x);
    CarrierKnown(s, x);
    assert forall y :: Where(s', y) == Where(s, y) && Ent(s', y) == Ent(s, y);
    assert Only(s, s', t, x) && Carried(s, s', t, x);
    CallbackMove(s, s', t, x, ent.req);
  }

  lemma ClearInCalls(s: State, t: Tid, p: Pid, x: Eid, ent: Entry)
    requires OwnerInv(s) && RequestInv(s) && Pc(s, t) == ClrIn(p, x) && ent == Ent(s, x) && Ticketed(ent)
    ensures RequestInv(ClearIn(s, t, p, x, ent, false, true))
  {
    hide OwnerInv, TicketInv, RunInv, AnswerInv, CallbackInv;
    var s' := ClearIn(s, t, p, x, ent, false, true);
    O.HandsKnown(s, t, x);
    HandKnown(s, t, x);
    CarrierKnown(s, x);
    assert forall y :: Where(s', y) == Where(s, y) && Ent(s', y) == Ent(s, y);
    assert Only(s, s', t, x) && Carried(s, s', t, x);
    TicketMove(s, s', t, x, ent.req);
    RunMove(s, s', t, x, ent.req);
    AnswerMove(s, s', t, x);
    ClearInCallsCallbacks(s, t, p, x, ent);
  }

  lemma ClearInStep(s: State, t: Tid, p: Pid, x: Eid)
    requires OwnerInv(s) && RequestInv(s) && Pc(s, t) == ClrIn(p, x)
    ensures RequestInv(StepClrIn(s, t, p, x))
  {
    hide OwnerInv, RequestInv, Ent;
    O.HandsKnown(s, t, x);
    var ent, called := Ent(s, x), (Ent(s, x).typ.UserReq? && Ent(s, x).cb) || Ent(s, x).typ.UserReqCallback?;
    if ent.noreturn {
      ClearInSignals(s, t, p, x, ent, called);
    } else if called {
      ClearInCalls(s, t, p, x, ent);
    } else {
      CalmPcs(s, GoTo(s, t, ClrRet(p, x, In)), t, ClrRet(p, x, In));
    }
  }

  // ----- the dispatcher -----

  /** Dispatchers looking for work touch no request. */
  lemma SeekStep(s: State, s': State, t: Tid)
    requires OwnerInv(s) && RequestInv(s) && Quiet(s, s', t)
    ensures RequestInv(s')
  {
    hide OwnerInv, RequestInv;
    assert T.Alone(s, s', t);
    CalmStill(s, s', t);
  }

  lemma LoopGoes(s: State, t: Tid, ch: Choice)
    requires Pc(s, t).Loop? && !s.dlock.Some? && (ch.yes || s.inL == [])
    ensures Quiet(s, StepLoop(s, t, ch), t)
  {
  }

  lemma LoopPops(s: State, t: Tid, ch: Choice)
    requires Pc(s, t).Loop? && !s.dlock.Some? && !ch.yes && s.inL != []
    ensures Quiet(s, StepLoop(s, t, ch), t)
  {
  }

  lemma LoopStep(s: State, t: Tid, ch: Choice)
    requires OwnerInv(s) && RequestInv(s) && Pc(s, t).Loop?
    ensures RequestInv(StepLoop(s, t, ch))
  {
    hide OwnerInv, RequestInv, Quiet;
    if !s.dlock.Some? {
      if ch.yes || s.inL == [] {
        LoopGoes(s, t, ch);
      } else {
        LoopPops(s, t, ch);
      }
      SeekStep(s, StepLoop(s, t, ch), t);
    }
  }

  lemma ScanPops(s: State, t: Tid, i: int)
    requires 0 <= i < |s.outL| && (Ph(s, s.outL[i]).attached || Ph(s, s.outL[i]).detaching)
    ensures Quiet(s, StepScan(s, t, i), t)
  {
  }

  lemma ScanGoes(s: State, t: Tid, i: int)
    requires 0 <= i < |s.outL| ==> !Ph(s, s.outL[i]).attached && !Ph(s, s.outL[i]).detaching
    ensures Quiet(s, StepScan(s, t, i), t)
  {
  }

  lemma ScanStep(s: State, t: Tid, i: int)
    requires OwnerInv(s) && RequestInv(s) && Pc(s, t) == Scan(i)
    ensures RequestInv(StepScan(s, t, i))
  {
    hide OwnerInv, RequestInv, StepScan, Quiet;
    if 0 <= i < |s.outL| && (Ph(s, s.outL[i]).attached || Ph(s, s.outL[i]).detaching) {
      ScanPops(s, t, i);
    } else {
      ScanGoes(s, t, i);
    }
    SeekStep(s, StepScan(s, t, i), t);
  }

  lemma ScanOpenPops(s: State, t: Tid, i: int, p: Pid)
    requires !Ph(s, p).open && 0 <= i < |s.outL|
    ensures Quiet(s, StepScanOpen(s, t, i, p), t)
  {
  }

  lemma ScanOpenGoes(s: State, t: Tid, i: int, p: Pid)
    requires Ph(s, p).open || !(0 <= i < |s.outL|)
    ensures Quiet(s, StepScanOpen(s, t, i, p), t)
  {
  }

  lemma ScanOpenStep(s: State, t: Tid, i: int, p: Pid)
    requires OwnerInv(s) && RequestInv(s) && Pc(s, t) == ScanOpen(i, p)
    ensures RequestInv(StepScanOpen(s, t, i, p))
  {
    hide OwnerInv, RequestInv, StepScanOpen, Quiet;
    if !Ph(s, p).open && 0 <= i < |s.outL| {
      ScanOpenPops(s, t, i, p);
    } else {
      ScanOpenGoes(s, t, i, p);
    }
    SeekStep(s, StepScanOpen(s, t, i, p), t);
  }

  ghost predicate Quiet(s: State, s': State, t: Tid) {
    && SameRequests(s, s') && s'.pool == s.pool && s'.loc == s.loc && s'.panicked == s.panicked
    && t in s'.pc && s'.pc == s.pc[t := s'.pc[t]] && O.Seeks(s'.pc[t])
  }

  lemma ScanDropStep(s: State, t: Tid, i: int, p: Pid)
    requires OwnerInv(s) && RequestInv(s) && Pc(s, t) == ScanDrop(i, p)
    ensures RequestInv(StepScanDrop(s, t, i, p))
  {
    hide OwnerInv, RequestInv;
    CalmPcs(s, StepScanDrop(s, t, i, p), t, Scan(i));
  }

  lemma RelStep(s: State, t: Tid, p: Pid)
    requires OwnerInv(s) && RequestInv(s) && Pc(s, t) == Rel(p)
    ensures RequestInv(StepRel(s, t, p))
  {
    hide OwnerInv, RequestInv;
    CalmPcs(s, StepRel(s, t, p), t, Loop);
  }

  lemma ServePops(s: State, t: Tid, k: Key)
    requires OwnerInv(s) && RequestInv(s) && Pc(s, t) == Serve(k) && !Leaves(s, k)
    ensures RequestInv(StepServe(s, t, k))
  {
    hide OwnerInv, TicketInv, RunInv, AnswerInv, CallbackInv;
    var s', e := StepServe(s, t, k), Ch(s, k).q[0];
    PopFacts(s, k);
    assert Only(s, s', t, e);
    if Ent(s, e).typ.UserReqCallback? {
      CallbackKnown(s, e);
    }
    CalmMove(s, s', t, e);
  }

  lemma ServeStep(s: State, t: Tid, k: Key)
    requires OwnerInv(s) && RequestInv(s) && Pc(s, t) == Serve(k)
    ensures RequestInv(StepServe(s, t, k))
  {
    hide OwnerInv, RequestInv, Leaves;
    if Leaves(s, k) {
      CalmPcs(s, StepServe(s, t, k), t, Rel(k.p));
    } else {
      ServePops(s, t, k);
    }
  }

  lemma NotYetPosted(s: State, r: Rid)
    requires CallbackInv(s) && r !in s.processed
    ensures r !in s.posts
  {
  }

  lemma DispatchRunsCallbacks(s: State, t: Tid, k: Key, e: Eid, ret: bool, ent: Entry, code: Code)
    requires OwnerInv(s) && RequestInv(s) && Pc(s, t) == Disp(k, e, ret) && ent == Ent(s, e) && ent.typ.UserReq?
    ensures CallbackInv(Dispatch(s, t, k, e, ret, ent, code, true, false))
  {
    hide OwnerInv, TicketInv, RunInv, AnswerInv, CallbackInv;
    var s' := Dispatch(s, t, k, e, ret, ent, code, true, false);
    O.HandsKnown(s, t, e);
    CarrierKnown(s, e);
    KindKnown(s, e);
    NotYetPosted(s, ent.req);
    assert forall y :: Where(s', y) == Where(s, y) && Ent(s', y) == Ent(s, y);
    assert Only(s, s', t, e) && Carried(s, s', t, e);
    CallbackMove(s, s', t, e, 0);
  }

  lemma DispatchRuns(s: State, t: Tid, k: Key, e: Eid, ret: bool, ent: Entry, code: Code)
    requires OwnerInv(s) && RequestInv(s) && Pc(s, t) == Disp(k, e, ret) && ent == Ent(s, e) && ent.typ.UserReq?
    ensures RequestInv(Dispatch(s, t, k, e, ret, ent, code, true, false))
  {
    hide OwnerInv, TicketInv, RunInv, AnswerInv, CallbackInv, Dispatch;
    DispatchRunsTickets(s, t, k, e, ret, ent, code);
    DispatchRunsOnce(s, t, k, e, ret, ent, code);
    DispatchRunsAnswers(s, t, k, e, ret, ent, code);
    DispatchRunsCallbacks(s, t, k, e, ret, ent, code);
  }

  lemma DispatchRunsTickets(s: State, t: Tid, k: Key, e: Eid, ret: bool, ent: Entry, code: Code)
    requires OwnerInv(s) && RequestInv(s) && Pc(s, t) == Disp(k, e, ret) && ent == Ent(s, e) && ent.typ.UserReq?
    ensures TicketInv(Dispatch(s, t, k, e, ret, ent, code, true, false))
  {
    hide OwnerInv, TicketInv, RunInv, AnswerInv, CallbackInv;
    var s' := Dispatch(s, t, k, e, ret, ent, code, true, false);
    O.HandsKnown(s, t, e);
    CarrierKnown(s, e);
    assert forall y :: Where(s', y) == Where(s, y) && Ent(s', y) == Ent(s, y);
    assert Only(s, s', t, e) && Carried(s, s', t, e);
    TicketMove(s, s', t, e, ent.req);
  }

  lemma DispatchRunsOnce(s: State, t: Tid, k: Key, e: Eid, ret: bool, ent: Entry, code: Code)
    requires OwnerInv(s) && RequestInv(s) && Pc(s, t) == Disp(k, e, ret) && ent == Ent(s, e) && ent.typ.UserReq?
    ensures RunInv(Dispatch(s, t, k, e, ret, ent, code, true, false))
  {
    hide OwnerInv, TicketInv, RunInv, AnswerInv, CallbackInv;
    var s' := Dispatch(s, t, k, e, ret, ent, code, true, false);
    O.HandsKnown(s, t, e);
    CarrierKnown(s, e);
    assert forall y :: Where(s', y) == Where(s, y) && Ent(s', y) == Ent(s, y);
    assert Only(s, s', t, e) && Carried(s, s', t, e);
    assert s'.processed.Keys == s.processed.Keys + {ent.req};
    RunMove(s, s', t, e, ent.req);
  }

  lemma DispatchRunsAnswers(s: State, t: Tid, k: Key, e: Eid, ret: bool, ent: Entry, code: Code)
    requires OwnerInv(s) && RequestInv(s) && Pc(s, t) == Disp(k, e, ret) && ent == Ent(s, e) && ent.typ.UserReq?
    ensures AnswerInv(Dispatch(s, t, k, e, ret, ent, code, true, false))
  {
    hide OwnerInv, TicketInv, RunInv, AnswerInv, CallbackInv;
    var s' := Dispatch(s, t, k, e, ret, ent, code, true, false);
    O.HandsKnown(s, t, e);
    HandKnown(s, t, e);
    CarrierKnown(s, e);
    assert forall y :: Where(s', y) == Where(s, y) && Ent(s', y) == Ent(s, y);
    assert Only(s, s', t, e);
    AnswerMove(s, s', t, e);
  }

  lemma DispatchCallsCallbacks(s: State, t: Tid, k: Key, e: Eid, ret: bool, ent: Entry, code: Code)
    requires OwnerInv(s) && RequestInv(s) && Pc(s, t) == Disp(k, e, ret) && ent == Ent(s, e) && ent.typ.UserReqCallback?
    ensures CallbackInv(Dispatch(s, t, k, e, ret, ent, code, false, true))
  {
    hide OwnerInv, TicketInv, RunInv, AnswerInv, CallbackInv;
    var s' := Dispatch(s, t, k, e, ret, ent, code, false, true);
    O.HandsKnown(s, t, e);
    CallbackKnown(s, e);
    assert forall y :: Where(s', y) == Where(s, y) && Ent(s', y) == Ent(s, y);
    assert Only(s, s', t, e) && Carried(s, s', t, e);
    CallbackMove(s, s', t, e, ent.req);
  }

  lemma DispatchCalls(s: State, t: Tid, k: Key, e: Eid, ret: bool, ent: Entry, code: Code)
    requires OwnerInv(s) && RequestInv(s) && Pc(s, t) == Disp(k, e, ret) && ent == Ent(s, e) && ent.typ.UserReqCallback?
    ensures RequestInv(Dispatch(s, t, k, e, ret, ent, code, false, true))
  {
    hide OwnerInv, TicketInv, RunInv, AnswerInv, CallbackInv;
    var s' := Dispatch(s, t, k, e, ret, ent, code, false, true);
    O.HandsKnown(s, t, e);
    HandKnown(s, t, e);
    CarrierKnown(s, e);
    assert forall y :: Where(s', y) == Where(s, y) && Ent(s', y) == Ent(s, y);
    assert Only(s, s', t, e) && Carried(s, s', t, e);
    TicketMove(s, s', t, e, ent.req);
    RunMove(s, s', t, e, ent.req);
    AnswerMove(s, s', t, e);
    DispatchCallsCallbacks(s, t, k, e, ret, ent, code);
  }

  lemma DispatchPasses(s: State, t: Tid, k: Key, e: Eid, ret: bool, ent: Entry, code: Code)
    ensures Dispatch(s, t, k, e, ret, ent, code, false, false) == GoTo(s, t, DispEnd(k, e, ret))
  {
    hide GoTo;
  }

  lemma DispatchStep(s: State, t: Tid, k: Key, e: Eid, ret: bool, ent: Entry, code: Code)
    requires OwnerInv(s) && RequestInv(s) && Pc(s, t) == Disp(k, e, ret) && ent == Ent(s, e)
    ensures RequestInv(Dispatch(s, t, k, e, ret, ent, code, ent.typ.UserReq?, ent.typ.UserReqCallback?))
  {
    hide OwnerInv, RequestInv, Ent, Dispatch;
    if ent.typ.UserReq? {
      DispatchRuns(s, t, k, e, ret, ent, code);
    } else if ent.typ.UserReqCallback? {
      DispatchCalls(s, t, k, e, ret, ent, code);
    } else {
      DispatchPasses(s, t, k, e, ret, ent, code);
      CalmPcs(s, GoTo(s, t, DispEnd(k, e, ret)), t, DispEnd(k, e, ret));
    }
  }

  lemma DispSigCallbacks(s: State, t: Tid, k: Key, e: Eid, ret: bool, res: Code)
    requires OwnerInv(s) && RequestInv(s) && Pc(s, t) == DispSig(k, e, ret, res)
    ensures CallbackInv(StepDispSig(s, t, k, e, ret, res))
  {
    hide OwnerInv, TicketInv, RunInv, AnswerInv, CallbackInv;
    var s' := StepDispSig(s, t, k, e, ret, res);
    O.HandsKnown(s, t, e);
    assert Only(s, s', t, e) && Carried(s, s', t, e);
    CallbackMove(s, s', t, e, 0);
  }

  lemma DispSigStep(s: State, t: Tid, k: Key, e: Eid, ret: bool, res: Code)
    requires OwnerInv(s) && RequestInv(s) && Pc(s, t) == DispSig(k, e, ret, res)
    ensures RequestInv(StepDispSig(s, t, k, e, ret, res))
  {
    hide OwnerInv, TicketInv, RunInv, AnswerInv, CallbackInv;
    var s' := StepDispSig(s, t, k, e, ret, res);
    O.HandsKnown(s, t, e);
    HandKnown(s, t, e);
    AnswerKnown(s, t);
    assert Only(s, s', t, e) && Carried(s, s', t, e);
    TicketMove(s, s', t, e, 0);
    RunMove(s, s', t, e, 0);
    AnswerMove(s, s', t, e);
    DispSigCallbacks(s, t, k, e, ret, res);
  }

  lemma DispEndStep(s: State, t: Tid, k: Key, e: Eid, ret: bool)
    requires OwnerInv(s) && RequestInv(s) && Pc(s, t) == DispEnd(k, e, ret)
    ensures RequestInv(StepDispEnd(s, t, k, e, ret))
  {
    hide OwnerInv, RequestInv, Returning;
    if ret {
      ReturningCalm(s, t, e, Serve(k));
    } else {
      CalmPcs(s, GoTo(s, t, Serve(k)), t, Serve(k));
    }
  }

  lemma ActivityKeepsRequests(s: State, t: Tid, ch: Choice)
    requires OwnerInv(s) && RequestInv(s)
    ensures RequestInv(StepActivity(s, t, ch))
  {
    hide OwnerInv, RequestInv, StepGet, StepIns, StepFlag, StepRetain, StepPlace, StepWake, StepClrOut, StepClrOutRet,
         StepRej, StepDone, StepWait, StepWaitDone, StepClrAll, StepClrIn, StepClrRet, StepLoop, StepScan, StepScanOpen,
         StepScanDrop, StepServe, Dispatch, StepDispSig, StepDispEnd, StepRel, Ent;
    match Pc(s, t)
    case Idle =>
    case Get(c, q) => TakeStep(s, t, c, q, ch);
    case Ins(c, q, e) => InsertStep(s, t, c, q, e);
    case AtFlag(c, q, d, e) => FlagStep(s, t, c, q, d, e);
    case AtRetain(c, q, d, e) => RetainStep(s, t, c, q, d, e);
    case AtPlace(c, q, d, e) => PlaceStep(s, t, c, q, d, e);
    case AtWake(c, q, e) => WakeStep(s, t, c, q, e, ch);
    case ClrOut(c, q, pend, code) => ClrOutStep(s, t, c, q, pend, code);
    case ClrOutRet(c, q, x, pend, code) => ClrOutRetStep(s, t, c, q, x, pend, code);
    case Rej(c, q, e, code, thenClear) => RejStep(s, t, c, q, e, code, thenClear, ch);
    case Done(c, q, e, code) => FinishStep(s, t, c, q, e, code);
    case Wait(r, e) => WaitStep(s, t, r, e);
    case WaitDone(r, e) => WaitDoneStep(s, t, r, e);
    case ClrAll(p, d) => ClearNextStep(s, t, p, d);
    case ClrIn(p, x) => ClearInStep(s, t, p, x);
    case ClrRet(p, x, d) => ClrRetStep(s, t, p, x, d);
    case Loop => LoopStep(s, t, ch);
    case Scan(i) => ScanStep(s, t, i);
    case ScanOpen(i, p) => ScanOpenStep(s, t, i, p);
    case ScanDrop(i, p) => ScanDropStep(s, t, i, p);
    case Serve(k) => ServeStep(s, t, k);
    case Disp(k, e, ret) => DispatchStep(s, t, k, e, ret, Ent(s, e), ch.code);
    case DispSig(k, e, ret, res) => DispSigStep(s, t, k, e, ret, res);
    case DispEnd(k, e, ret) => DispEndStep(s, t, k, e, ret);
    case Rel(p) => RelStep(s, t, p);
  }

  lemma ClrRetStep(s: State, t: Tid, p: Pid, x: Eid, d: Dir)
    requires OwnerInv(s) && RequestInv(s) && Pc(s, t) == ClrRet(p, x, d)
    ensures RequestInv(StepClrRet(s, t, p, x, d))
  {
    hide OwnerInv, RequestInv, Returning;
    ReturningCalm(s, t, x, ClrAll(p, d));
  }

  ghost predicate Called(s: State, s': State, t: Tid, pc: PC) {
    && Pc(s, t).Idle? && Starting(pc) && pc.c.r == s.nextReq
    && s' == s.(nextReq := s.nextReq + 1, tickets := s.tickets[s.nextReq := InFlight(t)],
                asyncs := if pc.c.Async? then s.asyncs + {s.nextReq} else s.asyncs, pc := s.pc[t := pc])
  }

  /** A new request gets the next number, which nothing mentions yet. */
  lemma CallTickets(s: State, s': State, t: Tid, pc: PC)
    requires OwnerInv(s) && TicketInv(s) && Called(s, s', t, pc)
    ensures TicketInv(s')
    ensures forall x :: Carries(s', x) ==> Carries(s, x) && Ent(s', x) == Ent(s, x)
  {
    hide OwnerInv;
    assert forall y :: Where(s', y) == Where(s, y) && Ent(s', y) == Ent(s, y);
    assert forall x :: Carries(s', x) ==> Carries(s, x);
    assert TicketOf(s, s.nextReq) == Unborn && TicketOf(s', s.nextReq) == InFlight(t);
    assert forall r :: r != s.nextReq ==> TicketOf(s', r) == TicketOf(s, r);
    assert Flight(Pc(s', t)) == Some(s.nextReq);
    forall u | Flight(Pc(s', u)).Some? ensures TicketOf(s', Flight(Pc(s', u)).value) == InFlight(u) {
      FlightKnown(s, u);
    }
  }

  lemma CallRuns(s: State, s': State, t: Tid, pc: PC)
    requires TicketInv(s) && RunInv(s) && Called(s, s', t, pc)
    requires forall x :: Carries(s', x) ==> Carries(s, x) && Ent(s', x) == Ent(s, x)
    ensures RunInv(s')
  {
    hide Carries;
    assert TicketOf(s, s.nextReq) == Unborn && TicketOf(s', s.nextReq) == InFlight(t);
    assert forall r :: r != s.nextReq ==> TicketOf(s', r) == TicketOf(s, r);
    forall u | Starting(Pc(s', u)) ensures Pc(s', u).c.r !in s'.processed {
      StartKnown(s, u);
    }
  }

  lemma CallCallbacks(s: State, s': State, t: Tid, pc: PC)
    requires OwnerInv(s) && RequestInv(s) && Called(s, s', t, pc)
    ensures CallbackInv(s')
  {
    hide OwnerInv, AnswerInv, TicketInv, RunInv, PostInv, KindInv;
    NextUnknown(s);
    assert forall y :: Where(s', y) == Where(s, y) && Ent(s', y) == Ent(s, y);
    PostMove(s, s', t, s.pool.next, 0);
    CallKinds(s, s', t, pc);
  }

  /** The new request's number is no carrier's. */
  lemma CallKinds(s: State, s': State, t: Tid, pc: PC)
    requires TicketInv(s) && KindInv(s) && Called(s, s', t, pc)
    ensures KindInv(s')
  {
    assert forall y :: Where(s', y) == Where(s, y) && Ent(s', y) == Ent(s, y);
    assert TicketOf(s, s.nextReq) == Unborn;
    forall x | Carries(s', x) ensures EntryKind(s', x) {
      assert Carries(s, x) && EntryKind(s, x) && TicketOf(s, Ent(s, x).req) == Armed(x);
    }
    forall u ensures KindOk(s', Pc(s', u)) {
      assert KindOk(s, Pc(s, u));
      FlightKnown(s, u);
    }
  }

  lemma CallMade(s: State, s': State, t: Tid, pc: PC)
    requires OwnerInv(s) && RequestInv(s) && Called(s, s', t, pc)
    ensures RequestInv(s')
  {
    hide OwnerInv, AnswerInv, TicketInv, RunInv, CallbackInv;
    CallTickets(s, s', t, pc);
    CallRuns(s, s', t, pc);
    NextUnknown(s);
    assert forall y :: Where(s', y) == Where(s, y) && Ent(s', y) == Ent(s, y);
    AnswerMove(s, s', t, s.pool.next);
    CallCallbacks(s, s', t, pc);
  }

  lemma RequestStep(s: State, a: Action)
    requires OwnerInv(s) && RequestInv(s)
    ensures RequestInv(Step(s, a))
  {
    hide OwnerInv, RequestInv, StepActivity, Ent;
    var s' := Step(s, a);
    if !s.panicked {
      match a
      case Run(t, ch) => ActivityKeepsRequests(s, t, ch);
      case CallSync(t, p) => if Pc(s, t).Idle? { CallMade(s, s', t, Get(Sync(s.nextReq), p)); }
      case CallAsync(t, p) => if Pc(s, t).Idle? { CallMade(s, s', t, Get(Async(s.nextReq), p)); }
      case CallPost(t, p, typ) => if s' != s { CalmPost(s, s', t, Get(Post(typ), p)); }
      case CallClear(t, p) => if Pc(s, t).Idle? { CalmPost(s, s', t, ClrAll(p, Out)); }
      case SetState(p, o, at, ag, de) => RequestFrame(s, s');
      case ExtRetain(p) => RequestFrame(s, s');
      case ExtRelease(p) => RequestFrame(s, s');
    }
  }

  lemma CalmPost(s: State, s': State, t: Tid, pc: PC)
    requires OwnerInv(s) && RequestInv(s) && Pc(s, t).Idle? && s' == GoTo(s, t, pc)
    requires pc.ClrAll? || (pc.Get? && pc.c.Post?)
    ensures RequestInv(s')
  {
    hide OwnerInv, RequestInv;
    CalmPcs(s, s', t, pc);
  }

  lemma RequestInit()
    ensures RequestInv(INIT)
  {
  }

  lemma {:induction false} RequestAlways(actions: seq<Action>)
    ensures RequestInv(Exec(actions))
  {
    hide OwnerInv, RequestInv, Step;
    if actions == [] {
      RequestInit();
    } else {
      var before := actions[..|actions|-1];
      RequestAlways(before);
      O.OwnerAlways(before);
      RequestStep(Exec(before), actions[|actions|-1]);
    }
  }
}
