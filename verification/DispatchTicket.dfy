/** What becomes of a user request.  Its ticket passes from the call that makes it to the queued entry, to
  * the dispatcher that runs it and, when it has a callback, to the callback entry; it is used up once. */
module DispatchTicket {
  import opened Base
  import opened DispatchModel
  import opened DispatchOwner
  import T = DispatchToken

  predicate Ticketed(ent: Entry) { ent.typ.UserReq? || ent.typ.UserReqCallback? }

  predicate CarrierHand(pc: PC, e: Eid) {
    (pc.Ins? && pc.e == e) || (pc.Disp? && pc.e == e) || (pc.ClrIn? && pc.x == e)
  }

  /** Entry e stands for a request, or its callback, that is still to be acted on. */
  predicate Carries(s: State, e: Eid) {
    Ticketed(Ent(s, e)) && (Where(s, e).Queued? || (Where(s, e).Hand? && CarrierHand(Pc(s, Where(s, e).t), e)))
  }

  function ContReq(c: Cont): Option<Rid> { if c.Post? then None else Some(c.r) }
  function CbReq(c: Cont): Option<Rid> { if c.CbOf? then Some(c.r) else None }

  /** The request an activity itself is about to act on. */
  function Flight(pc: PC): Option<Rid> {
    match pc
    case Get(c, _) => ContReq(c)
    case ClrOut(c, _, _, _) => CbReq(c)
    case ClrOutRet(c, _, _, _, _) => CbReq(c)
    case Rej(c, _, _, _, _) => CbReq(c)
    case Done(c, _, _, code) => if code != OK then CbReq(c) else None
    case _ => None
  }

  /** An activity about to put a new request into an entry. */
  predicate Starting(pc: PC) { pc.Get? && (pc.c.Sync? || pc.c.Async?) }

  ghost predicate TicketInv(s: State) {
    && s.nextReq >= 0 && (forall r :: r >= s.nextReq ==> TicketOf(s, r) == Unborn)
    && (forall e :: Carries(s, e) ==> TicketOf(s, Ent(s, e).req) == Armed(e))
    && (forall t :: Flight(Pc(s, t)).Some? ==> TicketOf(s, Flight(Pc(s, t)).value) == InFlight(t))
    && CalledOnce(s.calls) && (forall i :: 0 <= i < |s.calls| ==> TicketOf(s, s.calls[i].req) == Fired)
  }

  ghost predicate CalledOnce(calls: seq<Call>) {
    forall i, j :: 0 <= i < j < |calls| ==> calls[i].req != calls[j].req
  }

  ghost predicate RunInv(s: State) {
    && Distinct(s.runs) && (forall r :: r in s.runs <==> r in s.processed)
    && (forall r :: r in s.processed ==> TicketOf(s, r) != Unborn)
    && (forall e :: Carries(s, e) && Ent(s, e).typ.UserReq? ==> Ent(s, e).req !in s.processed)
    && (forall t :: Starting(Pc(s, t)) ==> Pc(s, t).c.r !in s.processed)
    && (forall r :: r in s.clearedReqs ==> TicketOf(s, r) == Spent && r !in s.processed)
  }

  /** x is the answer bridgeInput gave request r, or the one a clear gives. */
  predicate Answer(s: State, r: Rid, x: Code) {
    (r in s.processed && s.processed[r] == x) || (r in s.clearedReqs && x == NOTATTACHED)
  }

  ghost predicate AnswerInv(s: State) {
    && (forall t :: SyncOf(Pc(s, t)).Some? ==>
          Ent(s, SyncOf(Pc(s, t)).value).waiting || Answer(s, SyncReq(Pc(s, t)), Ent(s, SyncOf(Pc(s, t)).value).res))
    && (forall t :: Pc(s, t).WaitDone? ==> Answer(s, Pc(s, t).r, Ent(s, Pc(s, t).e).res))
    && (forall t :: Pc(s, t).DispSig? ==>
          Ent(s, Pc(s, t).e).req in s.processed && s.processed[Ent(s, Pc(s, t).e).req] == Pc(s, t).res)
    && (forall r :: r in s.returned ==> Answer(s, r, s.returned[r]))
  }

  /** An activity that is about to post a callback has the request's result; once that has failed, its code
    * is the one the posting ended with. */
  predicate PostingOk(s: State, pc: PC) {
    Flight(pc).Some? && pc.c.CbOf? ==>
      && pc.c.r in s.processed
      && if pc.Get? then s.processed[pc.c.r] == pc.c.res && pc.c.r !in s.posts
         else pc.c.r in s.posts && s.posts[pc.c.r] == pc.code != OK
  }

  /** A callback entry has the request's result, and once it is queued its posting has succeeded. */
  predicate CallbackOk(s: State, e: Eid) {
    var r := Ent(s, e).req;
    && r in s.processed && s.processed[r] == Ent(s, e).res
    && if Where(s, e).Hand? && Pc(s, Where(s, e).t).Ins? then r !in s.posts else r in s.posts && s.posts[r] == OK
  }

  /** What a callback was given, by who called it. */
  predicate CallOk(s: State, c: Call) {
    match c.maker
    case Dispatcher =>
      c.req in s.processed && c.code == s.processed[c.req] && c.req in s.posts && s.posts[c.req] == OK
    case InboundClear => c.code == NOTATTACHED && c.req !in s.processed
    case FailedPost => c.req in s.processed && c.req in s.posts && s.posts[c.req] == c.code != OK
  }

  /** A new request is asynchronous iff its call is, and only asynchronous ones have callbacks. */
  predicate KindOk(s: State, pc: PC) {
    && (Starting(pc) ==> (pc.c.Async? <==> pc.c.r in s.asyncs))
    && (Flight(pc).Some? && pc.c.CbOf? ==> pc.c.r in s.asyncs)
  }

  predicate EntryKind(s: State, e: Eid) { Ent(s, e).cb <==> Ent(s, e).req in s.asyncs }

  ghost predicate KindInv(s: State) {
    && (forall t :: KindOk(s, Pc(s, t)))
    && (forall e :: Carries(s, e) ==> EntryKind(s, e))
    && (forall r :: r in s.asyncs ==> r < s.nextReq)
  }

  ghost predicate CallbackInv(s: State) { PostInv(s) && KindInv(s) }

  ghost predicate PostInv(s: State) {
    && (forall t :: PostingOk(s, Pc(s, t)))
    && (forall e :: Carries(s, e) && Ent(s, e).typ.UserReqCallback? ==> CallbackOk(s, e))
    && (forall i :: 0 <= i < |s.calls| ==> CallOk(s, s.calls[i]))
    && (forall r :: r in s.posts ==> r in s.processed)
  }

  ghost predicate RequestInv(s: State) { TicketInv(s) && RunInv(s) && AnswerInv(s) && CallbackInv(s) }

  // ----- one step of activity t that touches entry e and the ticket of request r -----

  /** The step makes no entry but e a carrier. */
  ghost predicate Carried(s: State, s': State, t: Tid, e: Eid) {
    Only(s, s', t, e) && forall x :: x != e ==> !CarrierHand(Pc(s', t), x)
  }

  lemma CarriedOthers(s: State, s': State, t: Tid, e: Eid)
    requires Carried(s, s', t, e)
    ensures forall x :: x != e && Carries(s', x) ==> Carries(s, x)
  {
  }

  /** The step makes the callback of r. */
  predicate CalledNow(s: State, s': State, r: Rid) {
    s'.calls != [] && s'.calls == s.calls + [Last(s'.calls)] && Last(s'.calls).req == r
  }

  function Last<T>(s: seq<T>): T
    requires s != []
  {
    s[|s| - 1]
  }

  lemma TicketMove(s: State, s': State, t: Tid, e: Eid, r: Rid)
    requires TicketInv(s) && Carried(s, s', t, e) && s'.nextReq == s.nextReq
    requires forall q :: q != r ==> TicketOf(s', q) == TicketOf(s, q)
    requires TicketOf(s', r) == TicketOf(s, r) || TicketOf(s, r) == InFlight(t) || TicketOf(s, r) == Armed(e)
    requires Carries(s', e) ==> TicketOf(s', Ent(s', e).req) == Armed(e)
    requires Flight(Pc(s', t)).Some? ==> TicketOf(s', Flight(Pc(s', t)).value) == InFlight(t)
    requires s'.calls == s.calls || (CalledNow(s, s', r) && TicketOf(s, r) != Fired && TicketOf(s', r) == Fired)
    ensures TicketInv(s')
  {
    CarriedOthers(s, s', t, e);
    hide Carried;
  }

  lemma RunMove(s: State, s': State, t: Tid, e: Eid, r: Rid)
    requires TicketInv(s) && RunInv(s) && Carried(s, s', t, e)
    requires forall q :: q != r ==> TicketOf(s', q) == TicketOf(s, q)
    requires TicketOf(s', r) == TicketOf(s, r) ||
             (TicketOf(s, r) in {InFlight(t), Armed(e)} && TicketOf(s', r) != Unborn)
    requires Carries(s', e) && Ent(s', e).typ.UserReq? ==> Ent(s', e).req !in s'.processed
    requires Starting(Pc(s', t)) ==> Pc(s, t) == Pc(s', t)
    requires if s'.processed.Keys == s.processed.Keys then s'.runs == s.runs
             else s'.runs == s.runs + [r] && s'.processed.Keys == s.processed.Keys + {r} && TicketOf(s, r) == Armed(e)
    requires s'.clearedReqs == s.clearedReqs ||
             (s'.clearedReqs == s.clearedReqs + {r} && TicketOf(s', r) == Spent && r !in s'.processed)
    ensures RunInv(s')
  {
    CarriedOthers(s, s', t, e);
    hide Carried;
    RunHistory(s, s', r);
    forall x | Carries(s', x) && Ent(s', x).typ.UserReq? ensures Ent(s', x).req !in s'.processed {
      if x != e {
        assert Carries(s, x) && Ent(s', x) == Ent(s, x);
      }
    }
    forall u | Starting(Pc(s', u)) ensures Pc(s', u).c.r !in s'.processed {
      assert Starting(Pc(s, u)) && Flight(Pc(s, u)) == Some(Pc(s, u).c.r);
    }
  }

  lemma RunHistory(s: State, s': State, r: Rid)
    requires RunInv(s)
    requires forall q :: q != r ==> TicketOf(s', q) == TicketOf(s, q)
    requires TicketOf(s', r) == TicketOf(s, r) || (TicketOf(s, r) != Spent && TicketOf(s', r) != Unborn)
    requires if s'.processed.Keys == s.processed.Keys then s'.runs == s.runs
             else s'.runs == s.runs + [r] && s'.processed.Keys == s.processed.Keys + {r} && TicketOf(s, r).Armed?
    requires s'.clearedReqs == s.clearedReqs ||
             (s'.clearedReqs == s.clearedReqs + {r} && TicketOf(s', r) == Spent && r !in s'.processed)
    ensures Distinct(s'.runs)
    ensures forall q :: q in s'.processed <==> q in s'.processed.Keys
    ensures forall q :: q in s'.processed ==> q in s.processed || (q == r && TicketOf(s, r).Armed?)
    ensures forall q :: q in s'.runs <==> q in s'.processed
    ensures forall q :: q in s'.processed ==> TicketOf(s', q) != Unborn
    ensures forall q :: q in s'.clearedReqs ==> TicketOf(s', q) == Spent && q !in s'.processed
  {
    hide Carries, Starting;
    assert forall q :: q in s'.processed.Keys <==> q in s'.processed;
    assert forall q :: q in s.processed.Keys <==> q in s.processed;
    if s'.processed.Keys != s.processed.Keys {
      assert r !in s.processed by {
        assert r !in s.processed.Keys;
      }
    }
  }

  ghost predicate Grows(s: State, s': State) {
    && s.clearedReqs <= s'.clearedReqs
    && (forall r :: r in s.processed ==> r in s'.processed && s'.processed[r] == s.processed[r])
  }

  lemma AnswerMove(s: State, s': State, t: Tid, e: Eid)
    requires AnswerInv(s) && Only(s, s', t, e) && Grows(s, s')
    requires forall u :: u != t ==> e !in Hands(Pc(s, u))
    requires forall u :: u != t && SyncOf(Pc(s, u)) == Some(e) ==>
      Ent(s', e).waiting || Answer(s', SyncReq(Pc(s, u)), Ent(s', e).res)
    requires SyncOf(Pc(s', t)).Some? ==>
      Ent(s', SyncOf(Pc(s', t)).value).waiting || Answer(s', SyncReq(Pc(s', t)), Ent(s', SyncOf(Pc(s', t)).value).res)
    requires Pc(s', t).WaitDone? ==> Answer(s', Pc(s', t).r, Ent(s', Pc(s', t).e).res)
    requires Pc(s', t).DispSig? ==>
      Ent(s', Pc(s', t).e).req in s'.processed && s'.processed[Ent(s', Pc(s', t).e).req] == Pc(s', t).res
    requires forall r :: r in s'.returned ==>
      (r in s.returned && s'.returned[r] == s.returned[r]) || Answer(s', r, s'.returned[r])
    ensures AnswerInv(s')
  {
    assert forall r, x :: Answer(s, r, x) ==> Answer(s', r, x);
    forall u | Pc(s', u).WaitDone? ensures Answer(s', Pc(s', u).r, Ent(s', Pc(s', u).e).res) {
      if u != t {
        assert Pc(s, u).e in Hands(Pc(s, u));
      }
    }
    forall u | Pc(s', u).DispSig?
      ensures Ent(s', Pc(s', u).e).req in s'.processed && s'.processed[Ent(s', Pc(s', u).e).req] == Pc(s', u).res
    {
      if u != t {
        assert Pc(s, u).e in Hands(Pc(s, u));
      }
    }
  }

  /** Whose ticket lets activity t, with entry e, write down something about request r. */
  predicate May(s: State, t: Tid, e: Eid, r: Rid) { TicketOf(s, r) == InFlight(t) || TicketOf(s, r) == Armed(e) }

  lemma CallbackMove(s: State, s': State, t: Tid, e: Eid, r: Rid)
    requires TicketInv(s) && CallbackInv(s) && Carried(s, s', t, e) && Grows(s, s')
    requires forall q :: q in s'.processed && q !in s.processed ==> May(s, t, e, q)
    requires s'.posts == s.posts ||
             (r in s'.posts && r in s'.processed && s'.posts == s.posts[r := s'.posts[r]] && May(s, t, e, r))
    requires PostingOk(s', Pc(s', t))
    requires Carries(s', e) && Ent(s', e).typ.UserReqCallback? ==> CallbackOk(s', e)
    requires s'.calls == s.calls || (CalledNow(s, s', r) && CallOk(s', Last(s'.calls)))
    requires s'.asyncs == s.asyncs && s'.nextReq == s.nextReq
    requires KindOk(s', Pc(s', t)) && (Carries(s', e) ==> EntryKind(s', e))
    ensures CallbackInv(s')
  {
    hide TicketInv, PostInv, KindInv, Carried, CallOk, PostingOk, CallbackOk, Carries, EntryKind, KindOk;
    PostMove(s, s', t, e, r);
    KindMove(s, s', t, e);
  }

  lemma KindMove(s: State, s': State, t: Tid, e: Eid)
    requires KindInv(s) && Carried(s, s', t, e)
    requires s'.asyncs == s.asyncs && s'.nextReq == s.nextReq
    requires KindOk(s', Pc(s', t)) && (Carries(s', e) ==> EntryKind(s', e))
    ensures KindInv(s')
  {
    hide Starting, Flight;
    CarriedOthers(s, s', t, e);
    hide Carries, CarrierHand;
    forall u ensures KindOk(s', Pc(s', u)) {
      assert u != t ==> KindOk(s, Pc(s, u)) && Pc(s', u) == Pc(s, u);
    }
    forall x | Carries(s', x) ensures EntryKind(s', x) {
      assert x != e ==> Carries(s, x) && EntryKind(s, x) && Ent(s', x) == Ent(s, x);
    }
  }

  lemma PostMove(s: State, s': State, t: Tid, e: Eid, r: Rid)
    requires TicketInv(s) && PostInv(s) && Carried(s, s', t, e) && Grows(s, s')
    requires forall q :: q in s'.processed && q !in s.processed ==> May(s, t, e, q)
    requires s'.posts == s.posts ||
             (r in s'.posts && r in s'.processed && s'.posts == s.posts[r := s'.posts[r]] && May(s, t, e, r))
    requires PostingOk(s', Pc(s', t))
    requires Carries(s', e) && Ent(s', e).typ.UserReqCallback? ==> CallbackOk(s', e)
    requires s'.calls == s.calls || (CalledNow(s, s', r) && CallOk(s', Last(s'.calls)))
    ensures PostInv(s')
  {
    hide CallOk, PostingOk, CallbackOk, CarrierHand, Carries;
    CallsMove(s, s', t, e, r);
    PostingsMove(s, s', t, e, r);
    CallbacksMove(s, s', t, e, r);
  }

  lemma PostingsMove(s: State, s': State, t: Tid, e: Eid, r: Rid)
    requires TicketInv(s) && PostInv(s) && Carried(s, s', t, e) && Grows(s, s')
    requires s'.posts == s.posts || (r in s'.posts && s'.posts == s.posts[r := s'.posts[r]] && May(s, t, e, r))
    requires PostingOk(s', Pc(s', t))
    ensures forall u :: PostingOk(s', Pc(s', u))
  {
    hide Carries, CallOk, CallbackOk, CarrierHand;
    forall u ensures PostingOk(s', Pc(s', u)) {
      if u != t {
        assert PostingOk(s, Pc(s, u)) && Pc(s', u) == Pc(s, u);
      }
    }
  }

  lemma CallbacksMove(s: State, s': State, t: Tid, e: Eid, r: Rid)
    requires TicketInv(s) && PostInv(s) && Carried(s, s', t, e) && Grows(s, s')
    requires s'.posts == s.posts || (r in s'.posts && s'.posts == s.posts[r := s'.posts[r]] && May(s, t, e, r))
    requires Carries(s', e) && Ent(s', e).typ.UserReqCallback? ==> CallbackOk(s', e)
    ensures forall x :: Carries(s', x) && Ent(s', x).typ.UserReqCallback? ==> CallbackOk(s', x)
  {
    hide PostingOk, CallOk;
    CarriedOthers(s, s', t, e);
    forall x | Carries(s', x) && Ent(s', x).typ.UserReqCallback? ensures CallbackOk(s', x) {
      if x != e {
        assert Carries(s, x) && Ent(s', x) == Ent(s, x) && CallbackOk(s, x);
      }
    }
  }

  /** What past callbacks were given stands. */
  lemma CallsMove(s: State, s': State, t: Tid, e: Eid, r: Rid)
    requires TicketInv(s) && PostInv(s) && Grows(s, s')
    requires forall q :: q in s'.processed && q !in s.processed ==> May(s, t, e, q)
    requires s'.posts == s.posts || (r in s'.posts && s'.posts == s.posts[r := s'.posts[r]] && May(s, t, e, r))
    requires s'.calls == s.calls || (CalledNow(s, s', r) && CallOk(s', Last(s'.calls)))
    ensures forall i :: 0 <= i < |s'.calls| ==> CallOk(s', s'.calls[i])
  {
    hide Carries, PostingOk, CallbackOk;
    forall i | 0 <= i < |s'.calls| ensures CallOk(s', s'.calls[i]) {
      if i < |s.calls| {
        assert CallOk(s, s.calls[i]) && TicketOf(s, s.calls[i].req) == Fired;
      }
    }
  }

  /** The history of requests does not change. */
  ghost predicate SameRequests(s: State, s': State) {
    && s'.nextReq == s.nextReq && s'.tickets == s.tickets && s'.asyncs == s.asyncs
    && s'.calls == s.calls && s'.posts == s.posts && s'.runs == s.runs
    && s'.processed == s.processed && s'.clearedReqs == s.clearedReqs && s'.returned == s.returned
  }

  predicate FewerFlights(pc: PC, pc': PC) {
    && (Flight(pc') == None || Flight(pc') == Flight(pc))
    && (Flight(pc').Some? ==> !pc.Get? && !pc'.Get? && pc'.c == pc.c && pc'.code == pc.code)
    && (Starting(pc') ==> pc' == pc) && !pc'.WaitDone? && !pc'.DispSig?
  }

  lemma CallbackCalm(s: State, s': State, t: Tid, e: Eid)
    requires TicketInv(s) && CallbackInv(s) && SameRequests(s, s') && Carried(s, s', t, e)
    requires FewerFlights(Pc(s, t), Pc(s', t))
    requires Carries(s', e) ==>
      Carries(s, e) && Ent(s', e) == Ent(s, e) && (Ent(s, e).typ.UserReqCallback? ==> CallbackOk(s', e))
    ensures CallbackInv(s')
  {
    assert PostingOk(s, Pc(s, t));
    assert KindOk(s, Pc(s, t));
    if Carries(s', e) {
      assert EntryKind(s, e);
    }
    CallbackMove(s, s', t, e, 0);
  }

  predicate StillWaits(s: State, s': State, t: Tid) {
    var x := SyncOf(Pc(s, t));
    && SyncOf(Pc(s', t)) == x && SyncReq(Pc(s', t)) == SyncReq(Pc(s, t))
    && (x.Some? ==> Ent(s', x.value) == Ent(s, x.value))
  }

  lemma CalmMove(s: State, s': State, t: Tid, e: Eid)
    requires RequestInv(s) && SameRequests(s, s') && Only(s, s', t, e)
    requires Carried(s, s', t, e) && FewerFlights(Pc(s, t), Pc(s', t))
    requires Carries(s', e) ==> Carries(s, e) && Ent(s', e) == Ent(s, e)
    requires Carries(s', e) && Ent(s', e).typ.UserReqCallback? ==> CallbackOk(s', e)
    requires forall u :: u != t ==> e !in Hands(Pc(s, u))
    requires forall u :: u != t && SyncOf(Pc(s, u)) == Some(e) ==> Ent(s', e) == Ent(s, e)
    requires SyncOf(Pc(s', t)).Some? ==> Ent(s', SyncOf(Pc(s', t)).value).waiting || StillWaits(s, s', t)
    ensures RequestInv(s')
  {
    hide Carried, Carries, SyncOf, SyncReq, Flight, Starting;
    assert forall q :: TicketOf(s', q) == TicketOf(s, q);
    assert forall r, x :: Answer(s', r, x) == Answer(s, r, x);
    TicketMove(s, s', t, e, 0);
    RunMove(s, s', t, e, 0);
    AnswerMove(s, s', t, e);
    CallbackCalm(s, s', t, e);
  }
}
