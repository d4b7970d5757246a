/** The DISPATCHIN and DISPATCHOUT flags are scheduling tokens: whoever sets the flag owns the right to
  * put the phidget on the list, the list hands it to one dispatcher, and the dispatcher clears it. */
module DispatchToken {
  import opened Base
  import opened DispatchModel

  function ContToken(c: Cont): set<Key> { if c.CbOf? then {c.k} else {} }

  /** The tokens an activity holds. */
  function Tokens(pc: PC): set<Key> {
    match pc
    case Get(c, _) => ContToken(c)
    case Ins(c, _, _) => ContToken(c)
    case AtFlag(c, _, _, _) => ContToken(c)
    case AtRetain(c, _, _, _) => ContToken(c)
    case AtPlace(c, q, d, _) => ContToken(c) + {Key(q, d)}
    case AtWake(c, _, _) => ContToken(c)
    case ClrOut(c, _, _, _) => ContToken(c)
    case ClrOutRet(c, _, _, _, _) => ContToken(c)
    case Rej(c, _, _, _, _) => ContToken(c)
    case Done(c, _, _, _) => ContToken(c)
    case ScanDrop(_, p) => {Key(p, Out)}
    case Serve(k) => {k}
    case Disp(k, _, _) => {k}
    case DispSig(k, _, _, _) => {k}
    case DispEnd(k, _, _) => {k}
    case _ => {}
  }

  predicate Taking(pc: PC, k: Key) { pc.AtRetain? && Key(pc.q, pc.d) == k }

  predicate Scanning(pc: PC) { pc.Scan? || pc.ScanOpen? || pc.ScanDrop? }

  /** Whether the token of k stands for a reference the engine has already taken. */
  function Backed(s: State, k: Key): int { if Ch(s, k).tok.Listed? || Ch(s, k).tok.Held? then 1 else 0 }

  ghost predicate Flags(s: State) {
    forall k :: Ch(s, k).flag <==> Ch(s, k).tok != NoToken
  }

  ghost predicate Lists(s: State) {
    && (forall p :: p in s.inL <==> Ch(s, Key(p, In)).tok == Listed)
    && (forall p :: p in s.outL <==> Ch(s, Key(p, Out)).tok == Listed)
    && Distinct(s.inL) && Distinct(s.outL)
  }

  ghost predicate Holders(s: State) {
    && (forall t, k {:trigger k in Tokens(Pc(s, t))} :: k in Tokens(Pc(s, t)) ==> Ch(s, k).tok == Held(t))
    && (forall k :: Ch(s, k).tok.Held? ==> k in Tokens(Pc(s, Ch(s, k).tok.t)))
    && (forall t :: Pc(s, t).AtRetain? ==> Ch(s, Key(Pc(s, t).q, Pc(s, t).d)).tok == Taken(t))
    && (forall k :: Ch(s, k).tok.Taken? ==> Taking(Pc(s, Ch(s, k).tok.t), k))
    && (forall t :: Pc(s, t).AtPlace? ==> Key(Pc(s, t).q, Pc(s, t).d) !in ContToken(Pc(s, t).c))
  }

  ghost predicate Locked(s: State) {
    && (forall t :: Scanning(Pc(s, t)) ==> s.dlock == Some(t))
    && (s.dlock.Some? ==> Scanning(Pc(s, s.dlock.value)))
    && (forall t :: Pc(s, t).ScanOpen? ==> 0 <= Pc(s, t).i < |s.outL| && s.outL[Pc(s, t).i] == Pc(s, t).p)
    && (forall t :: Pc(s, t).Scan? ==> 0 <= Pc(s, t).i)
    && (forall t :: Pc(s, t).ScanDrop? ==> 0 <= Pc(s, t).i)
  }

  predicate RefEq(s: State, p: Pid) {
    && Ph(s, p).ext >= 0 && Ph(s, p).leaked >= 0
    && Ph(s, p).refcnt == Ph(s, p).ext + Ph(s, p).leaked + |Ph(s, p).leaving|
                          + Backed(s, Key(p, In)) + Backed(s, Key(p, Out))
  }

  ghost predicate Refs(s: State) {
    && (forall p :: RefEq(s, p))
    && (forall p, t {:trigger t in Ph(s, p).leaving} :: t in Ph(s, p).leaving ==> Pc(s, t) == Rel(p))
    && (forall t :: Pc(s, t).Rel? ==> t in Ph(s, Pc(s, t).p).leaving)
  }

  ghost predicate TokenInv(s: State) {
    Flags(s) && Lists(s) && Holders(s) && Locked(s) && Refs(s)
  }

  // ----- how one step of activity t may change each part -----

  ghost predicate Alone(s: State, s': State, t: Tid) {
    forall u :: u != t ==> Pc(s', u) == Pc(s, u)
  }

  /** Tokens that cannot belong to an activity other than t. */
  predicate Mine(x: Token, t: Tid) { x in {NoToken, Listed, Taken(t), Held(t)} }

  /** Activity t changes at most the token of k, and only while that is its own business. */
  ghost predicate Moves(s: State, s': State, t: Tid, k: Key) {
    && Alone(s, s', t)
    && (forall j :: j != k ==> Ch(s', j).flag == Ch(s, j).flag && Ch(s', j).tok == Ch(s, j).tok)
    && (Ch(s', k).flag <==> Ch(s', k).tok != NoToken)
    && Mine(Ch(s, k).tok, t) && Mine(Ch(s', k).tok, t)
    && Tokens(Pc(s', t)) - {k} == Tokens(Pc(s, t)) - {k}
    && (k in Tokens(Pc(s', t)) <==> Ch(s', k).tok == Held(t))
    && (forall j :: j != k ==> (Taking(Pc(s', t), j) <==> Taking(Pc(s, t), j)))
    && (Taking(Pc(s', t), k) <==> Ch(s', k).tok == Taken(t))
    && (Pc(s', t).AtPlace? ==> Key(Pc(s', t).q, Pc(s', t).d) !in ContToken(Pc(s', t).c))
  }

  lemma MovesKeep(s: State, s': State, t: Tid, k: Key)
    requires Flags(s) && Holders(s) && Moves(s, s', t, k)
    ensures Flags(s') && Holders(s')
  {
    forall u, j | j in Tokens(Pc(s', u)) ensures Ch(s', j).tok == Held(u) {
      if u == t && j != k {
        assert j in Tokens(Pc(s', t)) - {k};
      }
    }
    forall j | Ch(s', j).tok.Held? ensures j in Tokens(Pc(s', Ch(s', j).tok.t)) {
      if j != k && Ch(s', j).tok.t == t {
        assert j in Tokens(Pc(s, t)) - {k};
      }
    }
    forall u | Pc(s', u).AtRetain? ensures Ch(s', Key(Pc(s', u).q, Pc(s', u).d)).tok == Taken(u) {
      var j := Key(Pc(s', u).q, Pc(s', u).d);
      assert Taking(Pc(s', u), j);
      if u == t && j != k {
        assert Taking(Pc(s, t), j);
      }
    }
  }

  ghost predicate ListedSame(s: State, s': State) {
    forall j :: Ch(s', j).tok == Listed <==> Ch(s, j).tok == Listed
  }

  lemma ListsFrame(s: State, s': State)
    requires Lists(s) && ListedSame(s, s') && s'.inL == s.inL && s'.outL == s.outL
    ensures Lists(s')
  {
    forall p ensures p in s'.inL <==> Ch(s', Key(p, In)).tok == Listed {}
    forall p ensures p in s'.outL <==> Ch(s', Key(p, Out)).tok == Listed {}
  }

  ghost predicate OthersListedSame(s: State, s': State, k: Key) {
    && (forall j :: j != k ==> (Ch(s', j).tok == Listed <==> Ch(s, j).tok == Listed))
    && (if k.d == In then s'.outL == s.outL else s'.inL == s.inL)
  }

  lemma ListsAppend(s: State, s': State, k: Key)
    requires Lists(s) && OthersListedSame(s, s', k)
    requires Ch(s, k).tok != Listed && Ch(s', k).tok == Listed && Lst(s', k.d) == Lst(s, k.d) + [k.p]
    ensures Lists(s')
  {
    assert k.p !in Lst(s, k.d);
    forall p ensures p in s'.inL <==> Ch(s', Key(p, In)).tok == Listed {}
    forall p ensures p in s'.outL <==> Ch(s', Key(p, Out)).tok == Listed {}
  }

  lemma RemoveAtDistinct<T>(l: seq<T>, i: int)
    requires Distinct(l) && 0 <= i < |l|
    ensures Distinct(RemoveAt(l, i))
    ensures forall x :: x in RemoveAt(l, i) <==> x in l && x != l[i]
  {
    var r := RemoveAt(l, i);
    forall x | x in l && x != l[i] ensures x in r {
      var j :| 0 <= j < |l| && l[j] == x;
      assert r[if j < i then j else j - 1] == x;
    }
  }

  lemma ListsRemove(s: State, s': State, k: Key, i: int)
    requires Lists(s) && OthersListedSame(s, s', k)
    requires 0 <= i < |Lst(s, k.d)| && Lst(s, k.d)[i] == k.p && Lst(s', k.d) == RemoveAt(Lst(s, k.d), i)
    requires Ch(s', k).tok != Listed
    ensures Lists(s')
  {
    RemoveAtDistinct(Lst(s, k.d), i);
    forall p ensures p in s'.inL <==> Ch(s', Key(p, In)).tok == Listed {}
    forall p ensures p in s'.outL <==> Ch(s', Key(p, Out)).tok == Listed {}
  }

  lemma LockedMove(s: State, s': State, t: Tid)
    requires Locked(s) && Alone(s, s', t)
    requires s'.outL == s.outL || s.dlock == None || s.dlock == Some(t)
    requires s'.dlock == s.dlock || (s.dlock in {None, Some(t)} && s'.dlock in {None, Some(t)})
    requires Scanning(Pc(s', t)) <==> s'.dlock == Some(t)
    requires Pc(s', t).ScanOpen? ==> 0 <= Pc(s', t).i < |s'.outL| && s'.outL[Pc(s', t).i] == Pc(s', t).p
    requires Pc(s', t).Scan? ==> 0 <= Pc(s', t).i
    requires Pc(s', t).ScanDrop? ==> 0 <= Pc(s', t).i
    ensures Locked(s')
  {
  }

  /** For an activity that neither had nor gets dispatchLock for longer than one step. */
  lemma LockedFrame(s: State, s': State, t: Tid)
    requires Locked(s) && Alone(s, s', t) && s'.dlock == s.dlock && (s'.outL == s.outL || s.dlock == None)
    requires !Scanning(Pc(s, t)) && !Scanning(Pc(s', t))
    ensures Locked(s')
  {
    LockedMove(s, s', t);
  }

  lemma RefsMove(s: State, s': State, t: Tid, p: Pid)
    requires Refs(s) && Alone(s, s', t)
    requires forall q :: q != p ==> Ph(s', q) == Ph(s, q)
    requires forall j: Key :: j.p != p ==> Backed(s', j) == Backed(s, j)
    requires RefEq(s', p)
    requires Ph(s', p).leaving - {t} == Ph(s, p).leaving - {t}
    requires t in Ph(s', p).leaving <==> Pc(s', t) == Rel(p)
    requires Pc(s, t).Rel? ==> Pc(s, t).p == p
    requires Pc(s', t).Rel? ==> Pc(s', t).p == p
    ensures Refs(s')
  {
    forall q ensures RefEq(s', q) {
      assert RefEq(s, q);
      assert q != p ==>
        Backed(s', Key(q, In)) == Backed(s, Key(q, In)) && Backed(s', Key(q, Out)) == Backed(s, Key(q, Out));
    }
    forall q, u | u in Ph(s', q).leaving ensures Pc(s', u) == Rel(q) {
      if q == p && u != t {
        assert u in Ph(s', p).leaving - {t};
      }
    }
    forall u | Pc(s', u).Rel? ensures u in Ph(s', Pc(s', u).p).leaving {
      if u != t {
        assert u in Ph(s, Pc(s, u).p).leaving - {t};
      }
    }
  }

  lemma RefsFrame(s: State, s': State, t: Tid)
    requires Refs(s) && Alone(s, s', t)
    requires forall p :: Ph(s', p) == Ph(s, p)
    requires forall j :: Backed(s', j) == Backed(s, j)
    requires !Pc(s, t).Rel? && !Pc(s', t).Rel?
    ensures Refs(s')
  {
    forall q ensures RefEq(s', q) {
      assert RefEq(s, q);
      assert Backed(s', Key(q, In)) == Backed(s, Key(q, In)) && Backed(s', Key(q, Out)) == Backed(s, Key(q, Out));
    }
  }

  // ----- steps that move no token -----

  ghost predicate SameTokens(s: State, s': State) {
    && s'.inL == s.inL && s'.outL == s.outL && s'.dlock == s.dlock
    && (forall k :: Ch(s', k).flag == Ch(s, k).flag && Ch(s', k).tok == Ch(s, k).tok)
    && (forall p :: Ph(s', p) == Ph(s, p))
  }

  predicate Plain(pc: PC) {
    !pc.AtRetain? && !pc.AtPlace? && !Scanning(pc) && !pc.Rel?
  }

  ghost predicate Quiet(s: State, s': State, t: Tid) {
    && SameTokens(s, s') && Alone(s, s', t)
    && Plain(Pc(s, t)) && Plain(Pc(s', t)) && Tokens(Pc(s', t)) == Tokens(Pc(s, t))
  }

  lemma HoldersFrame(s: State, s': State, t: Tid)
    requires Flags(s) && Holders(s) && Quiet(s, s', t)
    ensures Flags(s') && Holders(s')
  {
  }

  lemma QuietStep(s: State, s': State, t: Tid)
    requires TokenInv(s) && Quiet(s, s', t)
    ensures TokenInv(s')
  {
    hide Flags, Lists, Holders, Locked, Refs;
    HoldersFrame(s, s', t);
    ListsFrame(s, s');
    LockedFrame(s, s', t);
    RefsFrame(s, s', t);
  }

  // ----- the steps that do -----

  lemma FlagMoves(s: State, t: Tid, c: Cont, q: Pid, d: Dir, e: Eid)
    requires Flags(s) && Holders(s) && Pc(s, t) == AtFlag(c, q, d, e) && !Ch(s, Key(q, d)).flag
    ensures Moves(s, StepFlag(s, t, c, q, d, e), t, Key(q, d)) && Ch(s, Key(q, d)).tok == NoToken
  {
  }

  lemma FlagStep(s: State, t: Tid, c: Cont, q: Pid, d: Dir, e: Eid)
    requires TokenInv(s) && Pc(s, t) == AtFlag(c, q, d, e)
    ensures TokenInv(StepFlag(s, t, c, q, d, e))
  {
    hide Flags, Lists, Holders, Locked, Refs;
    var s', k := StepFlag(s, t, c, q, d, e), Key(q, d);
    if Ch(s, k).flag {
      QuietStep(s, s', t);
    } else {
      FlagMoves(s, t, c, q, d, e);
      MovesKeep(s, s', t, k);
      ListsFrame(s, s');
      LockedFrame(s, s', t);
      RefsFrame(s, s', t);
    }
  }

  lemma RetainMoves(s: State, t: Tid, c: Cont, q: Pid, d: Dir, e: Eid)
    requires Flags(s) && Holders(s) && Pc(s, t) == AtRetain(c, q, d, e)
    ensures Moves(s, StepRetain(s, t, c, q, d, e), t, Key(q, d)) && Ch(s, Key(q, d)).tok == Taken(t)
  {
  }

  lemma RetainRefs(s: State, t: Tid, c: Cont, q: Pid, d: Dir, e: Eid)
    requires Refs(s) && Pc(s, t) == AtRetain(c, q, d, e) && Ch(s, Key(q, d)).tok == Taken(t)
    ensures Refs(StepRetain(s, t, c, q, d, e))
  {
    assert RefEq(s, q);
    RefsMove(s, StepRetain(s, t, c, q, d, e), t, q);
  }

  lemma RetainStep(s: State, t: Tid, c: Cont, q: Pid, d: Dir, e: Eid)
    requires TokenInv(s) && Pc(s, t) == AtRetain(c, q, d, e)
    ensures TokenInv(StepRetain(s, t, c, q, d, e))
  {
    hide Flags, Lists, Holders, Locked, Refs;
    var s', k := StepRetain(s, t, c, q, d, e), Key(q, d);
    RetainMoves(s, t, c, q, d, e);
    MovesKeep(s, s', t, k);
    ListsFrame(s, s');
    LockedFrame(s, s', t);
    RetainRefs(s, t, c, q, d, e);
  }

  lemma PlaceMoves(s: State, t: Tid, c: Cont, q: Pid, d: Dir, e: Eid)
    requires Flags(s) && Holders(s) && Pc(s, t) == AtPlace(c, q, d, e) && s.dlock == None
    ensures Moves(s, StepPlace(s, t, c, q, d, e), t, Key(q, d)) && Ch(s, Key(q, d)).tok == Held(t)
  {
    assert Key(q, d) in Tokens(Pc(s, t));
  }

  lemma PlaceStep(s: State, t: Tid, c: Cont, q: Pid, d: Dir, e: Eid)
    requires TokenInv(s) && Pc(s, t) == AtPlace(c, q, d, e)
    ensures TokenInv(StepPlace(s, t, c, q, d, e))
  {
    hide Flags, Lists, Holders, Locked, Refs;
    var s', k := StepPlace(s, t, c, q, d, e), Key(q, d);
    if s.dlock == None {
      PlaceMoves(s, t, c, q, d, e);
      MovesKeep(s, s', t, k);
      ListsAppend(s, s', k);
      LockedFrame(s, s', t);
      RefsFrame(s, s', t);
    }
  }

  lemma GoToStep(s: State, t: Tid, pc: PC)
    requires TokenInv(s) && Plain(Pc(s, t)) && Plain(pc) && Tokens(pc) == Tokens(Pc(s, t))
    ensures TokenInv(GoTo(s, t, pc))
  {
    hide TokenInv;
    QuietStep(s, GoTo(s, t, pc), t);
  }

  lemma WakeStep(s: State, t: Tid, c: Cont, q: Pid, e: Eid, ch: Choice)
    requires TokenInv(s) && Pc(s, t) == AtWake(c, q, e)
    ensures TokenInv(StepWake(s, t, c, q, e, ch))
  {
    hide TokenInv, GoTo;
    if s.dlock == None {
      if ch.yes && ch.other != t && Pc(s, ch.other) == Idle {
        WakeSpawns(s, t, c, q, e, ch.other);
      } else {
        GoToStep(s, t, Done(c, q, e, OK));
      }
    }
  }

  lemma WakeSpawns(s: State, t: Tid, c: Cont, q: Pid, e: Eid, u: Tid)
    requires TokenInv(s) && Pc(s, t) == AtWake(c, q, e) && u != t && Pc(s, u) == Idle
    ensures TokenInv(GoTo(GoTo(s, u, Loop), t, Done(c, q, e, OK)))
  {
    hide TokenInv;
    GoToStep(s, u, Loop);
    GoToStep(GoTo(s, u, Loop), t, Done(c, q, e, OK));
  }

  lemma FromListMoves(s: State, s': State, t: Tid, k: Key)
    requires Flags(s) && Holders(s) && !Pc(s', t).AtRetain? && !Pc(s', t).AtPlace?
    requires Tokens(Pc(s, t)) == {} && !Pc(s, t).AtRetain?
    requires Alone(s, s', t) && Tokens(Pc(s', t)) == {k} && Ch(s, k).tok == Listed
    requires forall j :: j != k ==> Ch(s', j) == Ch(s, j)
    requires Ch(s', k) == Ch(s, k).(tok := Held(t))
    ensures Moves(s, s', t, k)
  {
  }

  /** Taking or leaving dispatchLock, or moving along the list, moves no token. */
  lemma ScanKeeps(s: State, s': State, t: Tid)
    requires TokenInv(s) && Alone(s, s', t) && s'.ch == s.ch && s'.ph == s.ph && s'.inL == s.inL && s'.outL == s.outL
    requires Tokens(Pc(s, t)) == {} && !Pc(s, t).AtRetain? && !Pc(s, t).Rel?
    requires Tokens(Pc(s', t)) == {} && !Pc(s', t).AtRetain? && !Pc(s', t).AtPlace? && !Pc(s', t).Rel?
    ensures Flags(s') && Lists(s') && Holders(s') && Refs(s')
  {
    hide Flags, Lists, Holders, Locked, Refs;
    ListsFrame(s, s');
    RefsFrame(s, s', t);
    HoldersScan(s, s', t);
  }

  lemma HoldersScan(s: State, s': State, t: Tid)
    requires Flags(s) && Holders(s) && Alone(s, s', t) && s'.ch == s.ch
    requires Tokens(Pc(s, t)) == {} && !Pc(s, t).AtRetain?
    requires Tokens(Pc(s', t)) == {} && !Pc(s', t).AtRetain? && !Pc(s', t).AtPlace?
    ensures Flags(s') && Holders(s')
  {
    assert forall k :: Ch(s', k) == Ch(s, k);
  }

  lemma LoopPop(s: State, t: Tid, ch: Choice)
    requires TokenInv(s) && Pc(s, t) == Loop && s.dlock == None && !ch.yes && s.inL != []
    ensures TokenInv(StepLoop(s, t, ch))
  {
    hide Flags, Holders, Locked, Refs, StepLoop;
    var s', k := StepLoop(s, t, ch), Key(s.inL[0], In);
    assert RemoveAt(s.inL, 0) == s.inL[1..];
    assert s.inL[0] in s.inL;
    LoopTakes(s, t, ch);
    FromListMoves(s, s', t, k);
    MovesKeep(s, s', t, k);
    ListsRemove(s, s', k, 0);
    LockedFrame(s, s', t);
    RefsFrame(s, s', t);
  }

  /** The first phidget on the inbound list, and with it its token. */
  lemma LoopTakes(s: State, t: Tid, ch: Choice)
    requires s.dlock == None && !ch.yes && s.inL != []
    ensures var s', k := StepLoop(s, t, ch), Key(s.inL[0], In);
      && s'.inL == s.inL[1..] && s'.outL == s.outL && s'.dlock == s.dlock && s'.ph == s.ph
      && Ch(s', k) == Ch(s, k).(tok := Held(t)) && (forall j :: j != k ==> Ch(s', j) == Ch(s, j))
      && Alone(s, s', t) && Pc(s', t) == Serve(k)
  {
  }

  lemma LoopStep(s: State, t: Tid, ch: Choice)
    requires TokenInv(s) && Pc(s, t) == Loop
    ensures TokenInv(StepLoop(s, t, ch))
  {
    hide Flags, Lists, Holders, Locked, Refs;
    var s' := StepLoop(s, t, ch);
    if s.dlock == None {
      if ch.yes {
        GoToStep(s, t, Idle);
      } else if s.inL != [] {
        LoopPop(s, t, ch);
      } else {
        LockedMove(s, s', t);
        ScanKeeps(s, s', t);
      }
    }
  }

  lemma ScanLock(s: State, t: Tid)
    requires Locked(s) && Scanning(Pc(s, t))
    ensures s.dlock == Some(t)
    ensures Pc(s, t).Scan? ==> 0 <= Pc(s, t).i
    ensures Pc(s, t).ScanOpen? ==> 0 <= Pc(s, t).i < |s.outL| && s.outL[Pc(s, t).i] == Pc(s, t).p
  {
  }

  lemma ScanPop(s: State, t: Tid, i: int)
    requires TokenInv(s) && Pc(s, t) == Scan(i) && 0 <= i < |s.outL|
    requires Ph(s, s.outL[i]).attached || Ph(s, s.outL[i]).detaching
    ensures TokenInv(StepScan(s, t, i))
  {
    hide Flags, Holders, Locked, Refs;
    var s', k := StepScan(s, t, i), Key(s.outL[i], Out);
    assert s.outL[i] in s.outL;
    ScanLock(s, t);
    FromListMoves(s, s', t, k);
    MovesKeep(s, s', t, k);
    ListsRemove(s, s', k, i);
    LockedMove(s, s', t);
    RefsFrame(s, s', t);
  }

  lemma ScanOn(s: State, t: Tid, i: int)
    requires TokenInv(s) && Pc(s, t) == Scan(i) && 0 <= i
    requires i < |s.outL| ==> !Ph(s, s.outL[i]).attached && !Ph(s, s.outL[i]).detaching
    ensures TokenInv(StepScan(s, t, i))
  {
    hide Flags, Lists, Holders, Locked, Refs;
    var s' := StepScan(s, t, i);
    ScanLock(s, t);
    LockedMove(s, s', t);
    ScanKeeps(s, s', t);
  }

  lemma ScanStep(s: State, t: Tid, i: int)
    requires TokenInv(s) && Pc(s, t) == Scan(i)
    ensures TokenInv(StepScan(s, t, i))
  {
    hide Flags, Lists, Holders, Locked, Refs, StepScan;
    ScanLock(s, t);
    if i < |s.outL| && (Ph(s, s.outL[i]).attached || Ph(s, s.outL[i]).detaching) {
      ScanPop(s, t, i);
    } else {
      ScanOn(s, t, i);
    }
  }

  lemma ScanOpenPop(s: State, t: Tid, i: int, p: Pid)
    requires TokenInv(s) && Pc(s, t) == ScanOpen(i, p) && !Ph(s, p).open
    ensures TokenInv(StepScanOpen(s, t, i, p))
  {
    hide Flags, Holders, Locked, Refs;
    var s', k := StepScanOpen(s, t, i, p), Key(p, Out);
    ScanLock(s, t);
    assert s.outL[i] in s.outL;
    FromListMoves(s, s', t, k);
    MovesKeep(s, s', t, k);
    ListsRemove(s, s', k, i);
    LockedMove(s, s', t);
    RefsFrame(s, s', t);
  }

  lemma ScanOpenStep(s: State, t: Tid, i: int, p: Pid)
    requires TokenInv(s) && Pc(s, t) == ScanOpen(i, p)
    ensures TokenInv(StepScanOpen(s, t, i, p))
  {
    hide Flags, Lists, Holders, Locked, Refs;
    if Ph(s, p).open {
      ScanLock(s, t);
      LockedMove(s, StepScanOpen(s, t, i, p), t);
      ScanKeeps(s, StepScanOpen(s, t, i, p), t);
    } else {
      ScanOpenPop(s, t, i, p);
    }
  }

  lemma ScanDropMoves(s: State, t: Tid, i: int, p: Pid)
    requires Flags(s) && Holders(s) && Pc(s, t) == ScanDrop(i, p)
    ensures Moves(s, StepScanDrop(s, t, i, p), t, Key(p, Out)) && Ch(s, Key(p, Out)).tok == Held(t)
  {
    assert Key(p, Out) in Tokens(Pc(s, t));
  }

  lemma ScanDropRefs(s: State, t: Tid, i: int, p: Pid)
    requires Refs(s) && Pc(s, t) == ScanDrop(i, p) && Ch(s, Key(p, Out)).tok == Held(t)
    ensures Refs(StepScanDrop(s, t, i, p))
  {
    assert RefEq(s, p);
    RefsMove(s, StepScanDrop(s, t, i, p), t, p);
  }

  lemma ScanDropStep(s: State, t: Tid, i: int, p: Pid)
    requires TokenInv(s) && Pc(s, t) == ScanDrop(i, p)
    ensures TokenInv(StepScanDrop(s, t, i, p))
  {
    hide Flags, Lists, Holders, Refs;
    var s', k := StepScanDrop(s, t, i, p), Key(p, Out);
    ScanDropMoves(s, t, i, p);
    MovesKeep(s, s', t, k);
    ListsFrame(s, s');
    LockedMove(s, s', t);
    ScanDropRefs(s, t, i, p);
  }

  lemma ServeMoves(s: State, t: Tid, k: Key)
    requires Flags(s) && Holders(s) && Pc(s, t) == Serve(k) && Leaves(s, k)
    ensures Moves(s, StepServe(s, t, k), t, k) && Ch(s, k).tok == Held(t)
  {
    assert k in Tokens(Pc(s, t));
  }

  lemma ServeRefs(s: State, t: Tid, k: Key)
    requires Refs(s) && Pc(s, t) == Serve(k) && Ch(s, k).tok == Held(t) && Leaves(s, k)
    ensures Refs(StepServe(s, t, k))
  {
    hide StepServe, Leaves, Refs;
    RefsKnown(s, t, k.p);
    ServeEffect(s, t, k);
    ServeCounts(s, StepServe(s, t, k), t, k);
    RefsMove(s, StepServe(s, t, k), t, k.p);
  }

  lemma RefsKnown(s: State, t: Tid, p: Pid)
    requires Refs(s)
    ensures RefEq(s, p) && (t in Ph(s, p).leaving ==> Pc(s, t) == Rel(p))
  {
  }

  /** What leaving the loop changes: the reference the token stood for becomes one that is about to be released. */
  lemma ServeEffect(s: State, t: Tid, k: Key)
    requires Leaves(s, k)
    ensures var s' := StepServe(s, t, k);
      && Ph(s', k.p) == Ph(s, k.p).(leaving := Ph(s, k.p).leaving + {t}) && Ch(s', k).tok == NoToken
      && (forall q :: q != k.p ==> Ph(s', q) == Ph(s, q)) && (forall j :: j != k ==> Ch(s', j) == Ch(s, j))
      && Alone(s, s', t) && Pc(s', t) == Rel(k.p)
  {
    hide Leaves, GateOpen;
  }

  lemma ServeCounts(s: State, s': State, t: Tid, k: Key)
    requires RefEq(s, k.p) && t !in Ph(s, k.p).leaving && Ch(s, k).tok == Held(t) && Ch(s', k).tok == NoToken
    requires Ph(s', k.p) == Ph(s, k.p).(leaving := Ph(s, k.p).leaving + {t})
    requires forall j :: j != k ==> Ch(s', j) == Ch(s, j)
    ensures RefEq(s', k.p)
  {
    assert |Ph(s, k.p).leaving + {t}| == |Ph(s, k.p).leaving| + 1;
    assert Backed(s', k) == Backed(s, k) - 1;
    var j := Key(k.p, if k.d == In then Out else In);
    assert Backed(s', j) == Backed(s, j);
  }

  lemma ServeLeaves(s: State, t: Tid, k: Key)
    requires TokenInv(s) && Pc(s, t) == Serve(k) && Leaves(s, k)
    ensures TokenInv(StepServe(s, t, k))
  {
    hide Flags, Lists, Holders, Locked, Refs;
    var s' := StepServe(s, t, k);
    ServeMoves(s, t, k);
    MovesKeep(s, s', t, k);
    ListsFrame(s, s');
    LockedFrame(s, s', t);
    ServeRefs(s, t, k);
  }

  lemma ServePops(s: State, t: Tid, k: Key)
    requires Pc(s, t) == Serve(k) && !Leaves(s, k)
    ensures Quiet(s, StepServe(s, t, k), t)
  {
    hide GateOpen;
  }

  lemma ServeStep(s: State, t: Tid, k: Key)
    requires TokenInv(s) && Pc(s, t) == Serve(k)
    ensures TokenInv(StepServe(s, t, k))
  {
    hide TokenInv, StepServe, Leaves, Quiet;
    if Leaves(s, k) {
      ServeLeaves(s, t, k);
    } else {
      ServePops(s, t, k);
      QuietStep(s, StepServe(s, t, k), t);
    }
  }

  lemma RelRefs(s: State, t: Tid, p: Pid)
    requires Refs(s) && Pc(s, t) == Rel(p)
    ensures Refs(StepRel(s, t, p))
  {
    assert RefEq(s, p);
    assert t in Ph(s, p).leaving;
    RefsMove(s, StepRel(s, t, p), t, p);
  }

  lemma RelStep(s: State, t: Tid, p: Pid)
    requires TokenInv(s) && Pc(s, t) == Rel(p)
    ensures TokenInv(StepRel(s, t, p))
  {
    hide Flags, Lists, Holders, Locked, Refs;
    var s' := StepRel(s, t, p);
    RelRefs(s, t, p);
    HoldersScan(s, s', t);
    ListsFrame(s, s');
    LockedFrame(s, s', t);
  }

  // The other lock regions leave the tokens alone, whatever their conditions say.

  /** The activity moves on to pc, and everything the tokens live in stays as it is. */
  lemma QuietPc(s: State, s': State, t: Tid, pc: PC)
    requires Plain(Pc(s, t)) && Plain(pc) && Tokens(pc) == Tokens(Pc(s, t))
    requires s'.ch == s.ch && s'.ph == s.ph && s'.inL == s.inL && s'.outL == s.outL && s'.dlock == s.dlock
    requires s'.pc == s.pc[t := pc]
    ensures Quiet(s, s', t)
  {
  }

  lemma QuietTake(s: State, t: Tid, c: Cont, q: Pid, e: Eid, locked: bool, empty: bool, surrender: bool)
    requires Pc(s, t) == Get(c, q)
    ensures Quiet(s, Take(s, t, c, q, e, locked, empty, surrender), t)
  {
    hide Quiet, PoolGet, PoolTake, Arming, Disarming;
    if locked {
      QuietSame(s, t);
    } else if empty {
      QuietPc(s, Take(s, t, c, q, e, false, true, surrender), t, Done(c, q, 0, AGAIN));
    } else if surrender {
      QuietPc(s, Take(s, t, c, q, e, false, false, true), t, Rej(c, q, e, NOENT, false));
    } else {
      QuietPc(s, Take(s, t, c, q, e, false, false, false), t, Ins(c, q, e));
    }
  }

  lemma QuietInsert(s: State, t: Tid, c: Cont, q: Pid, e: Eid, k: Key, drop: bool, shed: bool, full: bool)
    requires Pc(s, t) == Ins(c, q, e)
    ensures Quiet(s, Insert(s, t, c, q, e, k, drop, shed, full), t)
  {
    hide Quiet, Insert;
    if drop {
      QuietDropped(s, t, c, q, e, k, shed, full);
    } else if shed {
      QuietRefused(s, t, c, q, e, k, true, full);
    } else if full {
      QuietRefused(s, t, c, q, e, k, false, true);
    } else {
      QuietQueued(s, t, c, q, e, k);
    }
  }

  lemma QuietDropped(s: State, t: Tid, c: Cont, q: Pid, e: Eid, k: Key, shed: bool, full: bool)
    requires Pc(s, t) == Ins(c, q, e)
    ensures Quiet(s, Insert(s, t, c, q, e, k, true, shed, full), t)
  {
    hide Quiet, Disarming;
    QuietPc(s, Insert(s, t, c, q, e, k, true, shed, full), t, ClrOut(c, q, Some(e), NOTATTACHED));
  }

  lemma QuietRefused(s: State, t: Tid, c: Cont, q: Pid, e: Eid, k: Key, shed: bool, full: bool)
    requires Pc(s, t) == Ins(c, q, e) && (shed || full)
    ensures Quiet(s, Insert(s, t, c, q, e, k, false, shed, full), t)
  {
    hide Disarming, Quiet;
    if shed {
      QuietShed(s, t, c, q, e, k, full);
    } else {
      QuietFull(s, t, c, q, e, k);
    }
  }

  lemma QuietShed(s: State, t: Tid, c: Cont, q: Pid, e: Eid, k: Key, full: bool)
    requires Pc(s, t) == Ins(c, q, e)
    ensures Quiet(s, Insert(s, t, c, q, e, k, false, true, full), t)
  {
    hide Disarming, Posting;
  }

  lemma QuietFull(s: State, t: Tid, c: Cont, q: Pid, e: Eid, k: Key)
    requires Pc(s, t) == Ins(c, q, e)
    ensures Quiet(s, Insert(s, t, c, q, e, k, false, false, true), t)
  {
    hide Disarming, Posting;
  }

  lemma QuietQueued(s: State, t: Tid, c: Cont, q: Pid, e: Eid, k: Key)
    requires Pc(s, t) == Ins(c, q, e)
    ensures Quiet(s, Insert(s, t, c, q, e, k, false, false, false), t)
  {
  }

  lemma QuietClear(s: State, t: Tid, k: Key, pc: PC)
    requires Plain(Pc(s, t)) && Plain(pc) && Tokens(pc) == Tokens(Pc(s, t))
    ensures Quiet(s, ClearOne(s, t, k, pc), t)
  {
  }

  lemma QuietGoTo(s: State, t: Tid, pc: PC)
    requires Plain(Pc(s, t)) && Plain(pc) && Tokens(pc) == Tokens(Pc(s, t))
    ensures Quiet(s, GoTo(s, t, pc), t)
  {
  }

  lemma QuietClrOut(s: State, t: Tid, c: Cont, q: Pid, pend: Option<Eid>, code: Code)
    requires Pc(s, t) == ClrOut(c, q, pend, code)
    ensures Quiet(s, StepClrOut(s, t, c, q, pend, code), t)
  {
    hide Quiet, GoTo, ClearOne;
    if Ch(s, Key(q, Out)).has {
      QuietGoTo(s, t, Cleared(c, q, pend, code));
      QuietClear(s, t, Key(q, Out), ClrOutRet(c, q, Head(Ch(s, Key(q, Out)).q, 0), pend, code));
    } else {
      QuietSame(s, t);
    }
  }

  lemma QuietSame(s: State, t: Tid)
    requires Plain(Pc(s, t))
    ensures Quiet(s, s, t)
  {
  }

  lemma QuietReturn(s: State, t: Tid, e: Eid, pc: PC, locked: bool, asserted: bool)
    requires Plain(Pc(s, t)) && Plain(pc) && Tokens(pc) == Tokens(Pc(s, t))
    ensures Quiet(s, GiveBack(s, t, e, pc, locked, asserted), t)
  {
  }

  lemma QuietFinish(s: State, t: Tid, c: Cont, q: Pid, e: Eid, code: Code, ok: bool)
    requires Pc(s, t) == Done(c, q, e, code)
    ensures Quiet(s, Finish(s, t, c, e, code, ok), t)
  {
  }

  lemma QuietClearNext(s: State, t: Tid, p: Pid, d: Dir, out: bool, inb: bool)
    requires Pc(s, t) == ClrAll(p, d)
    ensures Quiet(s, ClearNext(s, t, p, out, inb), t)
  {
    hide Quiet, ClearOne, GoTo;
    QuietClear(s, t, Key(p, Out), ClrRet(p, Head(Ch(s, Key(p, Out)).q, 0), Out));
    QuietClear(s, t, Key(p, In), ClrIn(p, Head(Ch(s, Key(p, In)).q, 0)));
    QuietGoTo(s, t, Idle);
  }

  lemma QuietClearIn(s: State, t: Tid, p: Pid, x: Eid, ent: Entry, waited: bool, called: bool)
    requires Pc(s, t) == ClrIn(p, x)
    ensures Quiet(s, ClearIn(s, t, p, x, ent, waited, called), t)
  {
  }

  lemma QuietDispatch(s: State, t: Tid, k: Key, e: Eid, ret: bool, ent: Entry, code: Code, req: bool, callback: bool)
    requires Pc(s, t) == Disp(k, e, ret)
    ensures Quiet(s, Dispatch(s, t, k, e, ret, ent, code, req, callback), t)
  {
    hide Quiet;
    QuietPc(s, Dispatch(s, t, k, e, ret, ent, code, req, callback), t,
            if req && ent.cb then Get(CbOf(k, e, ret, ent.req, code), k.p)
            else if req then DispSig(k, e, ret, code) else DispEnd(k, e, ret));
  }

  lemma QuietWait(s: State, t: Tid, r: Rid, e: Eid)
    requires Pc(s, t) == Wait(r, e)
    ensures Quiet(s, StepWait(s, t, r, e), t)
  {
    hide Ent, Quiet;
    if Ent(s, e).waiting {
      QuietSame(s, t);
    } else {
      QuietPc(s, StepWait(s, t, r, e), t, WaitDone(r, e));
    }
  }

  lemma QuietWaitDone(s: State, t: Tid, r: Rid, e: Eid)
    requires Pc(s, t) == WaitDone(r, e)
    ensures Quiet(s, StepWaitDone(s, t, r, e), t)
  {
    hide Ent, Quiet, PoolReturn, PoolSet, Returned;
    if s.dlock.Some? {
      QuietSame(s, t);
    } else {
      QuietPc(s, StepWaitDone(s, t, r, e), t, Idle);
    }
  }

  lemma QuietDispSig(s: State, t: Tid, k: Key, e: Eid, ret: bool, res: Code)
    requires Pc(s, t) == DispSig(k, e, ret, res)
    ensures Quiet(s, StepDispSig(s, t, k, e, ret, res), t)
  {
    hide Ent;
  }

  lemma ActivityKeepsTokens(s: State, t: Tid, ch: Choice)
    requires TokenInv(s)
    ensures TokenInv(StepActivity(s, t, ch))
  {
    hide TokenInv, Quiet, Take, Insert, StepFlag, StepRetain, StepPlace, StepWake, StepClrOut, GiveBack,
         Finish, StepWait, StepWaitDone, ClearNext, ClearIn, StepLoop, StepScan, StepScanOpen, StepScanDrop, StepServe,
         Dispatch, StepDispSig, StepRel, Ent, PoolPick, PoolEmpty, Dropped, Shed, Full, DirOf;
    var s' := StepActivity(s, t, ch);
    match Pc(s, t)
    case Idle =>
    case Get(c, q) =>
      QuietTake(s, t, c, q, PoolPick(s.pool), s.dlock.Some?, PoolEmpty(s.pool), c.Post? && ch.yes);
      QuietStep(s, s', t);
    case Ins(c, q, e) =>
      QuietInsert(s, t, c, q, e, Key(q, DirOf(Ent(s, e))), Dropped(Ent(s, e), Ph(s, q)),
                  Shed(Ent(s, e), Ch(s, Key(q, DirOf(Ent(s, e))))), Full(Ent(s, e), Ch(s, Key(q, DirOf(Ent(s, e))))));
      QuietStep(s, s', t);
    case AtFlag(c, q, d, e) => FlagStep(s, t, c, q, d, e);
    case AtRetain(c, q, d, e) => RetainStep(s, t, c, q, d, e);
    case AtPlace(c, q, d, e) => PlaceStep(s, t, c, q, d, e);
    case AtWake(c, q, e) => WakeStep(s, t, c, q, e, ch);
    case ClrOut(c, q, pend, code) => QuietClrOut(s, t, c, q, pend, code); QuietStep(s, s', t);
    case ClrOutRet(c, q, x, pend, code) => ReturnStep(s, t, x, ClrOut(c, q, pend, code));
    case Rej(c, q, e, code, thenClear) =>
      ReturnStep(s, t, e, if thenClear && ch.yes then ClrOut(c, q, None, code) else Done(c, q, 0, code));
    case Done(c, q, e, code) => QuietFinish(s, t, c, q, e, code, code == OK); QuietStep(s, s', t);
    case Wait(r, e) => QuietWait(s, t, r, e); QuietStep(s, s', t);
    case WaitDone(r, e) => QuietWaitDone(s, t, r, e); QuietStep(s, s', t);
    case ClrAll(p, d) =>
      QuietClearNext(s, t, p, d, d == Out && Ch(s, Key(p, Out)).q != [], Ch(s, Key(p, In)).q != []);
      QuietStep(s, s', t);
    case ClrIn(p, x) =>
      QuietClearIn(s, t, p, x, Ent(s, x), Ent(s, x).noreturn,
                   (Ent(s, x).typ.UserReq? && Ent(s, x).cb) || Ent(s, x).typ.UserReqCallback?);
      QuietStep(s, s', t);
    case ClrRet(p, x, d) => ReturnStep(s, t, x, ClrAll(p, d));
    case Loop => LoopStep(s, t, ch);
    case Scan(i) => ScanStep(s, t, i);
    case ScanOpen(i, p) => ScanOpenStep(s, t, i, p);
    case ScanDrop(i, p) => ScanDropStep(s, t, i, p);
    case Serve(k) => ServeStep(s, t, k);
    case Disp(k, e, ret) =>
      QuietDispatch(s, t, k, e, ret, Ent(s, e), ch.code, Ent(s, e).typ.UserReq?, Ent(s, e).typ.UserReqCallback?);
      QuietStep(s, s', t);
    case DispSig(k, e, ret, res) => QuietDispSig(s, t, k, e, ret, res); QuietStep(s, s', t);
    case DispEnd(k, e, ret) =>
      if ret { ReturnStep(s, t, e, Serve(k)); } else { GoToStep(s, t, Serve(k)); }
    case Rel(p) => RelStep(s, t, p);
  }

  lemma ReturnStep(s: State, t: Tid, e: Eid, pc: PC)
    requires TokenInv(s) && Plain(Pc(s, t)) && Plain(pc) && Tokens(pc) == Tokens(Pc(s, t))
    ensures TokenInv(Returning(s, t, e, pc))
  {
    hide TokenInv, Quiet, Plain, GiveBack, Ent;
    QuietReturn(s, t, e, pc, s.dlock.Some?, Ent(s, e).noreturn);
    QuietStep(s, Returning(s, t, e, pc), t);
  }

  lemma ExtKnown(s: State, p: Pid)
    requires TokenInv(s)
    ensures Ph(s, p).ext >= 0
  {
    assert RefEq(s, p);
  }

  lemma PhidKeepsRefs(s: State, p: Pid, h: Phid)
    requires Refs(s)
    requires h.leaked == Ph(s, p).leaked && h.leaving == Ph(s, p).leaving && h.ext >= 0
    requires h.refcnt - h.ext == Ph(s, p).refcnt - Ph(s, p).ext
    ensures Refs(s.(ph := s.ph[p := h]))
  {
    var s' := s.(ph := s.ph[p := h]);
    assert forall k :: Ch(s', k) == Ch(s, k);
    assert forall t :: Pc(s', t) == Pc(s, t);
    assert forall q :: Ph(s', q).leaving == Ph(s, q).leaving;
    forall q ensures RefEq(s', q) {
      assert RefEq(s, q);
    }
    forall q, t | t in Ph(s', q).leaving ensures Pc(s', t) == Rel(q) {
      assert t in Ph(s, q).leaving;
    }
  }

  /** A change of a phidget's state bits, or of references held outside, and nothing else. */
  lemma PhidKeepsTokens(s: State, p: Pid, h: Phid)
    requires TokenInv(s)
    requires h.leaked == Ph(s, p).leaked && h.leaving == Ph(s, p).leaving && h.ext >= 0
    requires h.refcnt - h.ext == Ph(s, p).refcnt - Ph(s, p).ext
    ensures TokenInv(s.(ph := s.ph[p := h]))
  {
    hide Refs, Lists;
    var s' := s.(ph := s.ph[p := h]);
    PhidKeepsRefs(s, p, h);
    assert forall k :: Ch(s', k) == Ch(s, k);
    assert forall t :: Pc(s', t) == Pc(s, t);
    ListsFrame(s, s');
    assert Flags(s');
    assert Holders(s');
    assert Locked(s');
  }

  lemma CallKeepsTokens(s: State, s': State, t: Tid, pc: PC)
    requires TokenInv(s) && Pc(s, t).Idle? && Plain(pc) && Tokens(pc) == {}
    requires SameTokens(s, s') && s'.pc == s.pc[t := pc]
    ensures TokenInv(s')
  {
    hide TokenInv;
    QuietStep(s, s', t);
  }

  lemma CallTokens(s: State, s': State)
    ensures s'.ch == s.ch && s'.ph == s.ph && s'.inL == s.inL && s'.outL == s.outL && s'.dlock == s.dlock ==>
      SameTokens(s, s')
    ensures forall c: Cont, p :: !c.CbOf? ==> Tokens(Get(c, p)) == {}
    ensures forall p, d :: Tokens(ClrAll(p, d)) == {}
  {
  }

  lemma TokenStep(s: State, a: Action)
    requires TokenInv(s)
    ensures TokenInv(Step(s, a))
  {
    hide TokenInv, StepActivity, SameTokens, Tokens;
    var s' := Step(s, a);
    CallTokens(s, s');
    if !s.panicked {
      match a
      case Run(t, ch) => ActivityKeepsTokens(s, t, ch);
      case CallSync(t, p) => if Pc(s, t).Idle? { CallKeepsTokens(s, s', t, Get(Sync(s.nextReq), p)); }
      case CallAsync(t, p) => if Pc(s, t).Idle? { CallKeepsTokens(s, s', t, Get(Async(s.nextReq), p)); }
      case CallPost(t, p, typ) => if s' != s { CallKeepsTokens(s, s', t, Get(Post(typ), p)); }
      case CallClear(t, p) => if Pc(s, t).Idle? { CallKeepsTokens(s, s', t, ClrAll(p, Out)); }
      case SetState(p, o, at, ag, de) =>
        ExtKnown(s, p);
        PhidKeepsTokens(s, p, Ph(s, p).(open := o, attached := at, attaching := ag, detaching := de));
      case ExtRetain(p) =>
        ExtKnown(s, p);
        PhidKeepsTokens(s, p, Ph(s, p).(refcnt := Ph(s, p).refcnt + 1, ext := Ph(s, p).ext + 1));
      case ExtRelease(p) =>
        if Ph(s, p).ext > 0 {
          PhidKeepsTokens(s, p, Ph(s, p).(refcnt := Ph(s, p).refcnt - 1, ext := Ph(s, p).ext - 1));
        }
    }
  }

  lemma TokenInit()
    ensures TokenInv(INIT)
  {
  }

  lemma {:induction false} TokenAlways(actions: seq<Action>)
    ensures TokenInv(Exec(actions))
  {
    hide TokenInv, Step;
    if actions == [] {
      TokenInit();
    } else {
      TokenAlways(actions[..|actions|-1]);
      TokenStep(Exec(actions[..|actions|-1]), actions[|actions|-1]);
    }
  }
}
