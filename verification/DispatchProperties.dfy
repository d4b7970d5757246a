/** What the dispatch engine guarantees in every state a run can reach, and over whole runs. */
module DispatchProperties {
  import opened Base
  import opened DispatchModel
  import opened DispatchOwner
  import T = DispatchToken
  import O = DispatchOwnerSteps
  import R = DispatchTicket
  import RS = DispatchTicketSteps
  import F = DispatchFlow

  // ----- scheduling token -----

  /** Activity pc is placing k on its list, or serving k. */
  predicate Holds(pc: PC, k: Key) { T.Taking(pc, k) || k in T.Tokens(pc) }

  /** The flag is set iff k is listed or one activity has its token; never both, never twice. */
  lemma SchedulingToken(actions: seq<Action>, k: Key)
    ensures var s := Exec(actions);
      && (Ch(s, k).flag <==> k.p in Lst(s, k.d) || exists t :: Holds(Pc(s, t), k))
      && (forall i, j :: 0 <= i < j < |Lst(s, k.d)| ==> Lst(s, k.d)[i] != Lst(s, k.d)[j])
      && (forall t :: Holds(Pc(s, t), k) ==> k.p !in Lst(s, k.d))
      && (forall t, u :: Holds(Pc(s, t), k) && Holds(Pc(s, u), k) ==> t == u)
  {
    var s := Exec(actions);
    T.TokenAlways(actions);
    HolderToken(s, k);
    assert Lst(s, k.d) == if k.d == In then s.inL else s.outL;
    assert Distinct(Lst(s, k.d));
    if Ch(s, k).flag && k.p !in Lst(s, k.d) {
      var u := if Ch(s, k).tok.Taken? || Ch(s, k).tok.Held? then Ch(s, k).tok.t else 0;
      assert Holds(Pc(s, u), k);
    }
  }

  lemma HolderToken(s: State, k: Key)
    requires T.TokenInv(s)
    ensures forall t :: Holds(Pc(s, t), k) ==> Ch(s, k).tok == Taken(t) || Ch(s, k).tok == Held(t)
    ensures k.p in Lst(s, k.d) <==> Ch(s, k).tok == Listed
  {
    assert k == Key(k.p, k.d);
  }

  /** 1 if the engine itself has a reference for the token of k: it is listed, or an activity holds it. */
  ghost function TokenRef(s: State, k: Key): int {
    if k.p in Lst(s, k.d) || exists t :: k in T.Tokens(Pc(s, t)) then 1 else 0
  }

  /** Every listed or held token is backed by a reference of its own, on top of those held outside. */
  lemma TokensHoldReferences(actions: seq<Action>, p: Pid)
    ensures var s := Exec(actions);
      Ph(s, p).ext >= 0 && Ph(s, p).refcnt >= Ph(s, p).ext + TokenRef(s, Key(p, In)) + TokenRef(s, Key(p, Out))
  {
    var s := Exec(actions);
    T.TokenAlways(actions);
    assert T.RefEq(s, p);
    TokenRefBacked(s, Key(p, In));
    TokenRefBacked(s, Key(p, Out));
  }

  lemma TokenRefBacked(s: State, k: Key)
    requires T.TokenInv(s)
    ensures TokenRef(s, k) == T.Backed(s, k)
  {
    HolderToken(s, k);
    if Ch(s, k).tok.Held? {
      assert k in T.Tokens(Pc(s, Ch(s, k).tok.t));
    }
  }

  // ----- queues -----

  /** The activity is inside dispatchEntry for an entry of k. */
  predicate Dispatching(pc: PC, k: Key) {
    k in T.Tokens(pc) && !pc.Serve? && !pc.ScanDrop? && !(pc.AtPlace? && k == Key(pc.q, pc.d))
  }

  /** A waiting entry is on its way to a dispatcher: the phidget is listed, an activity has its token or
    * is about to look at its flag, or since the last insertion the gate was found shut. */
  lemma NoStrandedEntry(actions: seq<Action>, k: Key)
    ensures var s := Exec(actions);
      Ch(s, k).q != [] ==>
        || k.p in Lst(s, k.d)
        || (exists t :: Holds(Pc(s, t), k))
        || (exists t :: F.Flagging(Pc(s, t), k))
        || Ch(s, k).failed
  {
    var s := Exec(actions);
    F.FlowAlways(actions);
    assert F.Watched(s, k);
    SchedulingToken(actions, k);
  }

  /** dispatchEntry runs never overlap in one direction of one phidget; they start in the order of
    * insertion, and what they skip was removed by a clear. */
  lemma FirstInFirstOut(actions: seq<Action>, k: Key)
    ensures var s := Exec(actions); var c := Ch(s, k);
      && (forall t, u :: Dispatching(Pc(s, t), k) && Dispatching(Pc(s, u), k) ==> t == u)
      && (forall i, j :: 0 <= i < j < |c.log| ==> c.log[i] < c.log[j])
      && (forall i, n :: 0 <= i < |c.log| && 0 <= n < c.log[i] ==> n in c.log[..i] || n in c.cleared)
      && (forall n :: n in c.cleared ==> n !in c.log)
  {
    var s := Exec(actions);
    var c := Ch(s, k);
    F.FlowAlways(actions);
    assert F.FifoOk(c);
    var all := c.log + c.stamps;
    assert forall i :: 0 <= i < |c.log| ==> all[i] == c.log[i];
    forall i, j | 0 <= i < j < |c.log| ensures c.log[i] < c.log[j] {
      assert all[i] < all[j];
    }
    forall i, n | 0 <= i < |c.log| && 0 <= n < c.log[i] ensures n in c.log[..i] || n in c.cleared {
      Earlier(c, i, n);
    }
    SchedulingToken(actions, k);
    forall t, u | Dispatching(Pc(s, t), k) && Dispatching(Pc(s, u), k) ensures t == u {
      assert Holds(Pc(s, t), k) && Holds(Pc(s, u), k);
    }
  }

  lemma Earlier(c: Chan, i: int, n: int)
    requires F.FifoOk(c) && 0 <= i < |c.log| && 0 <= n < c.log[i]
    ensures n in c.log[..i] || n in c.cleared
  {
    var all := c.log + c.stamps;
    assert all[i] == c.log[i];
    assert c.log[i] in c.log;
    if n in c.log || n in c.stamps {
      assert n in all;
      var j :| 0 <= j < |all| && all[j] == n;
      assert j < i;
      assert c.log[..i][j] == n;
    }
  }

  // ----- the pool -----

  function Members(q: seq<Eid>): (r: set<Eid>) { set e | e in q }

  /** Allocated entries by where they are. */
  ghost function Allocated(s: State, f: Loc -> bool): set<Eid> { set e | e in s.pool.ents && f(Where(s, e)) }

  ghost function InQueues(s: State): set<Eid> { Allocated(s, (w: Loc) => w.Queued?) }
  ghost function InUse(s: State): set<Eid> { Allocated(s, (w: Loc) => w.Hand? || w.Claimed?) }

  lemma MembersSize(q: seq<Eid>)
    requires Distinct(q)
    ensures |Members(q)| == |q|
  {
    if q != [] {
      var n := |q| - 1;
      assert q == q[..n] + [q[n]];
      assert Members(q) == Members(q[..n]) + {q[n]};
      MembersSize(q[..n]);
    }
  }

  /** entryCount counts the free, queued and in-hand entries, each once; the pool and the queues are
    * bounded; and every free entry is blank. */
  lemma EntryAccounting(actions: seq<Action>)
    ensures var s := Exec(actions);
      && s.pool.count == |s.pool.free| + |InQueues(s)| + |InUse(s)| <= 32768
      && (s.pool.free != [] ==> s.pool.count < 256)
      && (forall e :: e in s.pool.free ==> Ent(s, e).typ.Nothing?)
      && (forall k :: Ch(s, k).count == |Ch(s, k).q| <= if k.d == In then 65 else 4097)
  {
    var s := Exec(actions);
    O.OwnerAlways(actions);
    forall k ensures Ch(s, k).count == |Ch(s, k).q| <= if k.d == In then 65 else 4097 {
      assert QueueOk(s, k);
    }
    Partition(s);
  }

  lemma Partition(s: State)
    requires OwnerInv(s)
    ensures s.pool.count == |s.pool.free| + |InQueues(s)| + |InUse(s)| <= ENTRY_MAX
  {
    hide QueueLoc, HandLoc, HandShape, QueueShape, SyncLoc;
    var free := Members(s.pool.free);
    MembersSize(s.pool.free);
    forall e ensures e in free + InQueues(s) + InUse(s) <==> e in s.pool.ents.Keys {
      assert e in s.pool.ents <==> Where(s, e) != Nowhere;
      assert e in s.pool.free <==> Where(s, e) == Free;
    }
    assert free + InQueues(s) + InUse(s) == s.pool.ents.Keys;
    assert free !! InQueues(s) + InUse(s) by {
      assert forall e :: e in free ==> Where(s, e) == Free;
    }
    assert InQueues(s) !! InUse(s);
    assert |s.pool.ents| == |s.pool.ents.Keys|;
  }

  /** An allocated entry is in exactly one place: the free list, one queue once, the hands of one activity,
    * or signalled to its waiter; and every entry in such a place is allocated. */
  lemma OneOwner(actions: seq<Action>, e: Eid)
    ensures var s := Exec(actions);
      && (e in s.pool.ents <==>
           || e in s.pool.free || (exists k :: e in Ch(s, k).q) || (exists t :: e in Hands(Pc(s, t)))
           || (exists t :: SyncOf(Pc(s, t)) == Some(e) && !Ent(s, e).waiting))
      && (e in s.pool.free ==> forall k, t :: e !in Ch(s, k).q && e !in Hands(Pc(s, t)) && SyncOf(Pc(s, t)) != Some(e))
      && (forall k, t :: e in Ch(s, k).q ==> e !in Hands(Pc(s, t)))
      && (forall k, j :: e in Ch(s, k).q && e in Ch(s, j).q ==> k == j)
      && (forall t, u :: e in Hands(Pc(s, t)) && e in Hands(Pc(s, u)) ==> t == u)
      && (forall t, u :: SyncOf(Pc(s, t)) == Some(e) && SyncOf(Pc(s, u)) == Some(e) ==> t == u)
      && (forall i, j :: 0 <= i < j < |s.pool.free| ==> s.pool.free[i] != s.pool.free[j])
      && (forall k: Key, i, j :: 0 <= i < j < |Ch(s, k).q| ==> Ch(s, k).q[i] != Ch(s, k).q[j])
  {
    var s := Exec(actions);
    O.OwnerAlways(actions);
    Places(s, e);
    forall k: Key ensures Distinct(Ch(s, k).q) {
      assert QueueOk(s, k);
    }
  }

  lemma Places(s: State, e: Eid)
    requires OwnerInv(s)
    ensures e in s.pool.free <==> Where(s, e) == Free
    ensures forall k :: e in Ch(s, k).q <==> Where(s, e) == Queued(k)
    ensures forall t :: e in Hands(Pc(s, t)) <==> Where(s, e) == Hand(t)
    ensures forall t :: SyncOf(Pc(s, t)) == Some(e) ==> SyncAt(s, t, e)
    ensures Where(s, e).Claimed? ==> SyncOf(Pc(s, Where(s, e).t)) == Some(e)
    ensures e in s.pool.ents <==> Where(s, e) != Nowhere
  {
    forall k ensures e in Ch(s, k).q <==> Where(s, e) == Queued(k) {
      assert QueueOk(s, k);
    }
    forall t | SyncOf(Pc(s, t)) == Some(e) ensures SyncAt(s, t, e) {
      O.SyncAtKnown(s, t);
    }
  }

  // ----- user requests -----

  /** bridgeInput runs on each request at most once, and each request is called back at most once. */
  lemma AtMostOnce(actions: seq<Action>)
    ensures var s := Exec(actions);
      && (forall i, j :: 0 <= i < j < |s.runs| ==> s.runs[i] != s.runs[j])
      && (forall i, j :: 0 <= i < j < |s.calls| ==> s.calls[i].req != s.calls[j].req)
  {
    RS.RequestAlways(actions);
  }

  /** A synchronous caller gets the result of its own request, or NOTATTACHED if a clear removed it, and
    * those two exclude each other. */
  lemma SynchronousAnswer(actions: seq<Action>, r: Rid)
    ensures var s := Exec(actions); r in s.returned ==>
      && (r in s.processed <==> r !in s.clearedReqs)
      && s.returned[r] == if r in s.processed then s.processed[r] else NOTATTACHED
  {
    RS.RequestAlways(actions);
    var s := Exec(actions);
    assert r in s.returned ==> R.Answer(s, r, s.returned[r]);
  }
}
