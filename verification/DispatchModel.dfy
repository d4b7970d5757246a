/** The dispatch engine as a step system.
  *
  * A state holds the phidgets, their inbound and outbound queues, the two global lists, the entry
  * pool and one program counter per activity.  One step is one lock region of the C code (or a
  * stretch of code that touches only what the activity owns).  An activity is one call in progress:
  * a dispatcher thread, or a producer's call into the engine.  Calls made from inside a user callback
  * are activities of their own, which allows every interleaving the real nesting allows.
  *
  * Fields marked "history" are written by the steps but never read by a guard.
  */
module DispatchModel {
  import opened Base

  type Pid = int
  type Tid = int
  type Eid = int
  type Rid = int
  type Code = int

  const OK: Code := 0
  const NOENT: Code := 0x2
  const NOSPC: Code := 0x10
  const AGAIN: Code := 0x16
  const NOTATTACHED: Code := 0x34

  const PHID_IMAX := 64
  const PHID_OSOFTMAX := 200
  const PHID_OHARDMAX := 4096
  const ENTRY_MAX := 32768
  const ENTRY_DESIRED := 256

  datatype Dir = In | Out

  /** A phidget together with one of its two directions. */
  datatype Key = Key(p: Pid, d: Dir)

  /** The entry types, with the attach, detach, status and manager types folded into Lifecycle. */
  datatype EType = Nothing | Lifecycle | UserReq | UserReqCallback | ChannelPkt | ClientPkt | ServerPkt

  predicate CanThrowAway(t: EType) {
    t.ChannelPkt? || t.ClientPkt? || t.ServerPkt?
  }

  predicate AfterNotDetaching(t: EType) {
    t.UserReqCallback? || CanThrowAway(t)
  }

  function SoftMax(d: Dir): int { if d == Out then PHID_OSOFTMAX else PHID_IMAX }
  function HardMax(d: Dir): int { if d == Out then PHID_OHARDMAX else PHID_IMAX }

  /** req and taker are history: the user request an entry stands for and the activity that took it. */
  datatype Entry = Entry(typ: EType, onlist: bool, inbound: bool, waiting: bool, noreturn: bool,
                         cb: bool, res: Code, req: Rid, taker: Tid)

  const BLANK := Entry(Nothing, false, false, false, false, false, 0, 0, 0)

  /** The entry pool: the free list, entryCount and the allocated entries.  next is history. */
  datatype Pool = Pool(free: seq<Eid>, count: int, ents: map<Eid, Entry>, next: Eid)

  function PEnt(p: Pool, e: Eid): Entry { if e in p.ents then p.ents[e] else BLANK }

  // getDispatchEntry under dispatchLock: take the head of the free list, or allocate.

  predicate PoolEmpty(p: Pool) { p.free == [] && p.count >= ENTRY_MAX }

  function PoolPick(p: Pool): Eid { if p.free == [] then p.next else p.free[0] }

  function PoolGet(p: Pool): Pool {
    if p.free == [] then
      p.(count := p.count + 1, ents := p.ents[p.next := BLANK.(waiting := true)], next := p.next + 1)
    else
      p.(free := p.free[1..], ents := p.ents[p.free[0] := PEnt(p, p.free[0]).(onlist := false, waiting := true)])
  }

  /** cleanDispatchEntry, as far as the entry's own header goes. */
  function Cleaned(ent: Entry): Entry {
    if ent.typ == Nothing then ent
    else ent.(typ := Nothing, onlist := false, inbound := false, waiting := false, noreturn := false)
  }

  /** returnDispatchEntry after its assertion. */
  function PoolReturn(p: Pool, e: Eid): Pool {
    if p.count >= ENTRY_DESIRED then p.(count := p.count - 1, ents := p.ents - {e})
    else p.(free := [e] + p.free, ents := p.ents[e := Cleaned(PEnt(p, e)).(onlist := true)])
  }

  function PoolSet(p: Pool, e: Eid, ent: Entry): Pool { p.(ents := p.ents[e := ent]) }

  /** history: where the scheduling token of a Key is. */
  datatype Token = NoToken | Taken(t: Tid) | Listed | Held(t: Tid)

  /** history: where an entry is.  Claimed is a synchronous entry whose WAITING bit has been cleared
    * but whose waiter has not noticed yet. */
  datatype Loc = Nowhere | Free | Queued(k: Key) | Hand(t: Tid) | Claimed(t: Tid)

  /** history: who may act on a user request next: the call that makes it or that posts its callback,
    * or the queued entry that carries it.  Fired means its callback has been called, Spent that nobody
    * will act on it any more. */
  datatype Ticket = Unborn | InFlight(t: Tid) | Armed(e: Eid) | Fired | Spent

  /** One direction of one phidget: its flag bit, its queue and whether the handle is allocated.
    * tok, failed, stamps, inserted, log and cleared are history: stamps runs parallel to q, and log
    * lists the stamps in the order dispatchEntry was started on them. */
  datatype Chan = Chan(flag: bool, has: bool, q: seq<Eid>, count: int,
                       tok: Token, failed: bool, stamps: seq<int>, inserted: int, log: seq<int>, cleared: set<int>)

  const NO_CHAN := Chan(false, false, [], 0, NoToken, false, [], 0, [], {})

  /** ext, leaked and leaving are history: references held outside the engine, references the
    * outbound list dropped without releasing, and dispatchers about to release theirs. */
  datatype Phid = Phid(open: bool, attached: bool, attaching: bool, detaching: bool, refcnt: int,
                       ext: int, leaked: int, leaving: set<Tid>)

  const NO_PHID := Phid(false, false, false, false, 0, 0, 0, {})

  /** Who called getDispatchEntry, and what has to happen afterwards.  CbOf is a dispatcher that is
    * serving k and posting the callback of the request entry e. */
  datatype Cont =
    | Post(typ: EType)
    | Sync(r: Rid)
    | Async(r: Rid)
    | CbOf(k: Key, e: Eid, ret: bool, r: Rid, res: Code)

  datatype PC =
    | Idle
    // getDispatchEntry, insertDispatchEntry
    | Get(c: Cont, q: Pid)
    | Ins(c: Cont, q: Pid, e: Eid)
    | AtFlag(c: Cont, q: Pid, d: Dir, e: Eid)
    | AtRetain(c: Cont, q: Pid, d: Dir, e: Eid)
    | AtPlace(c: Cont, q: Pid, d: Dir, e: Eid)
    | AtWake(c: Cont, q: Pid, e: Eid)
    | ClrOut(c: Cont, q: Pid, pend: Option<Eid>, code: Code)
    | ClrOutRet(c: Cont, q: Pid, x: Eid, pend: Option<Eid>, code: Code)
    | Rej(c: Cont, q: Pid, e: Eid, code: Code, thenClear: bool)
    | Done(c: Cont, q: Pid, e: Eid, code: Code)
    // the waiter in dispatchUserRequest
    | Wait(r: Rid, e: Eid)
    | WaitDone(r: Rid, e: Eid)
    // clearPhidgetDispatch
    | ClrAll(p: Pid, d: Dir)
    | ClrIn(p: Pid, x: Eid)
    | ClrRet(p: Pid, x: Eid, d: Dir)
    // PhidgetDispatcher
    | Loop
    | Scan(i: int)
    | ScanOpen(i: int, p: Pid)
    | ScanDrop(i: int, p: Pid)
    | Serve(k: Key)
    | Disp(k: Key, e: Eid, ret: bool)
    | DispSig(k: Key, e: Eid, ret: bool, res: Code)
    | DispEnd(k: Key, e: Eid, ret: bool)
    | Rel(p: Pid)

  /** Who makes the call of an asynchronous callback: the dispatcher of the callback entry, a clear of the
    * inbound queue, or the dispatcher of the request when the callback entry could not be posted. */
  datatype Caller = Dispatcher | InboundClear | FailedPost

  /** history: a callback made, with the code it was given. */
  datatype Call = Call(req: Rid, code: Code, maker: Caller)

  /** tickets, asyncs, runs, processed, posts, calls, clearedReqs and returned are history: who may act on a
    * request next, the asynchronous requests, the requests bridgeInput ran on and what it answered, how the posting
    * of each callback ended, the callbacks made, the synchronous requests removed by a clear and what synchronous
    * callers got back. */
  datatype State = State(
    ph: map<Pid, Phid>, ch: map<Key, Chan>, inL: seq<Pid>, outL: seq<Pid>, dlock: Option<Tid>,
    pool: Pool, loc: map<Eid, Loc>, pc: map<Tid, PC>, panicked: bool,
    nextReq: Rid, tickets: map<Rid, Ticket>, asyncs: set<Rid>, calls: seq<Call>, posts: map<Rid, Code>, runs: seq<Rid>,
    processed: map<Rid, Code>, clearedReqs: set<Rid>, returned: map<Rid, Code>)

  const INIT := State(map[], map[], [], [], None, Pool([], 0, map[], 0), map[], map[], false,
                      0, map[], {}, [], map[], [], map[], {}, map[])

  // Total views of the maps.

  function Pc(s: State, t: Tid): PC { if t in s.pc then s.pc[t] else Idle }
  function Ch(s: State, k: Key): Chan { if k in s.ch then s.ch[k] else NO_CHAN }
  function Ph(s: State, p: Pid): Phid { if p in s.ph then s.ph[p] else NO_PHID }
  function Ent(s: State, e: Eid): Entry { PEnt(s.pool, e) }
  function Where(s: State, e: Eid): Loc { if e in s.loc then s.loc[e] else Nowhere }
  function TicketOf(s: State, r: Rid): Ticket { if r in s.tickets then s.tickets[r] else Unborn }
  function Lst(s: State, d: Dir): seq<Pid> { if d == In then s.inL else s.outL }

  function GoTo(s: State, t: Tid, pc: PC): State { s.(pc := s.pc[t := pc]) }

  function RemoveAt<T>(l: seq<T>, i: int): seq<T>
    requires 0 <= i < |l|
  {
    l[..i] + l[i+1..]
  }

  // Queue operations, each under the phidget lock.

  function Enqueue(c: Chan, e: Eid): Chan {
    c.(has := true, q := c.q + [e], count := c.count + 1, failed := false,
       stamps := c.stamps + [c.inserted], inserted := c.inserted + 1)
  }

  function Head<T>(l: seq<T>, default: T): T { if l == [] then default else l[0] }
  function Tail<T>(l: seq<T>): seq<T> { if l == [] then [] else l[1..] }

  function PopToDispatch(c: Chan): Chan {
    c.(has := true, q := Tail(c.q), count := c.count - 1, stamps := Tail(c.stamps), log := c.log + [Head(c.stamps, 0)])
  }

  function PopToClear(c: Chan): Chan {
    c.(q := Tail(c.q), count := c.count - 1, stamps := Tail(c.stamps), cleared := c.cleared + {Head(c.stamps, 0)})
  }

  /** The entry as its taker fills it in before inserting it. */
  function Filled(c: Cont, t: Tid, ent: Entry): Entry {
    match c
    case Post(typ) => ent.(typ := typ, inbound := typ.ServerPkt?, cb := false, taker := t)
    case Sync(r) =>
      ent.(typ := UserReq, inbound := true, waiting := true, noreturn := true, cb := false, req := r, taker := t)
    case Async(r) => ent.(typ := UserReq, inbound := true, cb := true, req := r, taker := t)
    case CbOf(_, _, _, r, res) => ent.(typ := UserReqCallback, cb := true, req := r, res := res, taker := t)
  }

  // The tickets: when the call of continuation c fills in its entry, when it fails before that entry is
  // queued, and when an entry is cleared without its callback.

  function Arming(s: State, c: Cont, e: Eid): map<Rid, Ticket> {
    match c
    case Sync(r) => s.tickets[r := Armed(e)]
    case Async(r) => s.tickets[r := Armed(e)]
    case CbOf(_, _, _, r, _) => s.tickets[r := Armed(e)]
    case _ => s.tickets
  }

  function Disarming(s: State, t: Tid, c: Cont): map<Rid, Ticket> {
    match c
    case Sync(r) => s.tickets[r := Spent]
    case Async(r) => s.tickets[r := Spent]
    case CbOf(_, _, _, r, _) => s.tickets[r := InFlight(t)]
    case _ => s.tickets
  }

  /** The posting of a callback has ended with this code. */
  function Posting(s: State, c: Cont, code: Code): map<Rid, Code> {
    if c.CbOf? then s.posts[c.r := code] else s.posts
  }

  function Losing(s: State, d: Dir, e: Eid): map<Rid, Ticket> {
    if d == Out && Ent(s, e).cb then s.tickets[Ent(s, e).req := Spent] else s.tickets
  }

  /** What a step may depend on besides the state: result codes, scheduling and other free choices. */
  datatype Choice = Choice(code: Code, yes: bool, other: Tid)

  // A step whose branches are taken on more than one condition is split in two: one function names the
  // conditions, the other says what happens under each.

  /** returnDispatchEntry(e), after which the activity goes on at pc: the assertion, and then, once dispatchLock is
    * free, the return. */
  function Returning(s: State, t: Tid, e: Eid, pc: PC): State {
    GiveBack(s, t, e, pc, s.dlock.Some?, Ent(s, e).noreturn)
  }

  function GiveBack(s: State, t: Tid, e: Eid, pc: PC, locked: bool, asserted: bool): State {
    if asserted then s.(panicked := true)
    else if locked then s
    else s.(pool := PoolReturn(s.pool, e), loc := s.loc[e := Returned(s.pool)], pc := s.pc[t := pc])
  }

  function Returned(p: Pool): Loc { if p.count >= ENTRY_DESIRED then Nowhere else Free }

  // ----- insertDispatchEntry and its callers -----

  // dispatch.c:322-342, and the filling in of the entry by the caller (or, 895-924, its surrender)
  function StepGet(s: State, t: Tid, c: Cont, q: Pid, ch: Choice): State {
    Take(s, t, c, q, PoolPick(s.pool), s.dlock.Some?, PoolEmpty(s.pool), c.Post? && ch.yes)
  }

  function Take(s: State, t: Tid, c: Cont, q: Pid, e: Eid, locked: bool, empty: bool, surrender: bool): State {
    if locked then s
    else if empty then
      s.(tickets := Disarming(s, t, c), posts := Posting(s, c, AGAIN), pc := s.pc[t := Done(c, q, 0, AGAIN)])
    else if surrender then
      s.(pool := PoolGet(s.pool), loc := s.loc[e := Hand(t)], pc := s.pc[t := Rej(c, q, e, NOENT, false)])
    else
      s.(pool := PoolTake(s.pool, e, c, t), loc := s.loc[e := Hand(t)], tickets := Arming(s, c, e),
         pc := s.pc[t := Ins(c, q, e)])
  }

  function PoolTake(p: Pool, e: Eid, c: Cont, t: Tid): Pool {
    PoolSet(PoolGet(p), e, Filled(c, t, PEnt(PoolGet(p), e)))
  }

  function DirOf(ent: Entry): Dir { if ent.inbound then In else Out }

  predicate Dropped(ent: Entry, h: Phid) {
    AfterNotDetaching(ent.typ) && (h.detaching || !(h.attached || h.attaching))
  }

  // dispatch.c:501-561
  function StepIns(s: State, t: Tid, c: Cont, q: Pid, e: Eid): State {
    Insert(s, t, c, q, e, Key(q, DirOf(Ent(s, e))), Dropped(Ent(s, e), Ph(s, q)),
           Shed(Ent(s, e), Ch(s, Key(q, DirOf(Ent(s, e))))), Full(Ent(s, e), Ch(s, Key(q, DirOf(Ent(s, e))))))
  }

  predicate Shed(ent: Entry, c: Chan) { CanThrowAway(ent.typ) && c.count >= SoftMax(DirOf(ent)) }
  predicate Full(ent: Entry, c: Chan) { c.count > HardMax(DirOf(ent)) }

  function Insert(s: State, t: Tid, c: Cont, q: Pid, e: Eid, k: Key, drop: bool, shed: bool, full: bool): State {
    if drop then
      s.(tickets := Disarming(s, t, c), posts := Posting(s, c, NOTATTACHED),
         pc := s.pc[t := ClrOut(c, q, Some(e), NOTATTACHED)])
    else if shed then
      s.(ch := s.ch[k := Ch(s, k).(has := true)], tickets := Disarming(s, t, c), posts := Posting(s, c, NOSPC),
         pc := s.pc[t := Rej(c, q, e, NOSPC, true)])
    else if full then
      s.(ch := s.ch[k := Ch(s, k).(has := true)], tickets := Disarming(s, t, c), posts := Posting(s, c, NOSPC),
         pc := s.pc[t := Rej(c, q, e, NOSPC, false)])
    else
      s.(ch := s.ch[k := Enqueue(Ch(s, k), e)], loc := s.loc[e := Queued(k)], posts := Posting(s, c, OK),
         pc := s.pc[t := AtFlag(c, q, k.d, e)])
  }

  // dispatch.c:564, 572; object.c:503-523
  function StepFlag(s: State, t: Tid, c: Cont, q: Pid, d: Dir, e: Eid): State {
    if Ch(s, Key(q, d)).flag then GoTo(s, t, AtWake(c, q, e))
    else s.(ch := s.ch[Key(q, d) := Ch(s, Key(q, d)).(flag := true, tok := Taken(t))],
            pc := s.pc[t := AtRetain(c, q, d, e)])
  }

  // dispatch.c:565, 573; object.c:47-54
  function StepRetain(s: State, t: Tid, c: Cont, q: Pid, d: Dir, e: Eid): State {
    s.(ph := s.ph[q := Ph(s, q).(refcnt := Ph(s, q).refcnt + 1)],
       ch := s.ch[Key(q, d) := Ch(s, Key(q, d)).(tok := Held(t))], pc := s.pc[t := AtPlace(c, q, d, e)])
  }

  // dispatch.c:566-569, 574-577
  function StepPlace(s: State, t: Tid, c: Cont, q: Pid, d: Dir, e: Eid): State {
    if s.dlock.Some? then s
    else s.(inL := if d == In then s.inL + [q] else s.inL, outL := if d == Out then s.outL + [q] else s.outL,
            ch := s.ch[Key(q, d) := Ch(s, Key(q, d)).(tok := Listed)], pc := s.pc[t := AtWake(c, q, e)])
  }

  // dispatch.c:158-182, 581: entryDispatched may start a dispatcher
  function StepWake(s: State, t: Tid, c: Cont, q: Pid, e: Eid, ch: Choice): State {
    if s.dlock.Some? then s
    else if ch.yes && ch.other != t && Pc(s, ch.other).Idle? then GoTo(GoTo(s, ch.other, Loop), t, Done(c, q, e, OK))
    else GoTo(s, t, Done(c, q, e, OK))
  }

  // dispatch.c:455-485; with no outbound handle the C loop spins
  function StepClrOut(s: State, t: Tid, c: Cont, q: Pid, pend: Option<Eid>, code: Code): State {
    if !Ch(s, Key(q, Out)).has then s
    else if Ch(s, Key(q, Out)).q == [] then GoTo(s, t, Cleared(c, q, pend, code))
    else ClearOne(s, t, Key(q, Out), ClrOutRet(c, q, Head(Ch(s, Key(q, Out)).q, 0), pend, code))
  }

  function Cleared(c: Cont, q: Pid, pend: Option<Eid>, code: Code): PC {
    if pend.Some? then Rej(c, q, pend.value, code, false) else Done(c, q, 0, code)
  }

  /** Take the first entry of k off its queue to give it back, and go on at pc. */
  function ClearOne(s: State, t: Tid, k: Key, pc: PC): State {
    s.(ch := s.ch[k := PopToClear(Ch(s, k))], loc := s.loc[Head(Ch(s, k).q, 0) := Hand(t)],
       tickets := Losing(s, k.d, Head(Ch(s, k).q, 0)), pc := s.pc[t := pc])
  }

  function StepClrOutRet(s: State, t: Tid, c: Cont, q: Pid, x: Eid, pend: Option<Eid>, code: Code): State {
    Returning(s, t, x, ClrOut(c, q, pend, code))
  }

  // dispatch.c:402-419 from insertDispatchEntry; then 533-538 when the soft limit was hit, where ch.yes
  // stands for OPENBYNETCLIENT
  function StepRej(s: State, t: Tid, c: Cont, q: Pid, e: Eid, code: Code, thenClear: bool, ch: Choice): State {
    Returning(s, t, e, if thenClear && ch.yes then ClrOut(c, q, None, code) else Done(c, q, 0, code))
  }

  // what the caller of insertDispatchEntry does with its result; 1116-1119 for CbOf
  function StepDone(s: State, t: Tid, c: Cont, q: Pid, e: Eid, code: Code): State {
    Finish(s, t, c, e, code, code == OK)
  }

  function Finish(s: State, t: Tid, c: Cont, e: Eid, code: Code, ok: bool): State {
    if c.CbOf? && !ok then
      s.(tickets := s.tickets[c.r := Fired], calls := s.calls + [Call(c.r, code, FailedPost)],
         pc := s.pc[t := DispEnd(c.k, c.e, c.ret)])
    else GoTo(s, t, After(c, e, ok))
  }

  function After(c: Cont, e: Eid, ok: bool): PC {
    match c
    case Sync(r) => if ok then Wait(r, e) else Idle
    case CbOf(k, e0, ret, _, _) => DispEnd(k, e0, ret)
    case _ => Idle
  }

  // dispatch.c:643-662
  function StepWait(s: State, t: Tid, r: Rid, e: Eid): State {
    if Ent(s, e).waiting then s else s.(loc := s.loc[e := Hand(t)], pc := s.pc[t := WaitDone(r, e)])
  }

  // dispatch.c:668-672
  function StepWaitDone(s: State, t: Tid, r: Rid, e: Eid): State {
    if s.dlock.Some? then s
    else s.(pool := PoolReturn(PoolSet(s.pool, e, Ent(s, e).(noreturn := false)), e),
            loc := s.loc[e := Returned(s.pool)],
            returned := s.returned[r := Ent(s, e).res], pc := s.pc[t := Idle])
  }

  // ----- clearPhidgetDispatch -----

  // dispatch.c:1424-1450
  function StepClrAll(s: State, t: Tid, p: Pid, d: Dir): State {
    ClearNext(s, t, p, d == Out && Ch(s, Key(p, Out)).q != [], Ch(s, Key(p, In)).q != [])
  }

  function ClearNext(s: State, t: Tid, p: Pid, out: bool, inb: bool): State {
    if out then ClearOne(s, t, Key(p, Out), ClrRet(p, Head(Ch(s, Key(p, Out)).q, 0), Out))
    else if inb then ClearOne(s, t, Key(p, In), ClrIn(p, Head(Ch(s, Key(p, In)).q, 0)))
    else GoTo(s, t, Idle)
  }

  // dispatch.c:1452-1468
  function StepClrIn(s: State, t: Tid, p: Pid, x: Eid): State {
    ClearIn(s, t, p, x, Ent(s, x), Ent(s, x).noreturn,
            (Ent(s, x).typ.UserReq? && Ent(s, x).cb) || Ent(s, x).typ.UserReqCallback?)
  }

  function ClearIn(s: State, t: Tid, p: Pid, x: Eid, ent: Entry, waited: bool, called: bool): State {
    if waited then
      s.(pool := PoolSet(s.pool, x, ent.(waiting := false, res := NOTATTACHED)), loc := s.loc[x := Claimed(ent.taker)],
         tickets := s.tickets[ent.req := Spent], clearedReqs := s.clearedReqs + {ent.req},
         pc := s.pc[t := ClrAll(p, In)])
    else if called then
      s.(tickets := s.tickets[ent.req := Fired], calls := s.calls + [Call(ent.req, NOTATTACHED, InboundClear)],
         pc := s.pc[t := ClrRet(p, x, In)])
    else GoTo(s, t, ClrRet(p, x, In))
  }

  function StepClrRet(s: State, t: Tid, p: Pid, x: Eid, d: Dir): State {
    Returning(s, t, x, ClrAll(p, d))
  }

  // ----- PhidgetDispatcher -----

  // dispatch.c:1249-1261, 1325-1327; 227-238.  Whether the dispatcher is still needed is ch.yes.
  function StepLoop(s: State, t: Tid, ch: Choice): State {
    if s.dlock.Some? then s
    else if ch.yes then GoTo(s, t, Idle)
    else if s.inL != [] then
      s.(inL := s.inL[1..], ch := s.ch[Key(s.inL[0], In) := Ch(s, Key(s.inL[0], In)).(tok := Held(t))],
         pc := s.pc[t := Serve(Key(s.inL[0], In))])
    else s.(dlock := Some(t), pc := s.pc[t := Scan(0)])
  }

  // dispatch.c:207-211 and 1255-1258
  function StepScan(s: State, t: Tid, i: int): State {
    if !(0 <= i < |s.outL|) then s.(dlock := None, pc := s.pc[t := Loop])
    else if Ph(s, s.outL[i]).attached || Ph(s, s.outL[i]).detaching then
      s.(outL := RemoveAt(s.outL, i), dlock := None,
         ch := s.ch[Key(s.outL[i], Out) := Ch(s, Key(s.outL[i], Out)).(tok := Held(t))],
         pc := s.pc[t := Serve(Key(s.outL[i], Out))])
    else GoTo(s, t, ScanOpen(i, s.outL[i]))
  }

  // dispatch.c:212-214
  function StepScanOpen(s: State, t: Tid, i: int, p: Pid): State {
    if !Ph(s, p).open && 0 <= i < |s.outL| then
      s.(outL := RemoveAt(s.outL, i), ch := s.ch[Key(p, Out) := Ch(s, Key(p, Out)).(tok := Held(t))],
         pc := s.pc[t := ScanDrop(i, p)])
    else GoTo(s, t, Scan(i + 1))
  }

  // dispatch.c:216: the flag is cleared, the list's reference is kept
  function StepScanDrop(s: State, t: Tid, i: int, p: Pid): State {
    s.(ph := s.ph[p := Ph(s, p).(leaked := Ph(s, p).leaked + 1)],
       ch := s.ch[Key(p, Out) := Ch(s, Key(p, Out)).(flag := false, tok := NoToken, failed := true)],
       pc := s.pc[t := Scan(i)])
  }

  predicate GateOpen(h: Phid, d: Dir) {
    if d == Out then h.attached || h.detaching else h.open
  }

  /** The dispatcher's loop breaks: the gate is shut or the queue is empty. */
  predicate Leaves(s: State, k: Key) { !GateOpen(Ph(s, k.p), k.d) || Ch(s, k).q == [] }

  function Left(s: State, k: Key): Chan {
    if GateOpen(Ph(s, k.p), k.d) then Ch(s, k).(has := true, flag := false, tok := NoToken)
    else Ch(s, k).(flag := false, tok := NoToken, failed := true)
  }

  // dispatch.c:1271-1303 and, when the loop breaks, 1313-1319, all under one hold of the phidget lock
  function StepServe(s: State, t: Tid, k: Key): State {
    if Leaves(s, k) then
      s.(ph := s.ph[k.p := Ph(s, k.p).(leaving := Ph(s, k.p).leaving + {t})], ch := s.ch[k := Left(s, k)],
         pc := s.pc[t := Rel(k.p)])
    else
      s.(ch := s.ch[k := PopToDispatch(Ch(s, k))], loc := s.loc[Head(Ch(s, k).q, 0) := Hand(t)],
         pc := s.pc[t := Disp(k, Head(Ch(s, k).q, 0), !Ent(s, Head(Ch(s, k).q, 0)).noreturn)])
  }

  // dispatch.c:1105-1134; every other type only runs code outside the engine
  function StepDisp(s: State, t: Tid, k: Key, e: Eid, ret: bool, ch: Choice): State {
    Dispatch(s, t, k, e, ret, Ent(s, e), ch.code, Ent(s, e).typ.UserReq?, Ent(s, e).typ.UserReqCallback?)
  }

  function Dispatch(s: State, t: Tid, k: Key, e: Eid, ret: bool, ent: Entry, code: Code, req: bool,
                    callback: bool): State {
    if req && ent.cb then
      s.(runs := s.runs + [ent.req], processed := s.processed[ent.req := code],
         tickets := s.tickets[ent.req := InFlight(t)],
         pc := s.pc[t := Get(CbOf(k, e, ret, ent.req, code), k.p)])
    else if req then
      s.(runs := s.runs + [ent.req], processed := s.processed[ent.req := code], tickets := s.tickets[ent.req := Spent],
         pc := s.pc[t := DispSig(k, e, ret, code)])
    else if callback then
      s.(tickets := s.tickets[ent.req := Fired], calls := s.calls + [Call(ent.req, ent.res, Dispatcher)],
         pc := s.pc[t := DispEnd(k, e, ret)])
    else GoTo(s, t, DispEnd(k, e, ret))
  }

  // dispatch.c:1125-1129
  function StepDispSig(s: State, t: Tid, k: Key, e: Eid, ret: bool, res: Code): State {
    s.(pool := PoolSet(s.pool, e, Ent(s, e).(waiting := false, res := res)),
       loc := s.loc[e := Claimed(Ent(s, e).taker)],
       pc := s.pc[t := DispEnd(k, e, ret)])
  }

  // dispatch.c:1306-1308
  function StepDispEnd(s: State, t: Tid, k: Key, e: Eid, ret: bool): State {
    if ret then Returning(s, t, e, Serve(k)) else GoTo(s, t, Serve(k))
  }

  // dispatch.c:1321; object.c:57-69
  function StepRel(s: State, t: Tid, p: Pid): State {
    s.(ph := s.ph[p := Ph(s, p).(refcnt := Ph(s, p).refcnt - 1, leaving := Ph(s, p).leaving - {t})],
       pc := s.pc[t := Loop])
  }

  /** The next lock region of activity t. */
  function StepActivity(s: State, t: Tid, ch: Choice): State {
    match Pc(s, t)
    case Idle => s
    case Get(c, q) => StepGet(s, t, c, q, ch)
    case Ins(c, q, e) => StepIns(s, t, c, q, e)
    case AtFlag(c, q, d, e) => StepFlag(s, t, c, q, d, e)
    case AtRetain(c, q, d, e) => StepRetain(s, t, c, q, d, e)
    case AtPlace(c, q, d, e) => StepPlace(s, t, c, q, d, e)
    case AtWake(c, q, e) => StepWake(s, t, c, q, e, ch)
    case ClrOut(c, q, pend, code) => StepClrOut(s, t, c, q, pend, code)
    case ClrOutRet(c, q, x, pend, code) => StepClrOutRet(s, t, c, q, x, pend, code)
    case Rej(c, q, e, code, thenClear) => StepRej(s, t, c, q, e, code, thenClear, ch)
    case Done(c, q, e, code) => StepDone(s, t, c, q, e, code)
    case Wait(r, e) => StepWait(s, t, r, e)
    case WaitDone(r, e) => StepWaitDone(s, t, r, e)
    case ClrAll(p, d) => StepClrAll(s, t, p, d)
    case ClrIn(p, x) => StepClrIn(s, t, p, x)
    case ClrRet(p, x, d) => StepClrRet(s, t, p, x, d)
    case Loop => StepLoop(s, t, ch)
    case Scan(i) => StepScan(s, t, i)
    case ScanOpen(i, p) => StepScanOpen(s, t, i, p)
    case ScanDrop(i, p) => StepScanDrop(s, t, i, p)
    case Serve(k) => StepServe(s, t, k)
    case Disp(k, e, ret) => StepDisp(s, t, k, e, ret, ch)
    case DispSig(k, e, ret, res) => StepDispSig(s, t, k, e, ret, res)
    case DispEnd(k, e, ret) => StepDispEnd(s, t, k, e, ret)
    case Rel(p) => StepRel(s, t, p)
  }

  /** Everything that can happen next: a lock region of some activity, a new call into the engine, or
    * the rest of the library changing a phidget's state bits or its own references. */
  datatype Action =
    | Run(t: Tid, choice: Choice)
    | CallSync(t: Tid, p: Pid)
    | CallAsync(t: Tid, p: Pid)
    | CallPost(t: Tid, p: Pid, typ: EType)
    | CallClear(t: Tid, p: Pid)
    | SetState(p: Pid, open: bool, attached: bool, attaching: bool, detaching: bool)
    | ExtRetain(p: Pid)
    | ExtRelease(p: Pid)

  /** One step.  An action that is not possible, and any action after an assertion failure, changes nothing. */
  function Step(s: State, a: Action): State {
    if s.panicked then s else
    match a
    case Run(t, x) => StepActivity(s, t, x)
    case CallSync(t, p) =>
      if !Pc(s, t).Idle? then s
      else s.(nextReq := s.nextReq + 1, tickets := s.tickets[s.nextReq := InFlight(t)],
              pc := s.pc[t := Get(Sync(s.nextReq), p)])
    case CallAsync(t, p) =>
      if !Pc(s, t).Idle? then s
      else s.(nextReq := s.nextReq + 1, tickets := s.tickets[s.nextReq := InFlight(t)],
              asyncs := s.asyncs + {s.nextReq}, pc := s.pc[t := Get(Async(s.nextReq), p)])
    case CallPost(t, p, typ) =>
      if !Pc(s, t).Idle? || typ.Nothing? || typ.UserReq? || typ.UserReqCallback? then s
      else GoTo(s, t, Get(Post(typ), p))
    case CallClear(t, p) => if !Pc(s, t).Idle? then s else GoTo(s, t, ClrAll(p, Out))
    case SetState(p, open, attached, attaching, detaching) =>
      s.(ph := s.ph[p := Ph(s, p).(open := open, attached := attached, attaching := attaching, detaching := detaching)])
    case ExtRetain(p) => s.(ph := s.ph[p := Ph(s, p).(refcnt := Ph(s, p).refcnt + 1, ext := Ph(s, p).ext + 1)])
    case ExtRelease(p) =>
      if Ph(s, p).ext <= 0 then s
      else s.(ph := s.ph[p := Ph(s, p).(refcnt := Ph(s, p).refcnt - 1, ext := Ph(s, p).ext - 1)])
  }

  /** The state after a whole run. */
  function Exec(actions: seq<Action>): State {
    if actions == [] then INIT else Step(Exec(actions[..|actions|-1]), actions[|actions|-1])
  }
}
