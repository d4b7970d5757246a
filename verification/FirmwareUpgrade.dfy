/** The retrying upgrade of one device, against a device that may answer anything. */
module FirmwareUpgrade {

  const OK := 0
  const TIMEOUT := 3
  const NO_VERSION := -1
  const MAX_FILE := 64 * 1024

  const VINT := 0x15
  const FIRMWAREUPGRADE := 0x20
  const HUB0000 := 0x40
  const HUB0004 := 0x43
  const HUB5000 := 0x7b

  /** The file to send, as far as the upgrade looks at it, and what the variables that are not initialised hold. */
  datatype Job = Job(version: int, fileLen: int, override: bool, channelClass: int, id: int, remote: bool)

  /** What the upgrade does, as seen from outside.  Pass is the start of another attempt.  DeviceClass to Server are
    * what is read from the device and its server.  Attached is an open of the device, and NoAnswer one that failed with
    * the given code.  Matched and Checked are matches of the file with the device and with the open upgrade handle,
    * Loaded is the reading of the file, Reboot starts the device in upgrade mode and Restart after the upgrade, and
    * HubOpened and Power open its hub and switch its port. */
  datatype Event =
    | Pass | Refuse
    | DeviceClass(c: int) | ChannelClass(c: int) | Id(id: int) | Remote(yes: bool) | Known(version: int)
    | Server(major: int, minor: int) | Attached | NoAnswer(ret: int)
    | Matched | Reboot | Create | Opened | Checked | Loaded | Send(ok: bool) | Restart | HubOpened | Power(on: bool)
    | Delete

  datatype Label = On | Retry | Fw | Error | Abort | Return(res: int)

  // ----- what a trace of events says -----

  function Sends(t: seq<Event>): nat {
    if t == [] then 0 else Sends(t[..|t|-1]) + if t[|t|-1].Send? then 1 else 0
  }

  /** The version last read, or -1. */
  function KnownVersion(t: seq<Event>): int {
    if t == [] then NO_VERSION else if t[|t|-1].Known? then t[|t|-1].version else KnownVersion(t[..|t|-1])
  }

  function DeviceOf(t: seq<Event>): int {
    if t == [] then 0 else if t[|t|-1].DeviceClass? then t[|t|-1].c else DeviceOf(t[..|t|-1])
  }

  function ChannelOf(job: Job, t: seq<Event>): int {
    if t == [] then job.channelClass
    else if t[|t|-1].ChannelClass? then t[|t|-1].c else ChannelOf(job, t[..|t|-1])
  }

  function IdOf(job: Job, t: seq<Event>): int {
    if t == [] then job.id else if t[|t|-1].Id? then t[|t|-1].id else IdOf(job, t[..|t|-1])
  }

  predicate RemoteOf(job: Job, t: seq<Event>) {
    if t == [] then job.remote else if t[|t|-1].Remote? then t[|t|-1].yes else RemoteOf(job, t[..|t|-1])
  }

  /** The file has been checked against the upgrade handle that is open now, in this attempt. */
  predicate CheckedNow(t: seq<Event>) {
    t != [] && (t[|t|-1].Checked? || (!t[|t|-1].Pass? && !t[|t|-1].Create? && CheckedNow(t[..|t|-1])))
  }

  /** The firmware was sent in this attempt, and the device took it. */
  predicate SentNow(t: seq<Event>) {
    t != [] && (t[|t|-1] == Send(true) || (!t[|t|-1].Pass? && SentNow(t[..|t|-1])))
  }

  /** The hub port was switched on again in this attempt. */
  predicate CycledNow(t: seq<Event>) {
    t != [] && (t[|t|-1] == Power(true) || (!t[|t|-1].Pass? && CycledNow(t[..|t|-1])))
  }

  /** How many attempts there were after the first. */
  function Passes(t: seq<Event>): nat {
    if t == [] then 0 else Passes(t[..|t|-1]) + if t[|t|-1].Pass? then 1 else 0
  }

  predicate Retried(t: seq<Event>) { Passes(t) > 0 }

  datatype Fact = ItsClass | ItsChannel | ItsId | WhetherRemote

  function FactOf(e: Event): set<Fact> {
    match e
    case DeviceClass(_) => {ItsClass}
    case ChannelClass(_) => {ItsChannel}
    case Id(_) => {ItsId}
    case Remote(_) => {WhetherRemote}
    case _ => {}
  }

  /** What has been read of the device. */
  function Facts(t: seq<Event>): set<Fact> {
    if t == [] then {} else Facts(t[..|t|-1]) + FactOf(t[|t|-1])
  }

  const ALL_FACTS := {ItsClass, ItsChannel, ItsId, WhetherRemote}

  /** The device has been opened and asked for its channel. */
  predicate Asked(t: seq<Event>) { |t| >= 2 && t[|t|-2].Attached? && t[|t|-1].ChannelClass? }

  /** Some version read after a send of the same attempt was not v. */
  predicate Mismatched(t: seq<Event>, v: int) {
    t != [] && (Mismatched(t[..|t|-1], v) || (t[|t|-1].Known? && t[|t|-1].version != v && SentNow(t[..|t|-1])))
  }

  /** How many upgrade handles exist. */
  function Handles(t: seq<Event>): int {
    if t == [] then 0
    else Handles(t[..|t|-1]) + if t[|t|-1].Create? then 1 else if t[|t|-1].Delete? then -1 else 0
  }

  /** The upgrade has to be refused now.  Unless overridden, the file must be newer than what the device has, wherever
    * that is looked at before a send; and a server older than 2.3 must be upgraded before three hubs can be. */
  predicate Due(job: Job, t: seq<Event>) {
    && !job.override && t != [] && !SentNow(t)
    && match t[|t|-1]
       case Known(v) => job.version <= v
       case Opened => job.version <= KnownVersion(t) && !(DeviceOf(t) == 0x15 && KnownVersion(t) == -1)
       case Server(major, minor) =>
         && (major < 2 || (major == 2 && minor < 3))
         && ((IdOf(job, t) == 0x40 && job.version >= 300) || (IdOf(job, t) == 0x43 && job.version >= 200)
             || (IdOf(job, t) == 0x7b && job.version >= 200))
       case _ => false
  }

  /** The server's version has to be asked for now: the device is remote, its own version has just been read, and the
    * file is newer and not overridden. */
  predicate Owed(job: Job, t: seq<Event>) {
    && !job.override && t != [] && t[|t|-1].Known? && job.version > t[|t|-1].version
    && Handles(t) == 0 && !SentNow(t) && RemoteOf(job, t)
  }

  /** The device has passed: its version has just been read and, if it matters, its server's. */
  predicate Passed(job: Job, t: seq<Event>) {
    t != [] && if job.override || !RemoteOf(job, t) then t[|t|-1].Known? else t[|t|-1].Server?
  }

  function Last(t: seq<Event>): Event { if t == [] then Pass else t[|t|-1] }

  /** The event may come after t. */
  predicate Allowed(job: Job, t: seq<Event>, e: Event) {
    && (e.Refuse? <==> Due(job, t))
    && (e.Server? ==> Owed(job, t)) && (Owed(job, t) ==> e.Server? || e.Pass?)
    && (e.Matched? ==> Passed(job, t))
    && (e.Reboot? ==> Last(t).Matched?)
    && (e.Create? ==> Handles(t) == 0 && (Last(t).Reboot? || Last(t).NoAnswer? || ChannelOf(job, t) == 0x20))
    && (e.Create? && DeviceOf(t) == 0x15 ==> CycledNow(t) || (ChannelOf(job, t) == 0x20 && !Retried(t)))
    && (e.Create? ==> Retried(t) || Facts(t) >= ALL_FACTS)
    && (e.Known? ==>
          if SentNow(t) then Last(t).Attached?
          else if Handles(t) > 0 then Last(t).Opened?
          else Asked(t) || (Last(t).Remote? && Facts(t) >= ALL_FACTS && !Retried(t)))
    && (e.NoAnswer? ==> e.ret == 3)
    && (e.Opened? ==> Last(t).Create?)
    && (e.Checked? ==> Handles(t) == 1 && (Last(t).Opened? || Last(t).Known?))
    && (e.Loaded? ==> Last(t).Checked? && job.fileLen <= 0x1_0000)
    && (e.Send? ==> Last(t).Loaded? && (job.override || job.version > KnownVersion(t)))
    && (e.Restart? ==> Last(t) == Send(true))
    && (e.HubOpened? ==> DeviceOf(t) == 0x15)
    && (e == Power(false) ==> Last(t).HubOpened?)
    && (e == Power(true) ==> Last(t) == Power(false))
    && (e.Delete? ==> Handles(t) == 1)
  }

  ghost predicate Proper(job: Job, t: seq<Event>) {
    forall i :: 0 <= i < |t| ==> Allowed(job, t[..i], t[i])
  }

  /** The last things a successful upgrade does: the send that was taken, a restart, for a VINT device with its port
    * switched off and on, and, unless an upgrade handle was passed in, a look at the version. */
  function Ending(job: Job, vint: bool, upgradeHandle: bool): seq<Event> {
    [Send(true), Restart] + (if vint then [HubOpened, Power(false), Power(true)] else [])
    + (if upgradeHandle then [] else [Attached, Known(job.version)]) + [Delete]
  }

  predicate EndsWith(t: seq<Event>, x: seq<Event>) { |x| <= |t| && t[|t| - |x|..] == x }

  ghost predicate NoneAfter(t: seq<Event>, j: nat, p: Event -> bool) { forall k :: j < k < |t| ==> !p(t[k]) }

  function StartsOver(): Event -> bool { (e: Event) => e.Pass? || e.Create? }
  function NewPass(): Event -> bool { (e: Event) => e.Pass? }

  lemma {:induction false} CheckedMeans(t: seq<Event>)
    ensures CheckedNow(t) <==> exists j :: 0 <= j < |t| && t[j] == Checked && NoneAfter(t, j, StartsOver())
  {
    if t != [] {
      var u := t[..|t|-1];
      CheckedMeans(u);
      if j :| 0 <= j < |u| && u[j] == Checked && NoneAfter(u, j, StartsOver()) && !t[|t|-1].Pass? && !t[|t|-1].Create? {
        assert t[j] == Checked && NoneAfter(t, j, StartsOver());
      }
      if j :| 0 <= j < |t| && t[j] == Checked && NoneAfter(t, j, StartsOver()) {
        if j < |u| {
          assert u[j] == Checked && NoneAfter(u, j, StartsOver());
        }
      }
      if t[|t|-1].Checked? {
        assert NoneAfter(t, |t| - 1, StartsOver());
      }
    }
  }

  lemma {:induction false} SentMeans(t: seq<Event>)
    ensures SentNow(t) <==> exists j :: 0 <= j < |t| && t[j] == Send(true) && NoneAfter(t, j, NewPass())
  {
    if t != [] {
      var u := t[..|t|-1];
      SentMeans(u);
      if j :| 0 <= j < |u| && u[j] == Send(true) && NoneAfter(u, j, NewPass()) && !t[|t|-1].Pass? {
        assert t[j] == Send(true) && NoneAfter(t, j, NewPass());
      }
      if j :| 0 <= j < |t| && t[j] == Send(true) && NoneAfter(t, j, NewPass()) {
        if j < |u| {
          assert u[j] == Send(true) && NoneAfter(u, j, NewPass());
        }
      }
      if t[|t|-1] == Send(true) {
        assert NoneAfter(t, |t| - 1, NewPass());
      }
    }
  }

  /** In a proper trace every send comes directly behind a check of the file on the open upgrade handle and the loading
    * of the file, which has at most 64K and is newer than the version last read, unless that was overridden. */
  lemma SendsAreChecked(job: Job, t: seq<Event>, i: nat)
    requires Proper(job, t) && i < |t| && t[i].Send?
    ensures 1 < i && t[i - 2] == Checked && t[i - 1] == Loaded && Handles(t[..i - 2]) == 1 && job.fileLen <= 64 * 1024
    ensures job.override || job.version > KnownVersion(t[..i])
    ensures exists j :: 0 <= j < i && t[j] == Checked && forall k :: j < k < i ==> !t[k].Pass? && !t[k].Create?
  {
    assert Allowed(job, t[..i], t[i]);
    assert t[..i][i - 1] == t[i - 1];
    assert Allowed(job, t[..i - 1], t[i - 1]);
    assert t[..i - 1][i - 2] == t[i - 2];
    assert Allowed(job, t[..i - 2], t[i - 2]);
  }

  /** A refusal is the only thing that follows where one is due, and follows nothing else. */
  lemma RefusedExactly(job: Job, t: seq<Event>, i: nat)
    requires Proper(job, t) && i < |t|
    ensures t[i].Refuse? <==> Due(job, t[..i])
  {
    assert Allowed(job, t[..i], t[i]);
  }

  /** What has ended as a success ends has read the file's version, after a send that was taken. */
  lemma ConfirmedMeans(job: Job, t: seq<Event>, vint: bool)
    requires EndsWith(t, Ending(job, vint, false))
    ensures KnownVersion(t) == job.version && SentNow(t)
  {
    hide KnownVersion, SentNow;
    var x := Ending(job, vint, false);
    var u := t[..|t| - |x|];
    assert t == u + x;
    var sent := u + [Send(true)] + [Restart];
    SentSnoc(u, Send(true));
    SentSnoc(u + [Send(true)], Restart);
    var back := if vint then sent + [HubOpened] + [Power(false)] + [Power(true)] else sent;
    SentSnoc(sent, HubOpened);
    SentSnoc(sent + [HubOpened], Power(false));
    SentSnoc(sent + [HubOpened] + [Power(false)], Power(true));
    SentSnoc(back, Attached);
    SentSnoc(back + [Attached], Known(job.version));
    SentSnoc(back + [Attached] + [Known(job.version)], Delete);
    assert t == back + [Attached] + [Known(job.version)] + [Delete];
  }

  lemma SentSnoc(t: seq<Event>, e: Event)
    ensures KnownVersion(t + [e]) == if e.Known? then e.version else KnownVersion(t)
    ensures SentNow(t + [e]) <==> e == Send(true) || (!e.Pass? && SentNow(t))
  {
    assert (t + [e])[..|t|] == t;
  }

  lemma Snoc(job: Job, t: seq<Event>, e: Event)
    ensures Last(t + [e]) == e && (Proper(job, t) && Allowed(job, t, e) ==> Proper(job, t + [e]))
    ensures Sends(t + [e]) == Sends(t) + if e.Send? then 1 else 0
    ensures KnownVersion(t + [e]) == if e.Known? then e.version else KnownVersion(t)
    ensures DeviceOf(t + [e]) == if e.DeviceClass? then e.c else DeviceOf(t)
    ensures ChannelOf(job, t + [e]) == if e.ChannelClass? then e.c else ChannelOf(job, t)
    ensures IdOf(job, t + [e]) == if e.Id? then e.id else IdOf(job, t)
    ensures RemoteOf(job, t + [e]) == if e.Remote? then e.yes else RemoteOf(job, t)
    ensures SentNow(t + [e]) <==> e == Send(true) || (!e.Pass? && SentNow(t))
    ensures CycledNow(t + [e]) <==> e == Power(true) || (!e.Pass? && CycledNow(t))
    ensures Retried(t + [e]) <==> e.Pass? || Retried(t)
    ensures Passes(t + [e]) == Passes(t) + if e.Pass? then 1 else 0
    ensures Facts(t + [e]) == Facts(t) + FactOf(e)
    ensures Asked(t + [e]) <==> e.ChannelClass? && Last(t).Attached?
    ensures Mismatched(t + [e], job.version) <==>
      Mismatched(t, job.version) || (e.Known? && e.version != job.version && SentNow(t))
    ensures Handles(t + [e]) == Handles(t) + if e.Create? then 1 else if e.Delete? then -1 else 0
  {
    assert (t + [e])[..|t|] == t;
    if Proper(job, t) && Allowed(job, t, e) {
      ProperSnoc(job, t, e);
    }
    hide Proper, Allowed;
  }

  lemma ProperSnoc(job: Job, t: seq<Event>, e: Event)
    requires Proper(job, t) && Allowed(job, t, e)
    ensures Proper(job, t + [e])
  {
    hide Allowed;
    assert (t + [e])[..|t|] == t;
    forall i | 0 <= i < |t| ensures (t + [e])[..i] == t[..i] {}
  }

  /** Where nothing is due or owed, these may happen. */
  lemma Free(job: Job, t: seq<Event>, e: Event)
    requires !Due(job, t) && !Owed(job, t)
    ensures e == NoAnswer(3) || e.Pass? || FactOf(e) != {} ==> Allowed(job, t, e)
    ensures e.Matched? && Passed(job, t) ==> Allowed(job, t, e)
    ensures e.Reboot? && Last(t).Matched? ==> Allowed(job, t, e)
    ensures e.Attached? || (e.HubOpened? && DeviceOf(t) == 0x15) ==> Allowed(job, t, e)
    ensures e == Power(false) && Last(t).HubOpened? ==> Allowed(job, t, e)
    ensures e == Power(true) && Last(t) == Power(false) ==> Allowed(job, t, e)
    ensures e.Restart? && Last(t) == Send(true) ==> Allowed(job, t, e)
    ensures e.Loaded? && Last(t).Checked? && job.fileLen <= 0x1_0000 ==> Allowed(job, t, e)
    ensures e.Send? && Last(t).Loaded? && (job.override || job.version > KnownVersion(t)) ==> Allowed(job, t, e)
  {
    hide KnownVersion, DeviceOf, ChannelOf, IdOf, RemoteOf, SentNow, CycledNow, Retried, Handles, Facts;
  }

  /** Only a version, or the opening of the upgrade handle, makes a refusal due or a question owed. */
  lemma Calm(job: Job, t: seq<Event>)
    ensures t == [] || (!Last(t).Known? && !Last(t).Opened? && !Last(t).Server?) ==> !Due(job, t) && !Owed(job, t)
    ensures SentNow(t) ==> !Due(job, t) && !Owed(job, t)
    ensures !Last(t).Known? ==> !Owed(job, t)
  {
    hide KnownVersion, DeviceOf, ChannelOf, IdOf, RemoteOf, SentNow, Handles;
  }

  lemma OpenedNext(job: Job, t: seq<Event>)
    requires !Due(job, t) && !Owed(job, t) && Last(t).Create?
    ensures Allowed(job, t, Opened)
  {
  }

  /** A VINT device in upgrade mode has to be asked for its version first. */
  lemma NotYet(job: Job, t: seq<Event>)
    requires t != [] && Last(t).Opened? && DeviceOf(t) == 0x15 && KnownVersion(t) == -1
    ensures !Due(job, t)
  {
  }

  /** With the version at hand, the file is refused or goes on to its check. */
  lemma VersionNext(job: Job, t: seq<Event>)
    requires t != [] && !SentNow(t) && Handles(t) == 1
    requires Last(t) == Known(KnownVersion(t)) || (Last(t).Opened? && !(DeviceOf(t) == 0x15 && KnownVersion(t) == -1))
    ensures Allowed(job, t, if job.version <= KnownVersion(t) && !job.override then Refuse else Checked)
    ensures Due(job, t) <==> job.version <= KnownVersion(t) && !job.override
  {
  }

  lemma PassAllowed(job: Job, t: seq<Event>)
    requires !Due(job, t)
    ensures Allowed(job, t, Pass)
  {
  }

  lemma Nothing(job: Job)
    ensures Sends([]) == 0 && KnownVersion([]) == -1 && DeviceOf([]) == 0 && Handles([]) == 0
    ensures !SentNow([]) && !Retried([]) && !Due(job, []) && !Owed(job, []) && Passes([]) == 0 && Facts([]) == {}
  {
  }

  /** Reading a fact of the device changes nothing else. */
  lemma FactSnoc(job: Job, t: seq<Event>, e: Event)
    requires Proper(job, t) && !Due(job, t) && !Owed(job, t) && FactOf(e) != {}
    ensures var u := t + [e];
      && Proper(job, u) && !Due(job, u) && !Owed(job, u)
      && SentNow(u) == SentNow(t) && CycledNow(u) == CycledNow(t) && Retried(u) == Retried(t) && Sends(u) == Sends(t)
      && Mismatched(u, job.version) == Mismatched(t, job.version) && Passes(u) == Passes(t) && Handles(u) == Handles(t)
      && KnownVersion(u) == KnownVersion(t) && Facts(u) == Facts(t) + FactOf(e)
      && DeviceOf(u) == (if e.DeviceClass? then e.c else DeviceOf(t))
      && ChannelOf(job, u) == (if e.ChannelClass? then e.c else ChannelOf(job, t))
      && IdOf(job, u) == (if e.Id? then e.id else IdOf(job, t))
      && RemoteOf(job, u) == (if e.Remote? then e.yes else RemoteOf(job, t))
      && Asked(u) == (e.ChannelClass? && Last(t).Attached?) && Last(u) == e
  {
    hide Proper, Sends, KnownVersion, DeviceOf, ChannelOf, IdOf, RemoteOf, Due, Owed, Allowed;
    hide SentNow, CycledNow, Retried, Mismatched, Handles, Passes, Facts;
    Free(job, t, e);
    Snoc(job, t, e);
    Calm(job, t + [e]);
  }

  lemma Cycle(t: seq<Event>)
    ensures t + [HubOpened] + [Power(false)] + [Power(true)] == t + [HubOpened, Power(false), Power(true)]
  {
  }

  lemma Ended(job: Job, before: seq<Event>, t: seq<Event>, vint: bool, upgradeHandle: bool)
    requires t == before + [Send(true)] + [Restart] + (if vint then [HubOpened, Power(false), Power(true)] else [])
      + (if upgradeHandle then [] else [Attached, Known(job.version)]) + [Delete]
    ensures EndsWith(t, Ending(job, vint, upgradeHandle))
  {
    assert t == before + Ending(job, vint, upgradeHandle);
  }

  class Upgrader {
    const job: Job
    // what the device and the library return from the calls made of them, and the values they give, in order
    const code: nat -> int
    const value: nat -> int
    var calls: nat
    var given: nat
    var trace: seq<Event>

    var retryCnt: nat
    var currentVersion: int
    var channelClass: int
    var deviceClass: int
    var remote: bool
    var id: int
    var fw: bool
    // how many attempts there were before this one, and what has been read of the device
    ghost var passes: nat
    ghost var known: set<Fact>

    /** The variables agree with what has happened. */
    ghost predicate Valid()
      reads this`trace, this`currentVersion, this`channelClass, this`deviceClass, this`remote, this`id, this`fw
      reads this`passes, this`known
    {
      && Proper(job, trace) && currentVersion == KnownVersion(trace) && deviceClass == DeviceOf(trace)
      && channelClass == ChannelOf(job, trace) && id == IdOf(job, trace) && remote == RemoteOf(job, trace)
      && Handles(trace) == (if fw then 1 else 0)
      && passes == Passes(trace) && (Retried(trace) <==> passes > 0) && known == Facts(trace)
    }

    /** The device has been identified, or this is not the first attempt. */
    ghost predicate Identified()
      reads this`passes, this`known
    {
      passes > 0 || known >= ALL_FACTS
    }

    /** No refusal is due and no question to the server is owed. */
    ghost predicate Settled()
      reads this`trace, this`currentVersion, this`channelClass, this`deviceClass, this`remote, this`id, this`fw
      reads this`passes, this`known
    {
      Valid() && !Due(job, trace) && !Owed(job, trace)
    }

    constructor (job: Job, code: nat -> int, value: nat -> int)
      ensures Valid() && trace == [] && retryCnt == 0 && calls == 0
      ensures this.job == job && this.code == code && this.value == value
    {
      this.job, this.code, this.value := job, code, value;
      channelClass, id, remote, deviceClass := job.channelClass, job.id, job.remote, 0;
      calls, given, trace, retryCnt, currentVersion, fw := 0, 0, [], 0, NO_VERSION, false;
      passes, known := 0, {};
    }

    /** Every call from the from-th to the last returned OK. */
    ghost predicate AllOk(from: nat)
      reads this`calls
    {
      forall n :: from <= n < calls ==> code(n) == OK
    }

    method Ask() returns (ret: int)
      modifies this`calls
      ensures calls == old(calls) + 1 && ret == code(old(calls))
    {
      ret, calls := code(calls), calls + 1;
    }

    method Read() returns (x: int)
      modifies this`given
      ensures x == value(old(given)) && given == old(given) + 1
    {
      x, given := value(given), given + 1;
    }

    /** Anything that changes none of the variables. */
    method Note(e: Event)
      requires Valid() && Allowed(job, trace, e) && !e.Known? && !e.Create? && !e.Delete?
      requires !e.DeviceClass? && !e.ChannelClass? && !e.Id? && !e.Remote? && !e.Pass?
      modifies this`trace
      ensures Valid() && trace == old(trace) + [e]
      ensures Sends(trace) == old(Sends(trace)) + if e.Send? then 1 else 0
      ensures SentNow(trace) <==> e == Send(true) || old(SentNow(trace))
      ensures CycledNow(trace) <==> e == Power(true) || old(CycledNow(trace))
      ensures Retried(trace) == old(Retried(trace))
      ensures Mismatched(trace, job.version) == old(Mismatched(trace, job.version))
      ensures Last(trace) == e && !Owed(job, trace)
      ensures !e.Opened? && !e.Server? ==> Settled()
    {
      hide Proper, Sends, KnownVersion, DeviceOf, ChannelOf, IdOf, RemoteOf;
      hide SentNow, CycledNow, Retried, Mismatched, Handles, Passes, Facts;
      Snoc(job, trace, e);
      trace := trace + [e];
      Calm(job, trace);
    }

    /** Another attempt begins. */
    method NextPass()
      requires Valid() && !Due(job, trace)
      modifies this`trace, this`passes
      ensures Settled() && passes == old(passes) + 1 && !SentNow(trace) && Sends(trace) == old(Sends(trace))
      ensures Mismatched(trace, job.version) == old(Mismatched(trace, job.version))
    {
      hide Proper, Sends, KnownVersion, DeviceOf, ChannelOf, IdOf, RemoteOf;
      hide SentNow, CycledNow, Retried, Mismatched, Handles, Passes, Facts;
      PassAllowed(job, trace);
      Snoc(job, trace, Pass);
      trace, passes := trace + [Pass], passes + 1;
      Calm(job, trace);
    }

    method CreateFw()
      requires Settled() && !fw && Identified()
      requires Last(trace).Reboot? || Last(trace).NoAnswer? || channelClass == FIRMWAREUPGRADE
      requires deviceClass == VINT ==> CycledNow(trace) || (channelClass == FIRMWAREUPGRADE && !Retried(trace))
      modifies this`trace, this`fw
      ensures Valid() && fw && trace == old(trace) + [Create] && Sends(trace) == old(Sends(trace))
      ensures SentNow(trace) == old(SentNow(trace)) && !Due(job, trace) && !Owed(job, trace)
    {
      hide Proper, Sends, KnownVersion, DeviceOf, ChannelOf, IdOf, RemoteOf;
      hide SentNow, CycledNow, Retried, Mismatched, Handles, Passes, Facts;
      Snoc(job, trace, Create);
      trace, fw := trace + [Create], true;
      Calm(job, trace);
    }

    /** Phidget_delete does nothing without a handle. */
    method DeleteFw()
      requires Valid() && !Due(job, trace)
      modifies this`trace, this`fw
      ensures Valid() && !fw && !Due(job, trace) && trace == old(trace) + (if old(fw) then [Delete] else [])
      ensures Sends(trace) == old(Sends(trace)) && Retried(trace) == old(Retried(trace))
      ensures Mismatched(trace, job.version) == old(Mismatched(trace, job.version))
    {
      hide Proper, Sends, KnownVersion, DeviceOf, ChannelOf, IdOf, RemoteOf;
      hide SentNow, CycledNow, Retried, Mismatched, Handles, Passes, Facts;
      if fw {
        Snoc(job, trace, Delete);
        trace, fw := trace + [Delete], false;
        Calm(job, trace);
      }
    }

    /** Phidget_getDeviceVersion and its like. */
    method ReadVersion() returns (ret: int)
      requires Settled()
      requires if SentNow(trace) then Last(trace).Attached? else if fw then Last(trace).Opened?
        else Asked(trace) || (Last(trace).Remote? && known >= ALL_FACTS && passes == 0)
      modifies this`calls, this`given, this`trace, this`currentVersion
      ensures Valid() && calls == old(calls) + 1 && ret == code(old(calls)) && given >= old(given)
      ensures if ret == OK then trace == old(trace) + [Known(currentVersion)]
              else trace == old(trace) && currentVersion == old(currentVersion)
      ensures SentNow(trace) == old(SentNow(trace)) && Sends(trace) == old(Sends(trace))
      ensures CycledNow(trace) == old(CycledNow(trace)) && Retried(trace) == old(Retried(trace))
      ensures ret == OK && old(SentNow(trace)) ==> Settled()
      ensures ret == OK && old(SentNow(trace)) && currentVersion != job.version ==> Mismatched(trace, job.version)
    {
      hide Proper, Sends, KnownVersion, DeviceOf, ChannelOf, IdOf, RemoteOf;
      hide SentNow, CycledNow, Retried, Mismatched, Handles, Passes, Facts;
      ret := Ask();
      if ret == OK {
        var v := Read();
        Snoc(job, trace, Known(v));
        currentVersion, trace := v, trace + [Known(v)];
        Calm(job, trace);
      }
    }

    method ReadDeviceClass() returns (ret: int)
      requires Settled()
      modifies this`calls, this`given, this`trace, this`deviceClass, this`known
      ensures Settled() && calls == old(calls) + 1 && ret == code(old(calls)) && Kept(old(trace))
      ensures known == old(known) + if ret == OK then {ItsClass} else {}
    {
      hide Proper, Sends, KnownVersion, DeviceOf, ChannelOf, IdOf, RemoteOf, Due, Owed, Allowed;
      hide SentNow, CycledNow, Retried, Mismatched, Handles, Passes, Facts;
      ret := Ask();
      if ret == OK {
        var c := Read();
        FactSnoc(job, trace, DeviceClass(c));
        deviceClass, trace := c, trace + [DeviceClass(c)];
        known := known + {ItsClass};
      }
    }

    method ReadChannelClass() returns (ret: int)
      requires Settled()
      modifies this`calls, this`given, this`trace, this`channelClass, this`known
      ensures Settled() && calls == old(calls) + 1 && ret == code(old(calls)) && Kept(old(trace))
      ensures known == old(known) + if ret == OK then {ItsChannel} else {}
      ensures ret == OK ==> (Asked(trace) <==> old(Last(trace).Attached?))
    {
      hide Proper, Sends, KnownVersion, DeviceOf, ChannelOf, IdOf, RemoteOf, Due, Owed, Allowed;
      hide SentNow, CycledNow, Retried, Mismatched, Handles, Passes, Facts;
      ret := Ask();
      if ret == OK {
        var c := Read();
        FactSnoc(job, trace, ChannelClass(c));
        channelClass, trace := c, trace + [ChannelClass(c)];
        known := known + {ItsChannel};
      }
    }

    method ReadId() returns (ret: int)
      requires Settled()
      modifies this`calls, this`given, this`trace, this`id, this`known
      ensures Settled() && calls == old(calls) + 1 && ret == code(old(calls)) && Kept(old(trace))
      ensures known == old(known) + if ret == OK then {ItsId} else {}
    {
      hide Proper, Sends, KnownVersion, DeviceOf, ChannelOf, IdOf, RemoteOf, Due, Owed, Allowed;
      hide SentNow, CycledNow, Retried, Mismatched, Handles, Passes, Facts;
      ret := Ask();
      if ret == OK {
        var i := Read();
        FactSnoc(job, trace, Id(i));
        id, trace := i, trace + [Id(i)];
        known := known + {ItsId};
      }
    }

    method ReadRemote() returns (ret: int)
      requires Settled()
      modifies this`calls, this`given, this`trace, this`remote, this`known
      ensures Settled() && calls == old(calls) + 1 && ret == code(old(calls)) && Kept(old(trace))
      ensures ret == OK ==> Last(trace).Remote?
      ensures known == old(known) + if ret == OK then {WhetherRemote} else {}
    {
      hide Proper, Sends, KnownVersion, DeviceOf, ChannelOf, IdOf, RemoteOf, Due, Owed, Allowed;
      hide SentNow, CycledNow, Retried, Mismatched, Handles, Passes, Facts;
      ret := Ask();
      if ret == OK {
        var r := Read();
        FactSnoc(job, trace, Remote(r != 0));
        remote, trace := r != 0, trace + [Remote(r != 0)];
        known := known + {WhetherRemote};
      }
    }

    /** Nothing has been sent, switched or retried since. */
    ghost predicate Kept(t: seq<Event>)
      reads this`trace
    {
      SentNow(trace) == SentNow(t) && CycledNow(trace) == CycledNow(t) && Retried(trace) == Retried(t)
      && Sends(trace) == Sends(t) && Mismatched(trace, job.version) == Mismatched(t, job.version)
    }

    // ----- the stretches between the labels -----

    /** Unless overridden, the file must be newer, and an old server may have to be upgraded first. */
    method Gate() returns (next: Label)
      requires Valid() && Last(trace) == Known(currentVersion) && !fw && !SentNow(trace) && trace != []
      modifies this`calls, this`given, this`trace
      ensures Valid() && !Due(job, trace) && Kept(old(trace)) && calls >= old(calls)
      ensures next == On || next == Error || next == Abort
      ensures next == On ==> Settled() && Passed(job, trace) && !SentNow(trace)
      ensures next == Error ==> !AllOk(old(calls))
      ensures next == Abort ==> Last(trace) == Refuse && !Owed(job, trace)
    {
      hide Proper, Sends, KnownVersion, DeviceOf, ChannelOf, IdOf, RemoteOf;
      hide SentNow, CycledNow, Retried, Mismatched, Handles, Passes, Facts, FactOf;
      if job.override {
        return On;
      }
      if job.version <= currentVersion {
        Note(Refuse);
        return Abort;
      }
      if remote {
        var ret := Ask();
        if ret != OK {
          return Error;
        }
        var major := Read();
        var minor := Read();
        Note(Server(major, minor));
        if major < 2 || (major == 2 && minor < 3) {
          if (id == HUB0000 && job.version >= 300) || (id == HUB0004 && job.version >= 200)
             || (id == HUB5000 && job.version >= 200) {
            Note(Refuse);
            return Abort;
          }
        }
      }
      return On;
    }

    /** The class, the channel, the ID, and whether the device is remote. */
    method ReadFacts() returns (ret: int)
      requires Settled()
      modifies this`calls, this`given, this`trace, this`channelClass, this`deviceClass, this`remote, this`id
      modifies this`known
      ensures Settled() && Kept(old(trace)) && calls >= old(calls) && (ret != OK ==> !AllOk(old(calls)))
      ensures ret == OK ==> known >= ALL_FACTS && Last(trace).Remote?
    {
      hide Proper, Sends, KnownVersion, DeviceOf, ChannelOf, IdOf, RemoteOf, Due, Owed, Allowed;
      hide SentNow, CycledNow, Retried, Mismatched, Handles, Passes, Facts, FactOf;
      hide Valid, Settled;
      ret := ReadDeviceClass();
      if ret != OK { return; }
      ret := ReadChannelClass();
      if ret != OK { return; }
      ret := ReadId();
      if ret != OK { return; }
      ret := ReadRemote();
    }

    /** What is read from the device before anything else. */
    method Identify() returns (ret: int)
      requires Settled()
      modifies this`calls, this`given, this`trace, this`channelClass, this`deviceClass, this`remote, this`id
      modifies this`known
      ensures Settled() && Kept(old(trace)) && calls >= old(calls) && (ret != OK ==> !AllOk(old(calls)))
      ensures ret == OK ==> known >= ALL_FACTS && Last(trace).Remote?
    {
      hide Proper, Sends, KnownVersion, DeviceOf, ChannelOf, IdOf, RemoteOf, Due, Owed, Allowed;
      hide SentNow, CycledNow, Retried, Mismatched, Handles, Passes, Facts, FactOf;
      ret := Ask();
      if ret != OK { return; }
      ret := ReadFacts();
      if ret != OK { return; }
      if deviceClass == VINT {
        ret := Ask();
      }
    }

    /** Where the labels are reached, and what holds there. */
    ghost predicate At(next: Label, from: nat)
      reads this
    {
      && Valid() && !Due(job, trace)
      && (next == Retry ==> Settled() && !SentNow(trace) && Identified())
      && (next == Fw ==> Settled() && !fw && !SentNow(trace) && FwReached())
      && (next == Error ==> !AllOk(from))
      && (next == Abort ==> Last(trace) == Refuse && !Owed(job, trace))
    }

    /** How the fw label may be reached. */
    ghost predicate FwReached()
      reads this
    {
      && Identified() && (Last(trace).Reboot? || Last(trace).NoAnswer? || channelClass == FIRMWAREUPGRADE)
      && (deviceClass == VINT ==> CycledNow(trace) || (channelClass == FIRMWAREUPGRADE && !Retried(trace)))
    }

    /** Up to the retry label. */
    method Setup() returns (next: Label)
      requires Settled() && !fw && !SentNow(trace) && !Retried(trace)
      modifies this`calls, this`given, this`trace, this`currentVersion, this`channelClass, this`deviceClass
      modifies this`remote, this`id, this`known
      ensures At(next, old(calls)) && (next == Retry || next == Fw || next == Error || next == Abort)
      ensures Sends(trace) == old(Sends(trace)) && calls >= old(calls) && !fw
    {
      hide Proper, Allowed, Due, Owed, Sends, SentNow, CycledNow, Mismatched, Retried;
      var ret := Identify();
      if ret != OK { return Error; }
      if channelClass == FIRMWAREUPGRADE { return Fw; }
      ret := ReadVersion();
      if ret != OK { return Error; }
      next := Gate();
      if next == On { return Retry; }
    }

    /** Open the hub and switch the port off. */
    method PowerOff() returns (ret: int)
      requires Settled() && deviceClass == VINT
      modifies this`calls, this`trace
      ensures Settled() && calls > old(calls) && (ret != OK ==> !AllOk(old(calls))) && Kept(old(trace))
      ensures ret == OK ==> trace == old(trace) + [HubOpened] + [Power(false)]
    {
      hide Proper, Sends, KnownVersion, DeviceOf, ChannelOf, IdOf, RemoteOf, Due, Owed, Allowed;
      hide SentNow, CycledNow, Retried, Mismatched, Handles, Passes, Facts, FactOf;
      assert DeviceOf(trace) == 0x15;
      hide Valid;
      ret := Ask();
      if ret != OK { return; }
      Free(job, trace, HubOpened);
      Note(HubOpened);
      ret := Ask();
      if ret != OK { return; }
      Free(job, trace, Power(false));
      Note(Power(false));
    }

    /** Switch the hub port off and on again. */
    method PowerCycle() returns (ret: int)
      requires Settled() && deviceClass == VINT
      modifies this`calls, this`trace
      ensures Settled() && calls > old(calls) && (ret != OK ==> !AllOk(old(calls)))
      ensures ret == OK ==> trace == old(trace) + [HubOpened, Power(false), Power(true)] && CycledNow(trace)
      ensures SentNow(trace) == old(SentNow(trace)) && Sends(trace) == old(Sends(trace))
      ensures Retried(trace) == old(Retried(trace))
      ensures Mismatched(trace, job.version) == old(Mismatched(trace, job.version))
    {
      hide Proper, Sends, KnownVersion, DeviceOf, ChannelOf, IdOf, RemoteOf, Due, Owed, Allowed, Valid;
      hide SentNow, CycledNow, Retried, Mismatched, Handles, Passes, Facts, FactOf;
      Cycle(trace);
      ret := PowerOff();
      if ret != OK { return; }
      ret := Ask();
      if ret != OK { return; }
      Free(job, trace, Power(true));
      Note(Power(true));
    }

    /** Restart the device and, for a VINT device, switch its port off and on. */
    method RestartDevice() returns (ret: int)
      requires Settled() && Last(trace) == Send(true) && SentNow(trace)
      modifies this`calls, this`trace
      ensures Settled() && Sends(trace) == old(Sends(trace)) && SentNow(trace) && calls >= old(calls)
      ensures ret == OK ==>
        trace == old(trace) + [Restart] + if deviceClass == VINT then [HubOpened, Power(false), Power(true)] else []
      ensures ret != OK ==> !AllOk(old(calls))
    {
      hide Proper, Sends, KnownVersion, DeviceOf, ChannelOf, IdOf, RemoteOf, Due, Owed, Allowed, Valid;
      hide SentNow, CycledNow, Retried, Mismatched, Handles, Passes, Facts, FactOf;
      ret := Ask();
      Free(job, trace, Restart);
      Note(Restart);
      if deviceClass == VINT {
        ret := PowerCycle();
      }
    }

    /** Check the file against the device, and start it in upgrade mode. */
    method Prepare() returns (next: Label)
      requires Settled() && Passed(job, trace)
      modifies this`calls, this`trace
      ensures Settled() && (next == Fw || next == Error) && calls >= old(calls) && Kept(old(trace))
      ensures next == Fw ==> Last(trace).Reboot?
      ensures next == Error ==> !AllOk(old(calls))
    {
      hide Proper, Sends, KnownVersion, DeviceOf, ChannelOf, IdOf, RemoteOf, Due, Owed, Allowed, Passed;
      hide SentNow, CycledNow, Retried, Mismatched, Handles, Passes, Facts, FactOf;
      var ret := Ask();
      if ret != OK { return Error; }
      Free(job, trace, Matched);
      Note(Matched);
      ret := Ask();
      if ret != OK { return Error; }
      Free(job, trace, Reboot);
      Note(Reboot);
      return Fw;
    }

    /** Open the device, which may be in upgrade mode already. */
    method OpenDevice() returns (next: Label)
      requires Settled() && channelClass != FIRMWAREUPGRADE
      modifies this`calls, this`given, this`trace, this`channelClass, this`known
      ensures next == On ==> Asked(trace)
      ensures known >= old(known)
      ensures Settled() && (next == On || next == Fw || next == Error) && calls >= old(calls) && Kept(old(trace))
      ensures next == Fw ==> Last(trace).NoAnswer? || channelClass == FIRMWAREUPGRADE
      ensures next == Error ==> !AllOk(old(calls))
    {
      hide Proper, Sends, KnownVersion, DeviceOf, ChannelOf, IdOf, RemoteOf, Due, Owed, Allowed;
      hide SentNow, CycledNow, Retried, Mismatched, Handles, Passes, Facts, FactOf;
      var ret := Ask();
      if ret != OK {
        if ret != TIMEOUT { return Error; }
        Free(job, trace, NoAnswer(ret));
        Note(NoAnswer(ret));
        return Fw;
      }
      Free(job, trace, Attached);
      Note(Attached);
      ret := ReadChannelClass();
      if ret != OK { return Error; }
      return if channelClass == FIRMWAREUPGRADE then Fw else On;
    }

    /** From the retry label to the fw label. */
    method Attempt() returns (next: Label)
      requires Settled() && !fw && !SentNow(trace) && Identified()
      modifies this`calls, this`given, this`trace, this`currentVersion, this`channelClass, this`known
      ensures At(next, old(calls)) && (next == Fw || next == Error || next == Abort)
      ensures Sends(trace) == old(Sends(trace)) && calls >= old(calls) && !fw
    {
      hide Proper, Sends, KnownVersion, DeviceOf, ChannelOf, IdOf, RemoteOf, Due, Owed, Allowed, Passed;
      hide SentNow, CycledNow, Retried, Mismatched, Handles, Passes, Facts, FactOf;
      hide Valid;
      if deviceClass == VINT {
        var ret := PowerCycle();
        if ret != OK { return Error; }
      }
      if channelClass == FIRMWAREUPGRADE { return Fw; }
      next := OpenDevice();
      if next != On { return; }
      var ret := ReadVersion();
      if ret != OK { return Error; }
      next := Gate();
      if next != On { return; }
      next := Prepare();
    }

    /** Open the device for upgrade, and see that its version is known. */
    method OpenForUpgrade() returns (next: Label)
      requires Settled() && !fw && !SentNow(trace) && FwReached()
      modifies this`calls, this`given, this`trace, this`currentVersion, this`fw
      ensures Valid() && !Owed(job, trace) && calls >= old(calls) && Sends(trace) == old(Sends(trace))
      ensures !SentNow(trace) && fw && (next == On || next == Error)
      ensures next == On ==>
        Allowed(job, trace, if job.version <= currentVersion && !job.override then Refuse else Checked)
      ensures next == On ==> (Due(job, trace) <==> job.version <= currentVersion && !job.override)
      ensures next == Error ==> !Due(job, trace) && !AllOk(old(calls))
    {
      hide Proper, Sends, KnownVersion, DeviceOf, ChannelOf, IdOf, RemoteOf, Due, Owed, Allowed;
      hide SentNow, CycledNow, Retried, Mismatched, Handles, Passes, Facts, FactOf;
      CreateFw();
      var ret := Ask();
      if ret != OK { return Error; }
      OpenedNext(job, trace);
      Note(Opened);
      Calm(job, trace);
      if deviceClass == VINT && currentVersion == NO_VERSION {
        NotYet(job, trace);
        ret := ReadVersion();
        if ret != OK { return Error; }
        Calm(job, trace);
      }
      VersionNext(job, trace);
      return On;
    }

    /** Check the file against the open upgrade handle. */
    method OpenFw() returns (next: Label)
      requires Settled() && !fw && !SentNow(trace) && FwReached()
      modifies this`calls, this`given, this`trace, this`currentVersion, this`fw
      ensures At(next, old(calls)) && (next == On || next == Error || next == Abort)
      ensures Sends(trace) == old(Sends(trace)) && calls >= old(calls) && !SentNow(trace)
      ensures next == On ==> Settled() && fw && Last(trace) == Checked && (job.override || job.version > currentVersion)
      ensures next != On ==> !Owed(job, trace)
    {
      hide Proper, Sends, KnownVersion, DeviceOf, ChannelOf, IdOf, RemoteOf, Due, Owed, Allowed;
      hide SentNow, CycledNow, Retried, Mismatched, Handles, Passes, Facts, FactOf;
      next := OpenForUpgrade();
      if next != On { return; }
      hide FwReached, Identified;
      if job.version <= currentVersion && !job.override {
        Note(Refuse);
        return Abort;
      }
      var ret := Ask();
      if ret != OK { return Error; }
      Note(Checked);
      return On;
    }

    /** Load the file and send it. */
    method SendFile() returns (ret: int)
      requires Settled() && Last(trace) == Checked && (job.override || job.version > currentVersion)
      modifies this`calls, this`trace
      ensures Settled() && old(Sends(trace)) <= Sends(trace) <= old(Sends(trace)) + 1
      ensures ret == OK ==> trace == old(trace) + [Loaded, Send(true)] && SentNow(trace)
      ensures calls >= old(calls) && (ret != OK ==> !AllOk(old(calls)) || job.fileLen > 0x1_0000)
    {
      hide Proper, Sends, KnownVersion, DeviceOf, ChannelOf, IdOf, RemoteOf, Due, Owed, Allowed;
      hide SentNow, CycledNow, Retried, Mismatched, Handles, Passes, Facts, FactOf;
      ret := Ask();
      if ret != OK || job.fileLen > MAX_FILE { return -1; }
      ret := Ask();
      if ret != OK { return; }
      Free(job, trace, Loaded);
      Note(Loaded);
      ret := Ask();
      Free(job, trace, Send(ret == OK));
      Note(Send(ret == OK));
    }

    /** Restart the device and, unless an upgrade handle was passed in, see that it has the new version. */
    method Confirm() returns (ok: bool)
      requires Settled() && Last(trace) == Send(true) && SentNow(trace) && fw
      modifies this`calls, this`given, this`trace, this`currentVersion
      ensures Settled() && Sends(trace) == old(Sends(trace)) && calls >= old(calls)
      ensures ok ==>
        trace == old(trace) + [Restart] + (if deviceClass == VINT then [HubOpened, Power(false), Power(true)] else [])
          + (if channelClass == FIRMWAREUPGRADE then [] else [Attached, Known(job.version)])
      ensures !ok ==> !AllOk(old(calls)) || Mismatched(trace, job.version)
    {
      hide Proper, Sends, KnownVersion, DeviceOf, ChannelOf, IdOf, RemoteOf, Due, Owed, Allowed;
      hide SentNow, CycledNow, Retried, Mismatched, Handles, Passes, Facts, FactOf;
      hide Valid;
      var ret := RestartDevice();
      if ret != OK { return false; }
      if channelClass != FIRMWAREUPGRADE {
        ret := Ask();
        if ret != OK { return false; }
        Free(job, trace, Attached);
        Note(Attached);
        ret := ReadVersion();
        if ret != OK || currentVersion != job.version { return false; }
      }
      return true;
    }

    /** From the fw label to the end of a successful upgrade. */
    method Upgrade() returns (next: Label)
      requires Settled() && !fw && !SentNow(trace) && FwReached()
      modifies this`calls, this`given, this`trace, this`currentVersion, this`fw
      ensures Valid() && !Due(job, trace) && (next == Return(0) || next == Error || next == Abort)
      ensures calls >= old(calls) && (next == Error ==> !Owed(job, trace) && (!AllOk(old(calls)) || Failing()))
      ensures next == Abort ==> Last(trace) == Refuse && !Owed(job, trace)
      ensures Sends(trace) <= old(Sends(trace)) + 1
      ensures next == Return(0) ==> !fw && Succeeded()
    {
      hide Proper, Sends, KnownVersion, DeviceOf, ChannelOf, IdOf, RemoteOf, Due, Owed, Allowed;
      hide SentNow, CycledNow, Retried, Mismatched, Handles, Passes, Facts, FactOf;
      hide Ending, EndsWith;
      next := OpenFw();
      if next != On { return; }
      ghost var before := trace;
      var ret := SendFile();
      if ret != OK { return Error; }
      var ok := Confirm();
      if !ok { return Error; }
      DeleteFw();
      assert trace == before + [Loaded] + [Send(true)] + [Restart]
        + (if deviceClass == VINT then [HubOpened, Power(false), Power(true)] else [])
        + (if channelClass == FIRMWAREUPGRADE then [] else [Attached, Known(job.version)]) + [Delete];
      Ended(job, before + [Loaded], trace, deviceClass == VINT, channelClass == FIRMWAREUPGRADE);
      return Return(0);
    }

    /** The run has ended with a send that was taken, a restart and, unless an upgrade handle was passed in, a look at
      * the version that gave the file's. */
    ghost predicate Succeeded()
      reads this`trace
    {
      EndsWith(trace, Ending(job, DeviceOf(trace) == 0x15, ChannelOf(job, trace) == 0x20))
    }

    /** What makes an attempt fail when every call succeeds. */
    ghost predicate Failing()
      reads this`trace
    {
      job.fileLen > 0x1_0000 || Mismatched(trace, job.version)
    }

    /** The whole upgrade: at most four attempts, in which everything happens where it may.  It succeeds only with the
      * ending of a success.  It fails only when it is refused, which happens where a refusal is due and nowhere else,
      * or when four attempts have gone and some call failed, the file is too big or the device came back with another
      * version. */
    method Run() returns (res: int)
      requires Valid() && trace == [] && retryCnt == 0 && calls == 0
      modifies this
      ensures Proper(job, trace) && !Due(job, trace) && Handles(trace) == 0 && Sends(trace) <= 4
      ensures res == 0 || res == 1
      ensures res == 0 ==> Succeeded()
      ensures res == 1 ==> Refused() || (Passes(trace) == 3 && (!AllOk(0) || Failing()))
    {
      hide Proper, Sends, KnownVersion, DeviceOf, ChannelOf, IdOf, RemoteOf, Due, Owed, Allowed;
      hide SentNow, CycledNow, Retried, Mismatched, Handles, Passes, Facts, FactOf;
      Nothing(job);
      assert passes == 0 && !fw;
      hide Valid;
      var at := Setup();
      while !at.Return?
        invariant Valid() && !Due(job, trace) && at != On && retryCnt <= 4
        invariant at.Return? ==> at.res == 0 || at.res == 1
        invariant at == Retry ==> Settled() && !SentNow(trace) && !fw && Identified()
        invariant at == Fw ==> Settled() && !SentNow(trace) && !fw && FwReached()
        invariant at == Abort ==> Last(trace) == Refuse && !Owed(job, trace)
        invariant at == Error ==> !AllOk(0) || Failing()
        invariant at.Return? ==> !fw && Sends(trace) <= 4 && (at.res == 0 ==> Succeeded())
        invariant at.Return? && at.res == 1 ==> Refused() || (passes == 3 && (!AllOk(0) || Failing()))
        invariant !at.Return? ==>
          passes == retryCnt <= 3 && Sends(trace) <= retryCnt + if at == Error || at == Abort then 1 else 0
        decreases 4 - retryCnt, if at == Retry then 3 else if at == Fw then 2 else if at.Return? then 0 else 1
      {
        if at == Retry {
          at := Attempt();
        } else if at == Fw {
          at := Upgrade();
        } else {
          var again := at == Error && retryCnt < 3;
          retryCnt := retryCnt + if at == Error then 1 else 0;
          DeleteFw();
          if again {
            NextPass();
          }
          at := if again then Retry else Return(1);
        }
      }
      Ends();
      return at.res;
    }

    lemma Ends()
      requires Valid() && !fw
      ensures Proper(job, trace) && Handles(trace) == 0 && passes == Passes(trace)
    {
    }

    /** The upgrade was refused. */
    ghost predicate Refused()
      reads this`trace
    {
      Refuse in trace
    }
  }
}
