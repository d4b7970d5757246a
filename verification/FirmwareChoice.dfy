/** Reading the firmware directory, and choosing the file to upgrade a device with. */
module FirmwareChoice {
  import opened Base
  import opened FirmwareOrder
  import opened FirmwareList

  /** One directory entry, as the loop that reads the directory sees it. */
  datatype DirEnt = SubDirectory | OtherExtension | BadName | Unreadable | File(fw: Fw)

  /** The firmware files in the directory, in directory order. */
  function FilesIn(dir: seq<DirEnt>): seq<Fw> {
    if dir == [] then [] else (if dir[0].File? then [dir[0].fw] else []) + FilesIn(dir[1..])
  }

  lemma FilesInSnoc(dir: seq<DirEnt>, e: DirEnt)
    ensures FilesIn(dir + [e]) == FilesIn(dir) + if e.File? then [e.fw] else []
  {
    if dir == [] {
      assert [e][1..] == [];
      assert [] + [e] == [e];
    } else {
      assert (dir + [e])[1..] == dir[1..] + [e] && (dir + [e])[0] == dir[0];
      FilesInSnoc(dir[1..], e);
    }
  }

  /** One more entry: a file goes ahead of those read before it. */
  lemma Read(dir: seq<DirEnt>, i: nat, was: seq<Fw>)
    requires i <= |dir|
    ensures i == 0 ==> Reversed(FilesIn(dir[..i])) + was == was
    ensures i < |dir| ==> dir[..i + 1] == dir[..i] + [dir[i]]
    ensures i < |dir| ==> (
      Reversed(FilesIn(dir[..i + 1])) + was
      == (if dir[i].File? then [dir[i].fw] else []) + (Reversed(FilesIn(dir[..i])) + was))
  {
    if i < |dir| {
      var e, before := dir[i], FilesIn(dir[..i]);
      FilesInSnoc(dir[..i], e);
      assert dir[..i + 1] == dir[..i] + [e];
      if e.File? {
        ReversedAppend(before, [e.fw]);
        assert Reversed([e.fw]) == [e.fw];
      } else {
        assert before + [] == before;
      }
    }
  }

  predicate Readable(e: DirEnt) { !e.BadName? && !e.Unreadable? }

  class FwList {
    var first: FwEnt?
    ghost var nodes: seq<FwEnt>

    ghost predicate Valid()
      reads this, nodes
    {
      IsList(first, nodes)
    }

    ghost function Contents(): seq<Fw>
      reads this, nodes
    {
      Files(nodes)
    }

    constructor ()
      ensures Valid() && Contents() == [] && nodes == []
    {
      first, nodes := null, [];
    }

    /** fwadd: a new node at the head. */
    method Add(fw: Fw)
      requires Valid()
      modifies this
      ensures Valid() && Contents() == [fw] + old(Contents())
      ensures fresh(Nodes(nodes) - old(Nodes(nodes)))
    {
      var fwe := new FwEnt(fw);
      assert fwe !in nodes;
      fwe.next := first;
      first := fwe;
      hide Files, Linked, Distinct;
      ListCons(fwe, nodes);
      FilesFirst(fwe, nodes);
      nodes := [fwe] + nodes;
    }

    method SortFirmware()
      requires Valid()
      modifies this, Nodes(nodes)
      ensures Valid() && Contents() == Sort(old(Contents())) && Nodes(nodes) == old(Nodes(nodes))
    {
      first, nodes := MergeSort(first, nodes);
    }

    /** readPhidgetFirmwareFiles: every firmware file goes on the list, which is then sorted; a bad name or a
      * directory that cannot be read ends it early, unsorted. */
    method ReadFirmwareFiles(dir: seq<DirEnt>) returns (err: int)
      requires Valid()
      modifies this, Nodes(nodes)
      ensures Valid()
      ensures err == if forall e :: e in dir ==> Readable(e) then 0 else 1
      ensures err == 0 ==> Contents() == Sort(Reversed(FilesIn(dir)) + old(Contents()))
    {
      hide FilesIn, Reversed, Files, Linked;
      var i := 0;
      ghost var was := Contents();
      Read(dir, 0, was);
      while i < |dir|
        invariant 0 <= i <= |dir| && Valid() && fresh(Nodes(nodes) - old(Nodes(nodes)))
        invariant Contents() == Reversed(FilesIn(dir[..i])) + was
        invariant forall e :: e in dir[..i] ==> Readable(e)
      {
        Read(dir, i, was);
        if !Readable(dir[i]) {
          return 1;
        }
        if dir[i].File? {
          Add(dir[i].fw);
        }
        i := i + 1;
      }
      assert dir[..i] == dir;
      SortFirmware();
      return 0;
    }
  }

  // ----- choosing a version -----

  /** C's division, towards zero. */
  function CDiv(a: int, b: int): int
    requires b > 0
  {
    if a >= 0 then a / b else -((-a) / b)
  }

  /** Without -m a file is an upgrade only within the device's series of a hundred versions. */
  lemma SameSeries(rq: Request, f: Fw)
    ensures Upgrade(rq, f) <==>
      && rq.matches(f) && f.version > 0 && f.version > rq.version
      && (rq.major || exists k :: SeriesOf(f.version, k) && SeriesOf(rq.version, k))
  {
    assert SeriesOf(f.version, CDiv(f.version, 100)) && SeriesOf(rq.version, CDiv(rq.version, 100));
    if Upgrade(rq, f) && !rq.major {
      assert SeriesOf(f.version, CDiv(f.version, 100)) && SeriesOf(rq.version, CDiv(f.version, 100));
    }
  }

  /** Version v is in the k-th series; the 0-th holds the negative ones down to -99 as well. */
  predicate SeriesOf(v: int, k: int) {
    (k >= 0 && v >= 0 && 100 * k <= v <= 100 * k + 99) || (k <= 0 && v <= 0 && 100 * k - 99 <= v <= 100 * k)
  }

  /** What the command line and the device settle: which files match the device, its version, and -m, -V
    * (negative when not given). */
  datatype Request = Request(matches: Fw -> bool, version: int, major: bool, override: int)

  predicate Upgrade(rq: Request, f: Fw) {
    && rq.matches(f) && f.version > 0 && f.version > rq.version
    && (rq.major || CDiv(f.version, 100) == CDiv(rq.version, 100))
  }

  predicate Specified(rq: Request, f: Fw) { rq.matches(f) && f.version == rq.override }

  /** The first file that satisfies p. */
  function FirstOf(s: seq<Fw>, p: Fw -> bool): Option<Fw> {
    if s == [] then None else if p(s[0]) then Some(s[0]) else FirstOf(s[1..], p)
  }

  function IsSpecified(rq: Request): Fw -> bool { x => Specified(rq, x) }

  function IsUpgradeTo(rq: Request, v: int): Fw -> bool { x => Upgrade(rq, x) && x.version == v }

  /** f is an upgrade, no upgrade in s is newer, and f is the first of its version that is one. */
  ghost predicate BestUpgrade(rq: Request, s: seq<Fw>, f: Fw) {
    && Upgrade(rq, f) && (forall x :: x in s && Upgrade(rq, x) ==> x.version <= f.version)
    && FirstOf(s, IsUpgradeTo(rq, f.version)) == Some(f)
  }

  ghost predicate BestOf(rq: Request, s: seq<Fw>, best: Option<Fw>) {
    if best.Some? then BestUpgrade(rq, s, best.value) else forall x :: x in s ==> !Upgrade(rq, x)
  }

  lemma FirstOfSnoc(s: seq<Fw>, x: Fw, p: Fw -> bool)
    ensures FirstOf(s + [x], p) == if FirstOf(s, p).Some? then FirstOf(s, p) else if p(x) then Some(x) else None
  {
    if s == [] {
      assert s + [x] == [x] && [x][1..] == [];
    } else {
      assert (s + [x])[1..] == s[1..] + [x];
      FirstOfSnoc(s[1..], x, p);
    }
  }

  lemma FirstOfNone(s: seq<Fw>, p: Fw -> bool)
    ensures FirstOf(s, p).None? <==> forall x :: x in s ==> !p(x)
    ensures FirstOf(s, p).Some? ==> p(FirstOf(s, p).value) && FirstOf(s, p).value in s
  {
  }

  /** One more file on the list becomes the best only if it is a strictly newer upgrade. */
  lemma BestSnoc(rq: Request, s: seq<Fw>, x: Fw, best: Option<Fw>)
    requires BestOf(rq, s, best)
    ensures BestOf(rq, s + [x],
                   if Upgrade(rq, x) && (best.None? || x.version > best.value.version) then Some(x) else best)
  {
    var best' := if Upgrade(rq, x) && (best.None? || x.version > best.value.version) then Some(x) else best;
    if best'.Some? {
      FirstOfSnoc(s, x, IsUpgradeTo(rq, best'.value.version));
      FirstOfNone(s, IsUpgradeTo(rq, best'.value.version));
    }
  }

  /** The i-th node carries the i-th file. */
  lemma {:induction false} FilesAt(s: seq<FwEnt>, i: nat)
    requires i < |s|
    ensures Files(s)[i] == s[i].fw && Files(s)[..i + 1] == Files(s)[..i] + [s[i].fw]
  {
    FilesCons(s);
    if i > 0 {
      FilesAt(s[1..], i - 1);
      assert s[1..][i - 1] == s[i];
    }
  }

  /** The selection loop of doFirmwareUpgrade. */
  method SelectFirmware(rq: Request, list: FwList) returns (chosen: Option<Fw>)
    requires list.Valid()
    ensures rq.override >= 0 ==> chosen == FirstOf(list.Contents(), IsSpecified(rq))
    ensures rq.override < 0 ==> BestOf(rq, list.Contents(), chosen)
  {
    hide Files, FirstOf;
    chosen := None;
    var fwversion := 0;
    var fwent := list.first;
    ghost var s, files, i := list.nodes, list.Contents(), 0;
    NothingChosen(rq);
    while fwent != null
      invariant 0 <= i <= |s| && fwent == (if i < |s| then s[i] else null)
      invariant rq.override >= 0 ==> chosen == None == FirstOf(files[..i], IsSpecified(rq))
      invariant rq.override < 0 ==>
        BestOf(rq, files[..i], chosen) && fwversion == if chosen.Some? then chosen.value.version else 0
      decreases |s| - i
    {
      var fw := fwent.fw;
      FilesAt(s, i);
      Nth(s, i);
      if rq.override >= 0 {
        FirstOfSnoc(files[..i], fw, IsSpecified(rq));
      } else {
        BestSnoc(rq, files[..i], fw, chosen);
      }
      if rq.matches(fw) {
        if rq.override >= 0 {
          if fw.version == rq.override {
            fwversion, chosen := fw.version, Some(fw);
            FirstOfPrefix(files, i + 1, IsSpecified(rq));
            return;
          }
        } else if rq.major || CDiv(fw.version, 100) == CDiv(rq.version, 100) {
          if fw.version > fwversion && fw.version > rq.version {
            fwversion, chosen := fw.version, Some(fw);
          }
        }
      }
      fwent, i := fwent.next, i + 1;
    }
    assert files[..i] == files;
  }

  lemma NothingChosen(rq: Request)
    ensures FirstOf([], IsSpecified(rq)) == None && BestOf(rq, [], None)
  {
  }

  lemma FirstOfPrefix(s: seq<Fw>, i: nat, p: Fw -> bool)
    requires i <= |s| && FirstOf(s[..i], p).Some?
    ensures FirstOf(s, p) == FirstOf(s[..i], p)
  {
    if !p(s[0]) {
      assert s[..i][1..] == s[1..][..i - 1];
      FirstOfPrefix(s[1..], i - 1, p);
    }
  }

  /** newestFirmware: the specified version if a matching file has it, else the newest matching version. */
  method NewestFirmware(matches: Fw -> bool, override: int, list: FwList) returns (fwversion: int)
    requires list.Valid()
    ensures override >= 0 ==>
      fwversion == if exists x :: x in list.Contents() && matches(x) && x.version == override then override else 0
    ensures override < 0 ==> fwversion >= 0 && forall x :: x in list.Contents() && matches(x) ==> x.version <= fwversion
    ensures override < 0 && fwversion > 0 ==> exists x :: x in list.Contents() && matches(x) && x.version == fwversion
  {
    hide Files;
    fwversion := 0;
    var fwent := list.first;
    ghost var s, files, i := list.nodes, list.Contents(), 0;
    while fwent != null
      invariant 0 <= i <= |s| && fwent == (if i < |s| then s[i] else null)
      invariant override >= 0 ==> fwversion == 0 && forall x :: x in files[..i] && matches(x) ==> x.version != override
      invariant override < 0 ==> fwversion >= 0 && forall x :: x in files[..i] && matches(x) ==> x.version <= fwversion
      invariant override < 0 && fwversion > 0 ==> exists x :: x in files && matches(x) && x.version == fwversion
      decreases |s| - i
    {
      var fw := fwent.fw;
      FilesAt(s, i);
      Nth(s, i);
      assert fw in files;
      if matches(fw) {
        if override >= 0 {
          if fw.version == override {
            fwversion := fw.version;
            return;
          }
        } else if fw.version > fwversion {
          fwversion := fw.version;
        }
      }
      fwent, i := fwent.next, i + 1;
    }
    assert files[..i] == files;
  }

  // ----- what the choice depends on -----

  /** Which version is chosen does not depend on the order of the list. */
  lemma ChoiceIgnoresOrder(rq: Request, s: seq<Fw>, t: seq<Fw>, a: Option<Fw>, b: Option<Fw>)
    requires multiset(s) == multiset(t) && BestOf(rq, s, a) && BestOf(rq, t, b)
    ensures a.Some? == b.Some? && (a.Some? ==> a.value.version == b.value.version)
  {
    assert forall x :: x in s <==> x in multiset(s);
    assert forall x :: x in t <==> x in multiset(t);
    if a.Some? {
      FirstOfNone(s, IsUpgradeTo(rq, a.value.version));
    }
    if b.Some? {
      FirstOfNone(t, IsUpgradeTo(rq, b.value.version));
    }
  }

  /** Looking for a version, only the files of that version matter. */
  lemma FirstOfVersion(s: seq<Fw>, p: Fw -> bool, v: int)
    requires forall x :: p(x) ==> x.version == v
    ensures FirstOf(s, p) == FirstOf(OfVersion(s, v), p)
  {
    if s != [] {
      var rest := OfVersion(s[1..], v);
      assert [] + rest == rest && ([s[0]] + rest)[1..] == rest;
    }
  }

  /** On the list as readPhidgetFirmwareFiles leaves it, the chosen file is the first upgrade of its version in
    * directory order, and no upgrade in the directory is newer. */
  lemma ChosenInDirectoryOrder(rq: Request, dir: seq<Fw>, chosen: Option<Fw>)
    requires BestOf(rq, Sort(Reversed(dir)), chosen)
    ensures BestOf(rq, dir, chosen)
  {
    var s := Sort(Reversed(dir));
    SortOrder(Reversed(dir));
    ReversedHas(dir);
    assert forall x :: x in s <==> x in multiset(s);
    assert forall x :: x in dir <==> x in multiset(dir);
    if chosen.Some? {
      var v := chosen.value.version;
      FirstOfVersion(s, IsUpgradeTo(rq, v), v);
      FirstOfVersion(dir, IsUpgradeTo(rq, v), v);
      SortedDirectory(dir, v);
    }
  }

  lemma ReversedHas(s: seq<Fw>)
    ensures multiset(Reversed(s)) == multiset(s)
  {
    if s != [] {
      ReversedHas(s[1..]);
      assert s == [s[0]] + s[1..];
    }
  }

  /** With -V, the chosen file is the first one of that version, in directory order, that matches. */
  lemma SpecifiedInDirectoryOrder(rq: Request, dir: seq<Fw>)
    ensures FirstOf(Sort(Reversed(dir)), IsSpecified(rq)) == FirstOf(dir, IsSpecified(rq))
  {
    FirstOfVersion(Sort(Reversed(dir)), IsSpecified(rq), rq.override);
    FirstOfVersion(dir, IsSpecified(rq), rq.override);
    SortedDirectory(dir, rq.override);
  }
}
