/** The firmware list itself: nodes linked through next, sorted by relinking them in place. */
module FirmwareList {
  import opened Base
  import opened FirmwareOrder

  class FwEnt {
    const fw: Fw
    var next: FwEnt?

    constructor (fw: Fw)
      ensures this.fw == fw && next == null
    {
      this.fw, next := fw, null;
    }
  }

  function First(s: seq<FwEnt>): FwEnt? { if s == [] then null else s[0] }

  /** The nodes s are linked in this order and the last one ends the list. */
  ghost predicate Linked(s: seq<FwEnt>)
    reads s
  {
    Run(s) && (s != [] ==> s[|s| - 1].next == null)
  }

  ghost predicate IsList(n: FwEnt?, s: seq<FwEnt>)
    reads s
  {
    n == First(s) && Linked(s) && Distinct(s)
  }

  function Files(s: seq<FwEnt>): (r: seq<Fw>)
    ensures |r| == |s|
  {
    if s == [] then [] else [s[0].fw] + Files(s[1..])
  }

  lemma FilesAppend(a: seq<FwEnt>, b: seq<FwEnt>)
    ensures Files(a + b) == Files(a) + Files(b)
  {
    if a == [] {
      assert a + b == b;
    } else {
      assert (a + b)[1..] == a[1..] + b;
      FilesAppend(a[1..], b);
    }
  }

  lemma FilesFirst(n: FwEnt, s: seq<FwEnt>)
    ensures Files([n] + s) == [n.fw] + Files(s)
  {
    assert ([n] + s)[1..] == s;
  }

  /** A new node in front of a list makes a list. */
  lemma ListCons(n: FwEnt, s: seq<FwEnt>)
    requires Linked(s) && Distinct(s) && n !in s && n.next == First(s)
    ensures IsList(n, [n] + s)
  {
    var r := [n] + s;
    assert forall i :: 0 < i < |r| ==> r[i] == s[i - 1];
  }

  lemma LinkedTail(s: seq<FwEnt>)
    requires Linked(s) && Distinct(s) && s != []
    ensures Linked(s[1..]) && Distinct(s[1..]) && s[0].next == First(s[1..]) && s[0] !in s[1..]
    ensures Files(s) == [s[0].fw] + Files(s[1..])
  {
  }

  /** The nodes r are linked in this order; nothing is said of where the last one points. */
  ghost predicate Run(r: seq<FwEnt>)
    reads r
  {
    forall i :: 0 <= i < |r| - 1 ==> r[i].next == r[i + 1]
  }

  ghost predicate Apart(a: seq<FwEnt>, b: seq<FwEnt>) { forall x :: x in a ==> x !in b }

  /** A list, as merge leaves it behind while it works: what is linked, and what is left of each input. */
  ghost predicate Merging(r: seq<FwEnt>, t1: seq<FwEnt>, t2: seq<FwEnt>)
    reads r, t1, t2
  {
    && r != [] && Run(r) && Distinct(r) && Linked(t1) && Distinct(t1) && Linked(t2) && Distinct(t2)
    && Apart(r, t1) && Apart(r, t2) && Apart(t1, t2)
  }

  function Nodes(s: seq<FwEnt>): set<FwEnt> { set x | x in s }

  /** Link the first of t1 behind r. */
  method TakeFirst(ptr: FwEnt, node: FwEnt, ghost r: seq<FwEnt>, ghost t1: seq<FwEnt>, ghost t2: seq<FwEnt>)
    returns (node': FwEnt?, ptr': FwEnt)
    requires Merging(r, t1, t2) && ptr == r[|r| - 1] && t1 != [] && node == t1[0]
    modifies ptr
    ensures Merging(r + [node], t1[1..], t2) && node' == First(t1[1..]) && ptr' == node
    ensures Files(r + [node]) == Files(r) + [node.fw]
  {
    LinkedTail(t1);
    FilesAppend(r, [node]);
    assert Files([node]) == [node.fw];
    assert ptr in r && node in t1;
    ptr.next := node;
    node' := node.next;
    ptr' := node;
    assert forall i :: 0 <= i < |r| ==> (r + [node])[i] == r[i] && (i < |r| - 1 ==> r[i] != ptr);
    assert forall x :: x in t1[1..] ==> x in t1 && x != ptr;
    assert forall x :: x in t2 ==> x != ptr && x != node;
  }

  lemma DistinctAppend(a: seq<FwEnt>, b: seq<FwEnt>)
    requires Distinct(a) && Distinct(b) && Apart(a, b)
    ensures Distinct(a + b)
  {
    forall i, j | 0 <= i < j < |a + b| ensures (a + b)[i] != (a + b)[j] {
      if i < |a| <= j {
        assert a[i] in a && b[j - |a|] in b;
      }
    }
  }

  lemma Nth(s: seq<FwEnt>, i: nat)
    requires Linked(s) && i < |s|
    ensures s[i].next == if i + 1 < |s| then s[i + 1] else null
  {
  }

  /** What is left of one input goes behind r as it is. */
  method AppendRest(ptr: FwEnt, node: FwEnt?, ghost r: seq<FwEnt>, ghost t: seq<FwEnt>)
    requires r != [] && Run(r) && Distinct(r) && IsList(node, t) && Apart(r, t) && ptr == r[|r| - 1]
    modifies ptr
    ensures IsList(r[0], r + t)
  {
    assert ptr in r;
    DistinctAppend(r, t);
    assert forall i :: 0 <= i < |r| ==> (r + t)[i] == r[i] && (i < |r| - 1 ==> r[i] != ptr);
    assert forall i :: 0 <= i < |t| ==> (r + t)[|r| + i] == t[i] && t[i] != ptr;
    ptr.next := node;
    assert Run(r + t) by {
      forall i | 0 <= i < |r + t| - 1 ensures (r + t)[i].next == (r + t)[i + 1] {
        if i >= |r| {
          assert t[i - |r|].next == t[i - |r| + 1];
        }
      }
    }
  }

  /** Link the newer of the two first nodes behind r; the second list's on a tie. */
  method MergeStep(ptr: FwEnt, node1: FwEnt, node2: FwEnt, ghost r: seq<FwEnt>, ghost t1: seq<FwEnt>,
                   ghost t2: seq<FwEnt>)
    returns (n1: FwEnt?, n2: FwEnt?, last: FwEnt, ghost r': seq<FwEnt>, ghost t1': seq<FwEnt>, ghost t2': seq<FwEnt>)
    requires Merging(r, t1, t2) && t1 != [] && t2 != [] && node1 == t1[0] && node2 == t2[0] && ptr == r[|r| - 1]
    modifies ptr
    ensures Merging(r', t1', t2') && n1 == First(t1') && n2 == First(t2') && last == r'[|r'| - 1] && r'[0] == r[0]
    ensures Nodes(r') + Nodes(t1') + Nodes(t2') == Nodes(r) + Nodes(t1) + Nodes(t2)
    ensures Files(r') + Merge(Files(t1'), Files(t2')) == Files(r) + Merge(Files(t1), Files(t2))
    ensures |t1'| + |t2'| < |t1| + |t2|
  {
    hide Files, Merge, Nodes, Merging;
    MergingFacts(r, t1, t2);
    n1, n2 := node1, node2;
    if node1.fw.version > node2.fw.version {
      NodesTail(r, t1);
      PickFirst(r, t1, t2);
      n1, last := TakeFirst(ptr, node1, r, t1, t2);
      r', t1', t2' := r + [node1], t1[1..], t2;
    } else {
      NodesTail(r, t2);
      PickSecond(r, t1, t2);
      MergingSwap(r, t1, t2);
      n2, last := TakeFirst(ptr, node2, r, t2, t1);
      r', t1', t2' := r + [node2], t1, t2[1..];
      MergingSwap(r', t2', t1');
    }
  }

  lemma MergingSwap(r: seq<FwEnt>, t1: seq<FwEnt>, t2: seq<FwEnt>)
    requires Merging(r, t1, t2)
    ensures Merging(r, t2, t1)
  {
  }

  lemma FilesCons(t: seq<FwEnt>)
    requires t != []
    ensures Files(t) != [] && Files(t)[0] == t[0].fw && Files(t)[1..] == Files(t[1..])
  {
  }

  lemma PickFirst(r: seq<FwEnt>, t1: seq<FwEnt>, t2: seq<FwEnt>)
    requires t1 != [] && t2 != [] && t1[0].fw.version > t2[0].fw.version
    ensures Files(r + [t1[0]]) + Merge(Files(t1[1..]), Files(t2)) == Files(r) + Merge(Files(t1), Files(t2))
  {
    hide Files;
    FilesAppend(r, [t1[0]]);
    FilesCons([t1[0]]);
    FilesCons(t1);
    FilesCons(t2);
    assert Files([t1[0]]) == [t1[0].fw];
  }

  lemma PickSecond(r: seq<FwEnt>, t1: seq<FwEnt>, t2: seq<FwEnt>)
    requires t1 != [] && t2 != [] && t1[0].fw.version <= t2[0].fw.version
    ensures Files(r + [t2[0]]) + Merge(Files(t1), Files(t2[1..])) == Files(r) + Merge(Files(t1), Files(t2))
  {
    hide Files;
    FilesAppend(r, [t2[0]]);
    FilesCons([t2[0]]);
    FilesCons(t1);
    FilesCons(t2);
    assert Files([t2[0]]) == [t2[0].fw];
  }

  /** merge, once its first node is chosen. */
  method MergeRest(last: FwEnt, n1: FwEnt?, n2: FwEnt?, ghost r0: seq<FwEnt>, ghost s1: seq<FwEnt>,
                   ghost s2: seq<FwEnt>)
    returns (ghost s: seq<FwEnt>)
    requires Merging(r0, s1, s2) && n1 == First(s1) && n2 == First(s2) && last == r0[|r0| - 1]
    modifies Nodes(r0) + Nodes(s1) + Nodes(s2)
    ensures IsList(r0[0], s) && Nodes(s) == Nodes(r0) + Nodes(s1) + Nodes(s2)
    ensures Files(s) == Files(r0) + Merge(Files(s1), Files(s2))
  {
    hide Merging, Merge, Files;
    var node1, node2, ptr := n1, n2, last;
    ghost var r, t1, t2 := r0, s1, s2;
    MergingFacts(r, t1, t2);
    while node1 != null && node2 != null
      invariant r != [] && ptr == r[|r| - 1] && r[0] == r0[0]
      invariant Merging(r, t1, t2) && node1 == First(t1) && node2 == First(t2)
      invariant Nodes(r) + Nodes(t1) + Nodes(t2) == Nodes(r0) + Nodes(s1) + Nodes(s2)
      invariant Files(r) + Merge(Files(t1), Files(t2)) == Files(r0) + Merge(Files(s1), Files(s2))
      decreases |t1| + |t2|
    {
      assert ptr in Nodes(r);
      node1, node2, ptr, r, t1, t2 := MergeStep(ptr, node1, node2, r, t1, t2);
      MergingFacts(r, t1, t2);
    }
    assert ptr in Nodes(r);
    MergingFacts(r, t1, t2);
    MergedRest(t1, t2);
    FilesAppend(r, t1);
    FilesAppend(r, t2);
    if node1 != null {
      AppendRest(ptr, node1, r, t1);
      s := r + t1;
    } else {
      AppendRest(ptr, node2, r, t2);
      s := r + t2;
    }
  }

  lemma MergingFacts(r: seq<FwEnt>, t1: seq<FwEnt>, t2: seq<FwEnt>)
    requires Merging(r, t1, t2)
    ensures r != [] && Run(r) && Distinct(r) && IsList(First(t1), t1)
    ensures IsList(First(t2), t2) && Apart(r, t1) && Apart(r, t2)
  {
  }

  lemma MergedRest(t1: seq<FwEnt>, t2: seq<FwEnt>)
    ensures t1 == [] ==> Merge(Files(t1), Files(t2)) == Files(t2)
    ensures t2 == [] ==> Merge(Files(t1), Files(t2)) == Files(t1)
  {
  }

  lemma NodesTail(r: seq<FwEnt>, t: seq<FwEnt>)
    requires t != []
    ensures Nodes(r) + Nodes(t) == Nodes(r + [t[0]]) + Nodes(t[1..])
  {
    assert t == [t[0]] + t[1..];
  }

  /** merge, on two lists without common nodes. */
  method MergeLists(node1: FwEnt?, node2: FwEnt?, ghost s1: seq<FwEnt>, ghost s2: seq<FwEnt>)
    returns (res: FwEnt?, ghost s: seq<FwEnt>)
    requires IsList(node1, s1) && IsList(node2, s2) && Apart(s1, s2)
    modifies Nodes(s1) + Nodes(s2)
    ensures IsList(res, s) && Nodes(s) == Nodes(s1) + Nodes(s2)
    ensures Files(s) == Merge(Files(s1), Files(s2))
  {
    if node1 == null {
      return node2, s2;
    }
    if node2 == null {
      return node1, s1;
    }
    hide Files, Merge, Nodes;
    if node1.fw.version > node2.fw.version {
      BeginMerging(s1, s2);
      res := node1;
      s := MergeRest(node1, node1.next, node2, [node1], s1[1..], s2);
    } else {
      BeginMerging(s2, s1);
      MergingSwap([node2], s2[1..], s1);
      res := node2;
      s := MergeRest(node2, node1, node2.next, [node2], s1, s2[1..]);
    }
    FirstPicked(s1, s2);
  }

  lemma BeginMerging(t: seq<FwEnt>, u: seq<FwEnt>)
    requires t != [] && Linked(t) && Distinct(t) && Linked(u) && Distinct(u) && Apart(t, u)
    ensures Merging([t[0]], t[1..], u) && t[0].next == First(t[1..])
    ensures Nodes([t[0]]) + Nodes(t[1..]) == Nodes(t)
    ensures Nodes([t[0]]) + Nodes(u) + Nodes(t[1..]) == Nodes(t) + Nodes(u)
  {
    LinkedTail(t);
    NodesTail([], t);
    assert [] + [t[0]] == [t[0]] && Nodes([]) == {};
  }

  lemma FirstPicked(s1: seq<FwEnt>, s2: seq<FwEnt>)
    requires s1 != [] && s2 != []
    ensures Merge(Files(s1), Files(s2)) ==
      if s1[0].fw.version > s2[0].fw.version then Files([s1[0]]) + Merge(Files(s1[1..]), Files(s2))
      else Files([s2[0]]) + Merge(Files(s1), Files(s2[1..]))
  {
    assert [] + [s1[0]] == [s1[0]] && [] + [s2[0]] == [s2[0]] && Files([]) == [];
    if s1[0].fw.version > s2[0].fw.version {
      PickFirst([], s1, s2);
    } else {
      PickSecond([], s1, s2);
    }
  }

  /** Cut a list behind its first h nodes. */
  method CutAfter(node: FwEnt, ghost s: seq<FwEnt>, ghost h: nat) returns (rest: FwEnt?)
    requires Linked(s) && Distinct(s) && 0 < h <= |s| && node == s[h - 1]
    modifies node
    ensures IsList(s[0], s[..h]) && IsList(rest, s[h..]) && Apart(s[..h], s[h..])
  {
    Nth(s, h - 1);
    rest := node.next;
    node.next := null;
    assert forall i :: 0 <= i < |s| && i != h - 1 ==> s[i] != node;
    assert forall i :: 0 <= i < |s[h..]| ==> s[h..][i] == s[h + i];
  }

  /** The slow pointer when the fast one has reached the end. */
  method Middle(node: FwEnt, ghost s: seq<FwEnt>) returns (slow: FwEnt)
    requires IsList(node, s) && |s| > 1
    ensures slow == s[(|s| + 1) / 2 - 1]
  {
    var fast: FwEnt := node;
    slow := node;
    ghost var k := 0;
    while fast.next != null
      invariant 0 <= 2 * k < |s| && fast == s[2 * k] && slow == s[k]
      decreases |s| - 2 * k
    {
      Nth(s, 2 * k);
      Nth(s, 2 * k + 1);
      Nth(s, k);
      if fast.next.next == null {
        break;
      }
      fast, slow, k := fast.next.next, slow.next, k + 1;
    }
    Nth(s, 2 * k);
  }

  /** mergeSort: walk to the middle with a slow and a fast pointer, cut there, sort both halves and merge. */
  method MergeSort(node: FwEnt?, ghost s0: seq<FwEnt>) returns (res: FwEnt?, ghost s: seq<FwEnt>)
    requires IsList(node, s0)
    modifies Nodes(s0)
    ensures IsList(res, s) && Nodes(s) == Nodes(s0)
    ensures Files(s) == Sort(Files(s0))
    decreases |s0|
  {
    hide Files, Merge, Sort;
    ShortSorted(s0);
    if node == null || node.next == null {
      if node != null {
        Nth(s0, 0);
      }
      return node, s0;
    }
    Nth(s0, 0);
    ghost var h := (|s0| + 1) / 2;
    ghost var a, b := s0[..h], s0[h..];
    SplitNodes(s0, h);
    var slow := Middle(node, s0);
    assert slow in Nodes(s0);
    var rest := CutAfter(slow, s0, h);
    var left, right;
    ghost var sl, sr;
    left, sl := MergeSort(node, a);
    right, sr := MergeSort(rest, b);
    NodesApart(sl, sr);
    res, s := MergeLists(left, right, sl, sr);
    HalvesSorted(s0, h);
  }

  lemma SplitNodes(s: seq<FwEnt>, h: nat)
    requires h <= |s| && Distinct(s)
    ensures Nodes(s[..h]) + Nodes(s[h..]) == Nodes(s) && Nodes(s[..h]) !! Nodes(s[h..])
  {
    assert s == s[..h] + s[h..];
  }

  lemma NodesApart(a: seq<FwEnt>, b: seq<FwEnt>)
    requires Nodes(a) !! Nodes(b)
    ensures Apart(a, b)
  {
    forall x | x in a ensures x !in b {
      assert x in Nodes(a);
    }
  }

  lemma ShortSorted(s: seq<FwEnt>)
    ensures |s| <= 1 ==> Sort(Files(s)) == Files(s)
  {
  }

  lemma HalvesSorted(s: seq<FwEnt>, h: nat)
    requires |s| > 1 && h == (|s| + 1) / 2
    ensures Sort(Files(s)) == Merge(Sort(Files(s[..h])), Sort(Files(s[h..])))
  {
    assert s == s[..h] + s[h..];
    FilesAppend(s[..h], s[h..]);
    assert Files(s)[..h] == Files(s[..h]) && Files(s)[h..] == Files(s[h..]);
  }
}
