/** The order merge sort gives a list of firmware files: newest first, files of one version reversed. */
module FirmwareOrder {

  /** A firmware file, as read from the firmware directory. */
  datatype Fw = Fw(name: string, version: int)

  /** merge: the first list goes ahead only where it is strictly newer. */
  function Merge(a: seq<Fw>, b: seq<Fw>): seq<Fw> {
    if a == [] then b
    else if b == [] then a
    else if a[0].version > b[0].version then [a[0]] + Merge(a[1..], b)
    else [b[0]] + Merge(a, b[1..])
  }

  /** mergeSort: the first half is the longer one. */
  function Sort(s: seq<Fw>): seq<Fw> {
    if |s| <= 1 then s else Merge(Sort(s[..(|s| + 1) / 2]), Sort(s[(|s| + 1) / 2..]))
  }

  function Reversed<T>(s: seq<T>): (r: seq<T>) { if s == [] then [] else Reversed(s[1..]) + [s[0]] }

  lemma ReversedAppend<T>(a: seq<T>, b: seq<T>)
    ensures Reversed(a + b) == Reversed(b) + Reversed(a)
  {
    if a == [] {
      assert a + b == b;
    } else {
      assert (a + b)[1..] == a[1..] + b;
      ReversedAppend(a[1..], b);
    }
  }

  lemma ReversedTwice<T>(s: seq<T>)
    ensures Reversed(Reversed(s)) == s
  {
    if s != [] {
      ReversedTwice(s[1..]);
      ReversedAppend(Reversed(s[1..]), [s[0]]);
    }
  }

  /** The files of version v, in the order they stand. */
  function OfVersion(s: seq<Fw>, v: int): (r: seq<Fw>) {
    if s == [] then [] else (if s[0].version == v then [s[0]] else []) + OfVersion(s[1..], v)
  }

  lemma {:induction false} OfVersionAppend(a: seq<Fw>, b: seq<Fw>, v: int)
    ensures OfVersion(a + b, v) == OfVersion(a, v) + OfVersion(b, v)
  {
    if a == [] {
      assert a + b == b;
    } else {
      assert (a + b)[1..] == a[1..] + b && (a + b)[0] == a[0];
      OfVersionAppend(a[1..], b, v);
      if a[0].version == v {
        assert [a[0]] + (OfVersion(a[1..], v) + OfVersion(b, v)) == ([a[0]] + OfVersion(a[1..], v)) + OfVersion(b, v);
      }
    }
  }

  lemma OfVersionReversed(s: seq<Fw>, v: int)
    ensures OfVersion(Reversed(s), v) == Reversed(OfVersion(s, v))
  {
    if s != [] {
      OfVersionReversed(s[1..], v);
      OfVersionAppend(Reversed(s[1..]), [s[0]], v);
      OfVersionOne(s[0], v);
      var rest := OfVersion(s[1..], v);
      ReversedAppend([s[0]], rest);
      assert Reversed([s[0]]) == [s[0]];
      assert [] + rest == rest && Reversed(rest) + [] == Reversed(rest);
    }
  }

  lemma OfVersionOne(x: Fw, v: int)
    ensures OfVersion([x], v) == if x.version == v then [x] else []
  {
    assert OfVersion([x][1..], v) == [];
  }

  ghost predicate NewestFirst(s: seq<Fw>) {
    forall i, j :: 0 <= i < j < |s| ==> s[i].version >= s[j].version
  }

  ghost predicate AtMost(s: seq<Fw>, v: int) { forall x :: x in s ==> x.version <= v }

  lemma {:induction false} MergeHas(a: seq<Fw>, b: seq<Fw>)
    ensures multiset(Merge(a, b)) == multiset(a) + multiset(b)
    decreases |a| + |b|
  {
    if a != [] && b != [] {
      if a[0].version > b[0].version {
        MergeHas(a[1..], b);
        assert a == [a[0]] + a[1..];
      } else {
        MergeHas(a, b[1..]);
        assert b == [b[0]] + b[1..];
      }
    }
  }

  lemma ConsNewestFirst(x: Fw, s: seq<Fw>)
    requires NewestFirst(s) && AtMost(s, x.version)
    ensures NewestFirst([x] + s)
  {
    forall i, j | 0 <= i < j < |s| + 1 ensures ([x] + s)[i].version >= ([x] + s)[j].version {
      assert ([x] + s)[j] == s[j - 1] && s[j - 1] in s;
    }
  }

  lemma TailNewestFirst(s: seq<Fw>)
    requires NewestFirst(s) && s != []
    ensures NewestFirst(s[1..]) && AtMost(s, s[0].version)
  {
    forall x | x in s ensures x.version <= s[0].version {
      var i :| 0 <= i < |s| && s[i] == x;
      assert i > 0 ==> s[0].version >= s[i].version;
    }
  }

  lemma {:induction false} MergeOrder(a: seq<Fw>, b: seq<Fw>)
    requires NewestFirst(a) && NewestFirst(b)
    ensures NewestFirst(Merge(a, b))
    decreases |a| + |b|
  {
    if a != [] && b != [] {
      TailNewestFirst(a);
      TailNewestFirst(b);
      if a[0].version > b[0].version {
        MergeOrder(a[1..], b);
        MergeHas(a[1..], b);
        MergedAtMost(a[1..], b, a[0].version);
        ConsNewestFirst(a[0], Merge(a[1..], b));
      } else {
        MergeOrder(a, b[1..]);
        MergedAtMost(a, b[1..], b[0].version);
        ConsNewestFirst(b[0], Merge(a, b[1..]));
      }
    }
  }

  lemma MergedAtMost(a: seq<Fw>, b: seq<Fw>, v: int)
    requires AtMost(a, v) && AtMost(b, v)
    ensures AtMost(Merge(a, b), v)
  {
    MergeHas(a, b);
    forall x | x in Merge(a, b) ensures x.version <= v {
      assert x in multiset(Merge(a, b));
      assert x in multiset(a) || x in multiset(b);
    }
  }

  lemma NoneOfVersion(s: seq<Fw>, v: int)
    requires forall x :: x in s ==> x.version != v
    ensures OfVersion(s, v) == []
  {
  }

  /** Where versions tie, everything from the second list comes first. */
  lemma {:induction false} MergeTies(a: seq<Fw>, b: seq<Fw>, v: int)
    requires NewestFirst(a) && NewestFirst(b)
    ensures OfVersion(Merge(a, b), v) == OfVersion(b, v) + OfVersion(a, v)
    decreases |a| + |b|
  {
    if a != [] && b != [] {
      TailNewestFirst(a);
      TailNewestFirst(b);
      if a[0].version > b[0].version {
        MergeTies(a[1..], b, v);
        OfVersionAppend([a[0]], Merge(a[1..], b), v);
        if a[0].version == v {
          NoneOfVersion(b, v);
        }
      } else {
        MergeTies(a, b[1..], v);
        OfVersionAppend([b[0]], Merge(a, b[1..]), v);
      }
    }
  }

  /** The sorted list holds the same files, newest first, with the files of each version in reverse. */
  lemma {:induction false} SortOrder(s: seq<Fw>)
    ensures multiset(Sort(s)) == multiset(s) && NewestFirst(Sort(s))
    ensures forall v :: OfVersion(Sort(s), v) == Reversed(OfVersion(s, v))
    decreases |s|
  {
    if |s| > 1 {
      var h := (|s| + 1) / 2;
      assert s == s[..h] + s[h..];
      SortOrder(s[..h]);
      SortOrder(s[h..]);
      MergeHas(Sort(s[..h]), Sort(s[h..]));
      MergeOrder(Sort(s[..h]), Sort(s[h..]));
      forall v ensures OfVersion(Sort(s), v) == Reversed(OfVersion(s, v)) {
        MergeTies(Sort(s[..h]), Sort(s[h..]), v);
        OfVersionAppend(s[..h], s[h..], v);
        ReversedAppend(OfVersion(s[..h], v), OfVersion(s[h..], v));
      }
    } else {
      forall v ensures OfVersion(s, v) == Reversed(OfVersion(s, v)) {
        if |s| == 1 {
          assert OfVersion(s[1..], v) == [];
        }
      }
    }
  }

  /** With every file put at the head of the list as it is read, the sorted list has each version's files in
    * directory order. */
  lemma SortedDirectory(files: seq<Fw>, v: int)
    ensures OfVersion(Sort(Reversed(files)), v) == OfVersion(files, v)
  {
    SortOrder(Reversed(files));
    OfVersionReversed(files, v);
    ReversedTwice(OfVersion(files, v));
  }
}
