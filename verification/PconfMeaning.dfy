/** The semantic actions flatten the document: run over a parse tree from a given path, they add exactly the
  * tree's values under the right paths and leave the path as it was. */
module PconfMeaning {
  import opened Base
  import opened PconfGrammar
  import opened PconfActions

  // ----- running the actions of a few children -----

  lemma EffectCons(ts: seq<Tree>, sem: Sem)
    requires ts != [] && forall k :: k in ts ==> Derives(k)
    ensures EffectAll(ts, sem) ==
      match Effect(ts[0], sem)
      case None => None
      case Some(d) =>
        match EffectAll(ts[1..], d.sem)
        case None => None
        case Some(e) => Some(DoneAll([d.val] + e.vals, e.sem))
  {
  }

  lemma Children(t: Tree)
    requires Derives(t) && t.Node?
    ensures |t.kids| == |Rhs(t.rule)|
    ensures forall i :: 0 <= i < |t.kids| ==> Derives(t.kids[i]) && Sym(t.kids[i]) == Rhs(t.rule)[i]
  {
  }

  lemma Terminal(t: Tree)
    requires Derives(t) && Sym(t) < 16
    ensures t.Leaf?
  {
  }

  lemma Effect1(k: seq<Tree>, sem: Sem)
    requires |k| == 1 && Derives(k[0])
    ensures EffectAll(k, sem) == match Effect(k[0], sem) case None => None case Some(d) => Some(DoneAll([d.val], d.sem))
  {
    EffectCons(k, sem);
    assert forall v: Val :: [v] + [] == [v];
  }

  lemma Effect2(k: seq<Tree>, sem: Sem)
    requires |k| == 2 && Derives(k[0]) && Derives(k[1])
    ensures EffectAll(k, sem) ==
      match Effect(k[0], sem)
      case None => None
      case Some(d) =>
        match Effect(k[1], d.sem)
        case None => None
        case Some(e) => Some(DoneAll([d.val, e.val], e.sem))
  {
    EffectCons(k, sem);
    assert k[1..] == [k[1]];
    if Effect(k[0], sem).Some? {
      Effect1(k[1..], Effect(k[0], sem).value.sem);
      assert forall v: Val, w: Val :: [v] + [w] == [v, w];
    }
  }

  // ----- names, values and arrays -----

  lemma NameEffect(t: Tree, sem: Sem)
    requires Derives(t) && Sym(t) == NAME
    ensures Effect(t, sem) == PushTo(sem, NameOf(t))
  {
    Children(t);
    Terminal(t.kids[0]);
    Effect1(t.kids, sem);
  }

  lemma ValueEffect(t: Tree, sem: Sem)
    requires Derives(t) && Sym(t) == SVALUE
    ensures Effect(t, sem) == Some(Done(ValueOf(t), sem)) && ValueOf(t).VStr?
  {
    Children(t);
    Terminal(t.kids[0]);
    Effect1(t.kids, sem);
  }

  lemma ElemEffect(t: Tree, sem: Sem)
    requires Derives(t) && Sym(t) == ARRAY_MEMBER
    ensures Effect(t, sem) == Store(ValueOf(t), sem, ValueOf(t))
  {
    Children(t);
    if t.rule == 23 {
      ValueEffect(t.kids[0], sem);
    } else {
      Terminal(t.kids[0]);
    }
    Effect1(t.kids, sem);
  }

  lemma {:induction false} ElemsEffect(t: Tree, sem: Sem)
    requires Derives(t) && Sym(t) == ARRAY_MEMBERS
    ensures Elems(t) != []
    ensures Effect(t, sem).Some? <==> |sem.vals| + |Elems(t)| <= MAXARRAY
    ensures Effect(t, sem).Some? ==> Effect(t, sem).value.sem == sem.(vals := sem.vals + Elems(t))
  {
    var k := t.kids;
    Children(t);
    if t.rule == 21 {
      ElemEffect(k[0], sem);
      Effect1(k, sem);
    } else {
      Terminal(k[1]);
      ElemsEffect(k[0], sem);
      if Effect(k[0], sem).Some? {
        ElemEffect(k[2], sem.(vals := sem.vals + Elems(k[0])));
      }
      EffectCons(k, sem);
      if Effect(k[0], sem).Some? {
        EffectCons(k[1..], Effect(k[0], sem).value.sem);
        assert k[1..][1..] == [k[2]];
        Effect1(k[1..][1..], Effect(k[0], sem).value.sem);
      }
    }
  }

  // ----- the path -----

  /** The parser is at a path of good names, with no array begun. */
  ghost predicate At(sem: Sem, path: seq<string>) {
    sem.keys == path && sem.curpath == Join(path) && sem.vals == [] && Names(path)
  }

  ghost predicate GoodName(name: string) { name != "" && DotFree(name) }

  lemma PushAt(sem: Sem, path: seq<string>, name: string)
    requires At(sem, path) && GoodName(name)
    ensures Push(sem, name).Some? <==> Room(path, name)
    ensures Push(sem, name).Some? ==>
      At(Push(sem, name).value, path + [name]) && Push(sem, name).value.adds == sem.adds
  {
    JoinNonEmpty(path);
    JoinSnoc(path, name);
  }

  lemma LastName(path: seq<string>, name: string)
    requires Names(path + [name])
    ensures Names(path) && GoodName(name)
  {
    assert name in path + [name];
    forall k | k in path ensures k != "" && DotFree(k) {
      assert k in path + [name];
    }
  }

  lemma CutJoin(path: seq<string>, name: string)
    requires DotFree(name)
    ensures CutLast(Join(path + [name])) == Join(path)
  {
    hide CutLast;
    JoinSnoc(path, name);
    if path == [] {
      CutLastNone(name);
    } else {
      CutLastTail(Join(path), name);
    }
  }

  /** Popping the last name gives back the path before it. */
  lemma PopAt(sem: Sem, path: seq<string>, name: string)
    requires At(sem, path + [name])
    ensures Pop(sem) == Some(sem.(keys := path, curpath := Join(path))) && At(Pop(sem).value, path)
  {
    hide Join, CutLast;
    LastName(path, name);
    CutJoin(path, name);
    assert (path + [name])[..|path|] == path;
  }

  /** Pushing a name, adding under it and popping it again leaves only the additions. */
  lemma PopAdded(sem: Sem, sem1: Sem, path: seq<string>, name: string, v: Val, adds: seq<Add>)
    requires At(sem, path) && At(sem1, path + [name])
    ensures PopTo(v, sem1, adds) == Some(Done(v, sem.(adds := sem1.adds + adds)))
  {
    hide Join, CutLast;
    PopAt(sem1.(adds := sem1.adds + adds), path, name);
  }

  /** After running t's actions from the path, everything t stands for has been added, and only that. */
  ghost predicate Added(t: Tree, sem: Sem, path: seq<string>)
    requires Derives(t) && Document(Sym(t))
  {
    && (Effect(t, sem).Some? <==> Fits(t, path))
    && (Effect(t, sem).Some? ==>
          Effect(t, sem).value.sem == sem.(adds := sem.adds + Flatten(t, path)))
  }

  /** Every name in the tree is one the lexer can give. */
  ghost predicate CleanTree(t: Tree) { if t.Leaf? then CleanTok(t.tok) else forall k :: k in t.kids ==> CleanTree(k) }

  lemma NameGood(t: Tree)
    requires Derives(t) && Sym(t) == NAME && CleanTree(t)
    ensures GoodName(NameOf(t))
  {
    Children(t);
    Terminal(t.kids[0]);
    assert CleanTree(t.kids[0]);
  }

  /** name = value, up to the value: a name, a token and one more child. */
  lemma EntityArgs(k: seq<Tree>, sem: Sem)
    requires |k| == 3 && (forall c :: c in k ==> Derives(c)) && Sym(k[0]) == NAME && k[1].Leaf?
    requires k[2].Leaf? || Sym(k[2]) == SVALUE
    ensures EffectAll(k, sem) ==
      match Push(sem, NameOf(k[0]))
      case None => None
      case Some(s) => Some(DoneAll([VStr(NameOf(k[0])), TokVal(k[1].tok), ValueOf(k[2])], s))
  {
    hide Push;
    NameEffect(k[0], sem);
    EffectCons(k, sem);
    if Push(sem, NameOf(k[0])).Some? {
      var s := Push(sem, NameOf(k[0])).value;
      if !k[2].Leaf? {
        ValueEffect(k[2], s);
      }
      Effect2(k[1..], s);
      assert forall u: Val, v: Val, w: Val :: [u] + [v, w] == [u, v, w];
    }
  }

  lemma EntityAdded(t: Tree, sem: Sem, path: seq<string>)
    requires Derives(t) && t.Node? && 9 <= t.rule <= 13 && CleanTree(t) && At(sem, path)
    ensures Added(t, sem, path)
  {
    hide Join, CutLast, Push, At, Room, Decimal;
    var k := t.kids;
    Children(t);
    Terminal(k[1]);
    EntityKids(t);
    var name := NameOf(k[0]);
    NameGood(k[0]);
    PushAt(sem, path, name);
    EntityArgs(k, sem);
    if Push(sem, name).Some? {
      var s := Push(sem, name).value;
      PathIs(s, path + [name]);
      PopAdded(sem, s, path, name, VStr(name), [AddOne(s.curpath, ValueOf(k[2]))]);
    }
  }

  lemma PathIs(sem: Sem, path: seq<string>)
    requires At(sem, path)
    ensures sem.curpath == Join(path) && sem.vals == []
  {
  }

  lemma EntityKids(t: Tree)
    requires Derives(t) && t.Node? && 9 <= t.rule <= 13
    ensures |t.kids| == 3
    ensures if t.rule == 9 then Sym(t.kids[2]) == SVALUE && ValueOf(t.kids[2]).VStr? else t.kids[2].Leaf?
  {
    Children(t);
    if t.rule == 9 {
      ValueEffect(t.kids[2], CLEAN);
    } else {
      Terminal(t.kids[2]);
    }
  }

  // ----- arrays -----

  lemma EmptyArrayAdded(t: Tree, sem: Sem, path: seq<string>)
    requires Derives(t) && t.Node? && t.rule == 19 && CleanTree(t) && At(sem, path)
    ensures Added(t, sem, path)
  {
    hide Join, CutLast, Push, At, Room, Decimal;
    var k := t.kids;
    Children(t);
    Terminal(k[1]);
    Terminal(k[2]);
    Terminal(k[3]);
    var name := NameOf(k[0]);
    NameGood(k[0]);
    PushAt(sem, path, name);
    NameEffect(k[0], sem);
    EffectCons(k, sem);
    if Push(sem, name).Some? {
      var s := Push(sem, name).value;
      EffectCons(k[1..], s);
      Effect2(k[1..][1..], s);
      PathIs(s, path + [name]);
      PopAdded(sem, s, path, name, VStr(name), [AddArray(s.curpath)]);
    }
  }

  lemma ArrayArgs(k: seq<Tree>, sem: Sem)
    requires |k| == 5 && (forall c :: c in k ==> Derives(c)) && Sym(k[0]) == NAME && Sym(k[3]) == ARRAY_MEMBERS
    requires k[1].Leaf? && k[2].Leaf? && k[4].Leaf? && sem.vals == []
    ensures EffectAll(k, sem).Some? <==> Push(sem, NameOf(k[0])).Some? && |Elems(k[3])| <= MAXARRAY
    ensures EffectAll(k, sem).Some? ==>
      && EffectAll(k, sem).value.sem == Push(sem, NameOf(k[0])).value.(vals := Elems(k[3]))
      && EffectAll(k, sem).value.vals[0] == VStr(NameOf(k[0]))
  {
    NameEffect(k[0], sem);
    EffectCons(k, sem);
    if Push(sem, NameOf(k[0])).Some? {
      var s := Push(sem, NameOf(k[0])).value;
      EffectCons(k[1..], s);
      EffectCons(k[1..][1..], s);
      ElemsEffect(k[3], s);
      Effect2(k[1..][1..][1..], s);
      assert [] + Elems(k[3]) == Elems(k[3]);
    }
  }

  lemma ArrayAdded(t: Tree, sem: Sem, path: seq<string>)
    requires Derives(t) && t.Node? && t.rule == 20 && CleanTree(t) && At(sem, path)
    ensures Added(t, sem, path)
  {
    hide Join, CutLast, Push, At, Room, Decimal, ElemAdds;
    var k := t.kids;
    Children(t);
    Terminal(k[1]);
    Terminal(k[2]);
    Terminal(k[4]);
    var name := NameOf(k[0]);
    NameGood(k[0]);
    PushAt(sem, path, name);
    PathIs(sem, path);
    ArrayArgs(k, sem);
    if EffectAll(k, sem).Some? {
      var s := Push(sem, name).value;
      PathIs(s, path + [name]);
      PopAdded(sem, s, path, name, VStr(name), [AddArray(s.curpath)] + ElemAdds(s.curpath, Elems(k[3]), 0));
      ElemsFlatten(s.curpath, k[3]);
    }
  }

  lemma {:induction false} ElemsAreValues(t: Tree)
    requires Derives(t) && Sym(t) == ARRAY_MEMBERS
    ensures VNone !in Elems(t)
  {
    Children(t);
    if t.rule == 21 {
      ElemIsValue(t.kids[0]);
    } else {
      ElemsAreValues(t.kids[0]);
      ElemIsValue(t.kids[2]);
    }
  }

  lemma ElemIsValue(t: Tree)
    requires Derives(t) && Sym(t) == ARRAY_MEMBER
    ensures ValueOf(t) != VNone
  {
    Children(t);
    if t.rule == 23 {
      ValueEffect(t.kids[0], CLEAN);
    } else {
      Terminal(t.kids[0]);
    }
  }

  lemma ElemsFlatten(path: string, t: Tree)
    requires Derives(t) && Sym(t) == ARRAY_MEMBERS
    ensures var vals := Elems(t);
      ElemAdds(path, vals, 0) == seq(|vals|, i requires 0 <= i < |vals| => AddOne(path + "." + Decimal(i), vals[i]))
  {
    hide Decimal, AddOne, ElemAdds, Elems;
    ElemsAreValues(t);
    ElemAddsOne(path, Elems(t), 0);
  }

  // ----- blocks -----

  lemma EmptyBlockAdded(t: Tree, sem: Sem, path: seq<string>)
    requires Derives(t) && t.Node? && t.rule == 3 && CleanTree(t) && At(sem, path)
    ensures Added(t, sem, path)
  {
    hide Join, CutLast, Push, At, Room, Decimal;
    var k := t.kids;
    Children(t);
    Terminal(k[1]);
    Terminal(k[2]);
    var name := NameOf(k[0]);
    NameGood(k[0]);
    PushAt(sem, path, name);
    EntityArgs(k, sem);
    if Push(sem, name).Some? {
      PopAdded(sem, Push(sem, name).value, path, name, VStr(name), []);
    }
  }

  lemma BlockArgs(k: seq<Tree>, sem: Sem)
    requires |k| == 4 && (forall c :: c in k ==> Derives(c)) && Sym(k[0]) == NAME && k[1].Leaf? && k[3].Leaf?
    ensures var p := Push(sem, NameOf(k[0]));
      if p.None? || Effect(k[2], p.value).None? then EffectAll(k, sem) == None
      else
        && EffectAll(k, sem).Some? && EffectAll(k, sem).value.vals[0] == VStr(NameOf(k[0]))
        && EffectAll(k, sem).value.sem == Effect(k[2], p.value).value.sem
  {
    hide Push;
    NameEffect(k[0], sem);
    EffectCons(k, sem);
    if Push(sem, NameOf(k[0])).Some? {
      var s := Push(sem, NameOf(k[0])).value;
      EffectCons(k[1..], s);
      Effect2(k[1..][1..], s);
    }
  }

  lemma BlockAdded(t: Tree, sem: Sem, path: seq<string>)
    requires Derives(t) && t.Node? && t.rule == 4 && CleanTree(t) && At(sem, path)
    requires forall s, p :: At(s, p) ==> Added(t.kids[2], s, p)
    ensures Added(t, sem, path)
  {
    hide Join, CutLast, Push, At, Room, Decimal;
    var k := t.kids;
    Children(t);
    Terminal(k[1]);
    Terminal(k[3]);
    var name := NameOf(k[0]);
    NameGood(k[0]);
    PushAt(sem, path, name);
    BlockArgs(k, sem);
    if Push(sem, name).Some? {
      var s := Push(sem, name).value;
      assert Added(k[2], s, path + [name]);
      if Effect(k[2], s).Some? {
        MoreAdded(s, path + [name], Flatten(k[2], path + [name]));
        PopAdded(sem, s.(adds := s.adds + Flatten(k[2], path + [name])), path, name, VStr(name), []);
      }
    }
  }

  lemma MoreAdded(sem: Sem, path: seq<string>, adds: seq<Add>)
    requires At(sem, path)
    ensures At(sem.(adds := sem.adds + adds), path)
  {
  }

  lemma MembersAdded(t: Tree, sem: Sem, path: seq<string>)
    requires Derives(t) && t.Node? && t.rule == 6 && At(sem, path)
    requires forall s, p :: At(s, p) ==> Added(t.kids[0], s, p) && Added(t.kids[1], s, p)
    ensures Added(t, sem, path)
  {
    hide Join, At, Room, Decimal;
    var k := t.kids;
    Children(t);
    Effect2(k, sem);
    assert Added(k[0], sem, path);
    if Effect(k[0], sem).Some? {
      MoreAdded(sem, path, Flatten(k[0], path));
      assert Added(k[1], Effect(k[0], sem).value.sem, path);
    }
  }

  lemma UnitAdded(t: Tree, sem: Sem, path: seq<string>)
    requires Derives(t) && t.Node? && (t.rule == 5 || t.rule == 7 || t.rule == 8 || t.rule == 14)
    requires |t.kids| == 1 && Document(Sym(t.kids[0])) && Added(t.kids[0], sem, path)
    ensures Added(t, sem, path)
  {
    Effect1(t.kids, sem);
  }

  /** The actions of a document flatten it, whenever it fits; and they fail whenever it does not. */
  lemma {:induction false} EffectFlattens(t: Tree, sem: Sem, path: seq<string>)
    requires Derives(t) && Document(Sym(t)) && CleanTree(t) && At(sem, path)
    ensures Added(t, sem, path)
    decreases t
  {
    hide Added, At, Effect, Fits, Flatten;
    Children(t);
    match t.rule
    case 3 => EmptyBlockAdded(t, sem, path);
    case 4 =>
      forall s, p | At(s, p) ensures Added(t.kids[2], s, p) { EffectFlattens(t.kids[2], s, p); }
      BlockAdded(t, sem, path);
    case 6 =>
      forall s, p | At(s, p) ensures Added(t.kids[0], s, p) && Added(t.kids[1], s, p) {
        EffectFlattens(t.kids[0], s, p);
        EffectFlattens(t.kids[1], s, p);
      }
      MembersAdded(t, sem, path);
    case 19 => EmptyArrayAdded(t, sem, path);
    case 20 => ArrayAdded(t, sem, path);
    case r =>
      if 9 <= r <= 13 {
        EntityAdded(t, sem, path);
      } else {
        EffectFlattens(t.kids[0], sem, path);
        UnitAdded(t, sem, path);
      }
  }
}
