/** The parser accepts exactly the token streams that start with a document within the limits, and what it
  * adds is that document flattened. */
module PconfCorrect {
  import opened Base
  import opened PconfGrammar
  import opened PconfTables
  import opened PconfActions
  import opened PconfMeaning
  import opened PconfEngine

  // ----- a document is parsed by running its actions -----

  lemma WalkPath(ss: seq<int>, x: seq<int>)
    requires Path(ss) && Leads(Top(ss), x)
    ensures Path(ss + Walk(Top(ss), x))
    decreases |x|
  {
    if x == [] {
      assert ss + Walk(Top(ss), x) == ss;
    } else {
      var q := Target(Top(ss), x[0]);
      EdgeTo(Top(ss), x[0]);
      PushPath(ss, q);
      WalkPath(ss + [q], x[1..]);
      assert ss + Walk(Top(ss), x) == (ss + [q]) + Walk(q, x[1..]);
    }
  }

  lemma RunStep(c: Config)
    requires Good(c)
    ensures RunFrom(c) == match Next(c) case Stop(o) => o case Go(d) => RunFrom(d)
  {
    NextGood(c);
  }

  lemma SimLeaf(t: Tree, ss: seq<int>, vs: seq<Val>, rest: seq<Tok>, sem: Sem)
    requires t.Leaf? && Path(ss) && |vs| == |ss| && Target(Top(ss), Sym(t)) != 0
    ensures RunFrom(Config(ss, vs, Yield(t) + rest, sem))
         == RunFrom(Config(ss + [Target(Top(ss), Sym(t))], vs + [TokVal(t.tok)], rest, sem))
  {
    hide Run;
    var c := Config(ss, vs, Yield(t) + rest, sem);
    assert Look(c.rest) == Sym(t) && c.rest[1..] == rest;
    RunStep(c);
  }

  lemma {:induction false} Sim(t: Tree, ss: seq<int>, vs: seq<Val>, rest: seq<Tok>, sem: Sem)
    requires Derives(t) && Path(ss) && |vs| == |ss| && Target(Top(ss), Sym(t)) != 0
    ensures RunFrom(Config(ss, vs, Yield(t) + rest, sem)) ==
      match Effect(t, sem)
      case None => ActionError
      case Some(d) => RunFrom(Config(ss + [Target(Top(ss), Sym(t))], vs + [d.val], rest, d.sem))
    decreases t
  {
    hide Target, Rhs, Run, Act;
    if t.Leaf? {
      SimLeaf(t, ss, vs, rest, sem);
    } else {
      var p := Top(ss);
      TopReached(ss);
      RuleLeads(p, t.rule);
      SimAll(t.kids, ss, vs, rest, sem);
      if EffectAll(t.kids, sem).Some? {
        SimReduce(t, ss, vs, rest, EffectAll(t.kids, sem).value.vals, EffectAll(t.kids, sem).value.sem);
      }
    }
  }

  /** With the right-hand side of t's rule on the stack, the parser reduces by it. */
  lemma SimReduce(t: Tree, ss: seq<int>, vs: seq<Val>, rest: seq<Tok>, vals: seq<Val>, sem: Sem)
    requires Derives(t) && t.Node? && Path(ss) && |vs| == |ss| && Target(Top(ss), Lhs(t.rule)) != 0
    requires |vals| == |Rhs(t.rule)|
    ensures RunFrom(Config(ss + Walk(Top(ss), Rhs(t.rule)), vs + vals, rest, sem)) ==
      match Act(t.rule, vals, sem)
      case None => ActionError
      case Some(d) => RunFrom(Config(ss + [Target(Top(ss), Sym(t))], vs + [d.val], rest, d.sem))
  {
    hide Target, Rhs, RuleOf, Act, Leads, Run;
    var x := Rhs(t.rule);
    var c := Config(ss + Walk(Top(ss), x), vs + vals, rest, sem);
    TopReached(ss);
    RuleLeads(Top(ss), t.rule);
    WalkPath(ss, x);
    assert Top(c.ss) == Walk(Top(ss), x)[|x| - 1];
    TopReached(c.ss);
    DefaultRules(Top(c.ss));
    HandleOf(c);
    assert c.ss[..|ss|] == ss && c.vs[..|ss|] == vs && c.vs[|ss|..] == vals;
    RunStep(c);
  }

  lemma {:induction false} SimAll(ts: seq<Tree>, ss: seq<int>, vs: seq<Val>, rest: seq<Tok>, sem: Sem)
    requires (forall k :: k in ts ==> Derives(k)) && Path(ss) && |vs| == |ss| && Leads(Top(ss), Syms(ts))
    ensures RunFrom(Config(ss, vs, YieldAll(ts) + rest, sem)) ==
      match EffectAll(ts, sem)
      case None => ActionError
      case Some(d) => RunFrom(Config(ss + Walk(Top(ss), Syms(ts)), vs + d.vals, rest, d.sem))
    decreases ts
  {
    hide Target, Rhs, Run, Act, Derives;
    if ts == [] {
      assert YieldAll(ts) + rest == rest && ss + [] == ss && vs + [] == vs;
    } else {
      var x := Syms(ts);
      var q := Target(Top(ss), x[0]);
      assert x[1..] == Syms(ts[1..]);
      assert YieldAll(ts) + rest == Yield(ts[0]) + (YieldAll(ts[1..]) + rest);
      Sim(ts[0], ss, vs, YieldAll(ts[1..]) + rest, sem);
      EdgeTo(Top(ss), x[0]);
      PushPath(ss, q);
      EffectCons(ts, sem);
      if Effect(ts[0], sem).Some? {
        var d := Effect(ts[0], sem).value;
        SimAll(ts[1..], ss + [q], vs + [d.val], rest, d.sem);
        assert ss + Walk(Top(ss), x) == (ss + [q]) + Walk(q, x[1..]);
        if EffectAll(ts[1..], d.sem).Some? {
          var e := EffectAll(ts[1..], d.sem).value;
          assert vs + ([d.val] + e.vals) == (vs + [d.val]) + e.vals;
        }
      }
    }
  }

  // ----- whatever is accepted starts with a document -----

  /** The trees of what has been read stand on the stack, one for every state but the first. */
  ghost predicate Stacked(c: Config, ts: seq<Tree>) {
    && |ts| + 1 == |c.ss| && (forall k :: k in ts ==> Derives(k))
    && forall i :: 0 <= i < |ts| ==> Sym(ts[i]) == SymOf(c.ss[i + 1])
  }

  ghost predicate StartsWith(toks: seq<Tok>, b: Tree) {
    Derives(b) && Sym(b) == BLOCK && Yield(b) <= toks
  }

  lemma {:induction false} Sound(c: Config, ts: seq<Tree>)
    requires Good(c) && Stacked(c, ts) && Run(c).Accepted?
    ensures exists b :: StartsWith(YieldAll(ts) + c.rest, b)
    decreases |c.rest|, |c.ss|, Rank(Top(c.ss))
  {
    hide Target, Rhs, RuleOf, Act, Lhs, SymOf, Rank, Derives;
    var q := Top(c.ss);
    NextGood(c);
    TopReached(c.ss);
    if Shifts(q) {
      MoreInput(c);
      var leaf := Leaf(c.rest[0]);
      KindNotStart(c.rest);
      EdgeTo(q, Kind(c.rest[0]));
      LeafDerives(leaf);
      YieldSnoc(ts, leaf);
      assert YieldAll(ts + [leaf]) + c.rest[1..] == YieldAll(ts) + c.rest;
      Sound(Next(c).c, ts + [leaf]);
    } else if RuleOf(q) == 2 {
      AcceptShape(c, ts);
    } else {
      HandleOf(c);
      SoundReduce(c, ts);
      Sound(Next(c).c, Folded(c, ts));
    }
  }

  lemma LeafDerives(t: Tree)
    requires t.Leaf?
    ensures Derives(t) && Yield(t) == [t.tok]
  {
  }

  lemma YieldSnoc(ts: seq<Tree>, t: Tree)
    ensures YieldAll(ts + [t]) == YieldAll(ts) + Yield(t)
  {
    YieldAppend(ts, [t]);
    assert YieldAll([t]) == Yield(t) + YieldAll([]);
  }

  ghost function Folded(c: Config, ts: seq<Tree>): seq<Tree>
    requires Good(c) && Stacked(c, ts) && Complete(c.ss, RuleOf(Top(c.ss)))
  {
    var r := RuleOf(Top(c.ss));
    ts[..|ts| - |Rhs(r)|] + [Node(r, ts[|ts| - |Rhs(r)|..])]
  }

  lemma SoundReduce(c: Config, ts: seq<Tree>)
    requires Good(c) && Stacked(c, ts) && !Shifts(Top(c.ss)) && RuleOf(Top(c.ss)) != 2 && Next(c).Go?
    requires 3 <= RuleOf(Top(c.ss)) <= 27 && Complete(c.ss, RuleOf(Top(c.ss)))
    ensures Stacked(Next(c).c, Folded(c, ts)) && YieldAll(Folded(c, ts)) == YieldAll(ts)
  {
    hide Target, Rhs, RuleOf, Act, Lhs, SymOf, Yield, YieldAll;
    var r := RuleOf(Top(c.ss));
    var n := |ts| - |Rhs(r)|;
    var node := Node(r, ts[n..]);
    var ss := c.ss[..|c.ss| - |Rhs(r)|];
    DropPath(c.ss, |Rhs(r)|);
    TopReached(ss);
    LhsNotStart(r);
    EdgeTo(Top(ss), Lhs(r));
    FoldedDerives(c.ss, ts, r);
    FoldedYield(ts, n, r);
  }

  lemma LhsNotStart(r: int)
    requires 3 <= r
    ensures Lhs(r) != START
  {
  }

  lemma NodeYield(r: int, kids: seq<Tree>)
    ensures Yield(Node(r, kids)) == YieldAll(kids)
  {
  }

  lemma FoldedYield(ts: seq<Tree>, n: nat, r: int)
    requires n <= |ts|
    ensures YieldAll(ts[..n] + [Node(r, ts[n..])]) == YieldAll(ts)
  {
    hide Yield, YieldAll;
    NodeYield(r, ts[n..]);
    YieldSnoc(ts[..n], Node(r, ts[n..]));
    YieldAppend(ts[..n], ts[n..]);
    assert ts[..n] + ts[n..] == ts;
  }

  lemma FoldedDerives(ss: seq<int>, ts: seq<Tree>, r: int)
    requires |ts| + 1 == |ss| && 3 <= r <= 27 && Complete(ss, r) && (forall k :: k in ts ==> Derives(k))
    requires forall i :: 0 <= i < |ts| ==> Sym(ts[i]) == SymOf(ss[i + 1])
    ensures Derives(Node(r, ts[|ts| - |Rhs(r)|..]))
  {
    hide SymOf, Rhs, Target;
    var kids := ts[|ts| - |Rhs(r)|..];
    forall i | 0 <= i < |kids| ensures Syms(kids)[i] == Rhs(r)[i] {
      assert SymOf(ss[|ss| - |Rhs(r)| + i]) == Rhs(r)[i];
      assert kids[i] == ts[|ts| - |Rhs(r)| + i];
    }
    assert Syms(kids) == Rhs(r);
  }

  lemma StartOnlyFirst(ss: seq<int>, i: nat)
    requires Path(ss) && i < |ss|
    ensures ss[i] == 0 <==> i == 0
  {
    if i > 0 {
      assert Edge(ss[i - 1], ss[i]);
    }
  }

  /** The document is complete only directly above the start state. */
  lemma AcceptShape(c: Config, ts: seq<Tree>)
    requires Good(c) && Stacked(c, ts) && RuleOf(Top(c.ss)) == 2
    ensures |ts| == 1 && StartsWith(YieldAll(ts) + c.rest, ts[0])
  {
    Below(c.ss);
    StartOnlyFirst(c.ss, |c.ss| - 2);
    assert YieldAll(ts) == Yield(ts[0]) + YieldAll(ts[1..]);
  }

  // ----- the parser as a whole -----

  ghost function Parsed(toks: seq<Tok>): Outcome { RunFrom(Initial(toks)) }

  lemma InitialGood(toks: seq<Tok>)
    ensures Good(Initial(toks))
  {
  }

  lemma CleanYield(t: Tree)
    requires Clean(Yield(t))
    ensures CleanTree(t)
  {
    if t.Node? {
      CleanYields(t.kids);
    }
  }

  lemma CleanYields(ts: seq<Tree>)
    requires Clean(YieldAll(ts))
    ensures forall k :: k in ts ==> CleanTree(k)
  {
    if ts != [] {
      assert forall x :: x in Yield(ts[0]) ==> x in YieldAll(ts);
      assert forall x :: x in YieldAll(ts[1..]) ==> x in YieldAll(ts);
      CleanYield(ts[0]);
      CleanYields(ts[1..]);
    }
  }

  /** A stream that starts with a document is accepted if the document fits, with its flattening as the
    * additions and an empty path; if it does not fit, an action fails. */
  lemma DocumentParsed(toks: seq<Tok>, b: Tree)
    requires StartsWith(toks, b) && Clean(toks)
    ensures Parsed(toks) == if Fits(b, []) then Accepted(CLEAN.(adds := Flatten(b, []))) else ActionError
  {
    hide Run, Target, Flatten, Fits, Effect;
    var rest := toks[|Yield(b)|..];
    assert toks == Yield(b) + rest;
    assert Clean(Yield(b)) by {
      assert forall x :: x in Yield(b) ==> x in toks;
    }
    CleanYield(b);
    StartLeads();
    Sim(b, [0], [VNone], rest, CLEAN);
    EffectFlattens(b, CLEAN, []);
    assert [] + Flatten(b, []) == Flatten(b, []);
    if Effect(b, CLEAN).Some? {
      AcceptsDocument([VNone, Effect(b, CLEAN).value.val], rest, Effect(b, CLEAN).value.sem);
      assert [0] + [4] == [0, 4] && [VNone] + [Effect(b, CLEAN).value.val] == [VNone, Effect(b, CLEAN).value.val];
    }
  }

  lemma StartLeads()
    ensures Path([0]) && Target(0, BLOCK) == 4 && Join([]) == ""
  {
  }

  lemma AcceptsDocument(vs: seq<Val>, rest: seq<Tok>, sem: Sem)
    requires |vs| == 2
    ensures RunFrom(Config([0, 4], vs, rest, sem)) == Accepted(sem)
  {
    hide Run;
    var c := Config([0, 4], vs, rest, sem);
    assert Good(c);
    RunStep(c);
  }

  /** The parser accepts exactly the streams that start with a document within the limits. */
  lemma AcceptsExactly(toks: seq<Tok>)
    requires Clean(toks)
    ensures Parsed(toks).Accepted? <==> exists b :: StartsWith(toks, b) && Fits(b, [])
  {
    hide Run, Flatten, Fits, Effect;
    if Parsed(toks).Accepted? {
      InitialGood(toks);
      assert YieldAll([]) + toks == toks;
      Sound(Initial(toks), []);
      var b :| StartsWith(toks, b);
      DocumentParsed(toks, b);
    }
    if b :| StartsWith(toks, b) && Fits(b, []) {
      DocumentParsed(toks, b);
    }
  }
}
