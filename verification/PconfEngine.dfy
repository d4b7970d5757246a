/** The parser as an automaton over stacks, and its two halves of correctness: whatever it accepts starts
  * with a document, and on a document it does what the document's actions do. */
module PconfEngine {
  import opened Base
  import opened PconfGrammar
  import opened PconfTables
  import opened PconfActions

  /** The symbol that leads into state q. */
  function SymOf(q: int): int {
    match q
    case 1 => TOKEN case 2 => INTEGER case 4 => BLOCK case 5 => NAME case 7 => OSB case 8 => CSB case 9 => BLOCK
    case 10 => BLOCK_MEMBERS case 11 => BLOCK_MEMBER case 12 => ENTITY case 13 => NAME case 14 => ARRAY
    case 15 => CSB case 16 => BLOCK_MEMBER case 17 => EQUALS case 18 => TOKEN case 19 => INTEGER case 20 => LONG
    case 21 => FLOAT case 22 => STRING case 23 => BOOLEAN case 24 => STARTARRAY case 25 => SVALUE
    case 26 => INTEGER case 27 => LONG case 28 => FLOAT case 29 => BOOLEAN case 30 => ENDARRAY case 31 => SVALUE
    case 32 => ARRAY_MEMBERS case 33 => ARRAY_MEMBER case 34 => COMMA case 35 => ENDARRAY case 36 => ARRAY_MEMBER
    case _ => END
  }

  /** The rule that is complete in state q, or 0. */
  function RuleOf(q: int): int {
    match q
    case 1 => 15 case 2 => 16 case 4 => 2 case 8 => 3 case 9 => 7 case 11 => 5 case 12 => 8 case 14 => 14
    case 15 => 4 case 16 => 6 case 18 => 17 case 19 => 10 case 20 => 11 case 21 => 12 case 22 => 18 case 23 => 13
    case 25 => 9 case 26 => 24 case 27 => 25 case 28 => 26 case 29 => 27 case 30 => 19 case 31 => 23
    case 33 => 21 case 35 => 20 case 36 => 22
    case _ => 0
  }

  /** The states a stack can hold: all but the two behind the start symbol, which is never pushed. */
  predicate Reached(q: int) { 0 <= q < 37 && q != 3 && q != 6 }

  lemma DefaultRules(q: int)
    requires Reached(q)
    ensures Shifts(q) <==> RuleOf(q) == 0
    ensures !Shifts(q) ==> YYDEFACT[q] == RuleOf(q)
  {
  }

  predicate Edge(p: int, q: int) { q != 0 && Reached(q) && Target(p, SymOf(q)) == q }

  lemma EdgeTo(p: int, x: int)
    requires Target(p, x) != 0 && x != START && p != 3
    ensures Edge(p, Target(p, x)) && SymOf(Target(p, x)) == x
  {
  }

  /** The states are a path of the automaton from the start state. */
  ghost predicate Path(ss: seq<int>) {
    |ss| > 0 && ss[0] == 0 && forall i :: 0 < i < |ss| ==> Edge(ss[i - 1], ss[i])
  }

  datatype Config = Config(ss: seq<int>, vs: seq<Val>, rest: seq<Tok>, sem: Sem)

  ghost predicate Good(c: Config) { Path(c.ss) && |c.vs| == |c.ss| }

  function Top(ss: seq<int>): int
    requires ss != []
  {
    ss[|ss| - 1]
  }

  lemma TopReached(ss: seq<int>)
    requires Path(ss)
    ensures Reached(Top(ss))
  {
    if |ss| > 1 {
      assert Edge(ss[|ss| - 2], ss[|ss| - 1]);
    }
  }

  lemma PushPath(ss: seq<int>, q: int)
    requires Path(ss) && Edge(Top(ss), q)
    ensures Path(ss + [q])
  {
  }

  lemma DropPath(ss: seq<int>, n: nat)
    requires Path(ss) && n < |ss|
    ensures Path(ss[..|ss| - n])
  {
  }

  // ----- what is on top of the stack when a rule is complete -----

  /** The last |x| states were entered by the symbols x. */
  ghost predicate Spells(ss: seq<int>, x: seq<int>) {
    |x| < |ss| && forall i :: 0 <= i < |x| ==> SymOf(ss[|ss| - |x| + i]) == x[i]
  }

  /** Below the top, the stack spells the right-hand side of the complete rule, and the symbol it derives
    * leads on from the state underneath. */
  ghost predicate Complete(ss: seq<int>, r: int) {
    |ss| > |Rhs(r)| && Spells(ss, Rhs(r)) && Target(ss[|ss| - |Rhs(r)| - 1], Lhs(r)) != 0
  }

  lemma Below(ss: seq<int>)
    requires Path(ss) && Top(ss) != 0
    ensures |ss| > 1 && Edge(ss[|ss| - 2], Top(ss))
  {
  }

  lemma Unit(ss: seq<int>)
    requires Path(ss) && RuleOf(Top(ss)) >= 3 && |Rhs(RuleOf(Top(ss)))| == 1
    ensures Complete(ss, RuleOf(Top(ss)))
  {
    Below(ss);
  }

  lemma Two(ss: seq<int>)
    requires Path(ss) && RuleOf(Top(ss)) == 6
    ensures Complete(ss, 6)
  {
    Below(ss);
    Below(ss[..|ss| - 1]);
  }

  /** A block's brace stands on its name, where a block may stand. */
  lemma Opened(ss: seq<int>)
    requires Path(ss) && Top(ss) == 7
    ensures |ss| > 2 && SymOf(7) == OSB && SymOf(ss[|ss| - 2]) == NAME && Target(ss[|ss| - 3], BLOCK) != 0
  {
    Below(ss);
    Below(ss[..|ss| - 1]);
  }

  lemma EmptyBlock(ss: seq<int>)
    requires Path(ss) && RuleOf(Top(ss)) == 3
    ensures Complete(ss, 3)
  {
    hide Path;
    ClosedEmpty(ss);
    hide Target, RuleOf;
    Opened(ss[..|ss| - 1]);
    assert Rhs(3) == [NAME, OSB, CSB];
  }

  lemma ClosedEmpty(ss: seq<int>)
    requires Path(ss) && RuleOf(Top(ss)) == 3
    ensures |ss| > 1 && Path(ss[..|ss| - 1]) && ss[|ss| - 2] == 7 && SymOf(Top(ss)) == CSB
  {
    Below(ss);
    DropPath(ss, 1);
  }

  lemma Elements(ss: seq<int>)
    requires Path(ss) && RuleOf(Top(ss)) == 22
    ensures Complete(ss, 22)
  {
    Below(ss);
    Below(ss[..|ss| - 1]);
    Below(ss[..|ss| - 2]);
  }

  lemma Entity(ss: seq<int>)
    requires Path(ss) && 9 <= RuleOf(Top(ss)) <= 13
    ensures Complete(ss, RuleOf(Top(ss)))
  {
    Below(ss);
    Below(ss[..|ss| - 1]);
    Below(ss[..|ss| - 2]);
  }

  lemma Four(ss: seq<int>)
    requires Path(ss) && RuleOf(Top(ss)) == 4
    ensures Complete(ss, 4)
  {
    hide Path;
    ClosedFull(ss);
    hide Target, RuleOf;
    Opened(ss[..|ss| - 2]);
    assert Rhs(4) == [NAME, OSB, BLOCK_MEMBERS, CSB];
  }

  lemma ClosedFull(ss: seq<int>)
    requires Path(ss) && RuleOf(Top(ss)) == 4
    ensures |ss| > 2 && Path(ss[..|ss| - 2]) && ss[|ss| - 3] == 7
    ensures SymOf(ss[|ss| - 2]) == BLOCK_MEMBERS && SymOf(Top(ss)) == CSB
  {
    Below(ss);
    Below(ss[..|ss| - 1]);
    DropPath(ss, 2);
  }

  /** An array's brace stands on its name and the equals sign, where an array may stand. */
  lemma ArrayStarts(ss: seq<int>)
    requires Path(ss) && Top(ss) == 24
    ensures |ss| > 3 && SymOf(24) == STARTARRAY && SymOf(ss[|ss| - 2]) == EQUALS && SymOf(ss[|ss| - 3]) == NAME
    ensures Target(ss[|ss| - 4], ARRAY) != 0
  {
    Below(ss);
    assert ss[|ss| - 2] == 17;
    Below(ss[..|ss| - 1]);
    assert ss[|ss| - 3] == 13;
    Below(ss[..|ss| - 2]);
  }

  lemma EmptyArray(ss: seq<int>)
    requires Path(ss) && RuleOf(Top(ss)) == 19
    ensures Complete(ss, 19)
  {
    hide Path;
    EndedEmpty(ss);
    hide Target, RuleOf;
    ArrayStarts(ss[..|ss| - 1]);
    assert Rhs(19) == [NAME, EQUALS, STARTARRAY, ENDARRAY];
  }

  lemma EndedEmpty(ss: seq<int>)
    requires Path(ss) && RuleOf(Top(ss)) == 19
    ensures |ss| > 1 && Path(ss[..|ss| - 1]) && ss[|ss| - 2] == 24 && SymOf(Top(ss)) == ENDARRAY
  {
    Below(ss);
    DropPath(ss, 1);
  }

  lemma Five(ss: seq<int>)
    requires Path(ss) && RuleOf(Top(ss)) == 20
    ensures Complete(ss, 20)
  {
    hide Path;
    EndedFull(ss);
    hide Target, RuleOf;
    ArrayStarts(ss[..|ss| - 2]);
    assert Rhs(20) == [NAME, EQUALS, STARTARRAY, ARRAY_MEMBERS, ENDARRAY];
  }

  lemma EndedFull(ss: seq<int>)
    requires Path(ss) && RuleOf(Top(ss)) == 20
    ensures |ss| > 2 && Path(ss[..|ss| - 2]) && ss[|ss| - 3] == 24
    ensures SymOf(ss[|ss| - 2]) == ARRAY_MEMBERS && SymOf(Top(ss)) == ENDARRAY
  {
    Below(ss);
    Below(ss[..|ss| - 1]);
    DropPath(ss, 2);
  }

  lemma RuleLengths(r: int)
    requires 3 <= r <= 27
    ensures |Rhs(r)| == if r == 4 || r == 19 then 4 else if r == 20 then 5 else if r == 6 then 2
                        else if r == 3 || (9 <= r <= 13) || r == 22 then 3 else 1
  {
  }

  lemma Handle(ss: seq<int>)
    requires Path(ss) && RuleOf(Top(ss)) >= 3
    ensures Complete(ss, RuleOf(Top(ss)))
  {
    hide RuleOf, Rhs, Complete;
    var r := RuleOf(Top(ss));
    RuleRange(Top(ss));
    RuleLengths(r);
    if r == 4 {
      Four(ss);
    } else if r == 19 {
      EmptyArray(ss);
    } else if r == 20 {
      Five(ss);
    } else if r == 6 {
      Two(ss);
    } else if r == 3 {
      EmptyBlock(ss);
    } else if r == 22 {
      Elements(ss);
    } else if 9 <= r <= 13 {
      Entity(ss);
    } else {
      Unit(ss);
    }
  }

  lemma RuleRange(q: int)
    ensures 0 <= RuleOf(q) <= 27 && RuleOf(q) != 1
  {
  }

  // ----- running the automaton -----

  datatype Outcome = Accepted(sem: Sem) | SyntaxError | ActionError

  datatype Move = Go(c: Config) | Stop(o: Outcome)

  /** The next token's symbol. */
  function Look(rest: seq<Tok>): int { if rest == [] then END else Kind(rest[0]) }

  /** Replace the right-hand side of r, on top of the stacks, by its left-hand side. */
  ghost function Reduce(c: Config, r: int): Move
    requires Good(c) && 3 <= r <= 27 && Complete(c.ss, r)
  {
    var n := |c.ss| - |Rhs(r)|;
    match Act(r, c.vs[n..], c.sem)
    case None => Stop(ActionError)
    case Some(d) => Go(Config(c.ss[..n] + [Target(c.ss[n - 1], Lhs(r))], c.vs[..n] + [d.val], c.rest, d.sem))
  }

  ghost function Next(c: Config): Move
    requires Good(c)
  {
    var q := Top(c.ss);
    if Shifts(q) then
      if Target(q, Look(c.rest)) == 0 then Stop(SyntaxError)
      else MoreInput(c); Go(Config(c.ss + [Target(q, Look(c.rest))], c.vs + [TokVal(c.rest[0])], c.rest[1..], c.sem))
    else if RuleOf(q) == 2 then Stop(Accepted(c.sem))
    else HandleOf(c); Reduce(c, RuleOf(q))
  }

  /** Only the two states behind the start symbol look for the end of the input. */
  lemma MoreInput(c: Config)
    requires Good(c) && Target(Top(c.ss), Look(c.rest)) != 0
    ensures c.rest != []
  {
    TopReached(c.ss);
  }

  lemma HandleOf(c: Config)
    requires Good(c) && !Shifts(Top(c.ss)) && RuleOf(Top(c.ss)) != 2
    ensures 3 <= RuleOf(Top(c.ss)) <= 27 && Complete(c.ss, RuleOf(Top(c.ss)))
  {
    TopReached(c.ss);
    DefaultRules(Top(c.ss));
    RuleRange(Top(c.ss));
    Handle(c.ss);
  }

  function Rank(q: int): nat {
    if SymOf(q) < 16 then 9
    else if SymOf(q) == SVALUE then 8
    else if SymOf(q) == ARRAY then 7
    else if SymOf(q) == ENTITY || SymOf(q) == BLOCK then 6
    else if SymOf(q) == NAME then 5
    else if SymOf(q) == BLOCK_MEMBER || SymOf(q) == ARRAY_MEMBER then 4
    else 3
  }

  lemma NextGood(c: Config)
    requires Good(c)
    ensures Next(c).Go? ==> Good(Next(c).c)
    ensures Next(c).Go? ==>
      var d := Next(c).c;
      || |d.rest| < |c.rest|
      || (|d.rest| == |c.rest| && |d.ss| < |c.ss|)
      || (|d.rest| == |c.rest| && |d.ss| == |c.ss| && Rank(Top(d.ss)) < Rank(Top(c.ss)))
  {
    hide RuleOf, Rhs, Target, Complete, Act;
    var q := Top(c.ss);
    TopReached(c.ss);
    if Shifts(q) {
      if Target(q, Look(c.rest)) != 0 {
        MoreInput(c);
        KindNotStart(c.rest);
        EdgeTo(q, Look(c.rest));
        PushPath(c.ss, Target(q, Look(c.rest)));
      }
    } else if RuleOf(q) != 2 {
      HandleOf(c);
      ReduceGood(c, RuleOf(q));
    }
  }

  lemma KindNotStart(rest: seq<Tok>)
    ensures Look(rest) != START
  {
  }

  lemma ReduceGood(c: Config, r: int)
    requires Good(c) && 3 <= r <= 27 && Complete(c.ss, r) && RuleOf(Top(c.ss)) == r
    ensures Reduce(c, r).Go? ==> Good(Reduce(c, r).c) && |Rhs(r)| >= 1
    ensures Reduce(c, r).Go? ==>
      var d := Reduce(c, r).c;
      |d.ss| < |c.ss| || (|d.ss| == |c.ss| && Rank(Top(d.ss)) < Rank(Top(c.ss)))
  {
    hide RuleOf, Rhs, Target, Act;
    var n := |c.ss| - |Rhs(r)|;
    var p := c.ss[n - 1];
    DropPath(c.ss, |Rhs(r)|);
    TopReached(c.ss[..n]);
    assert p == Top(c.ss[..n]);
    EdgeTo(p, Lhs(r));
    PushPath(c.ss[..n], Target(p, Lhs(r)));
    RuleLengths(r);
    if |Rhs(r)| == 1 {
      UnitRank(c.ss, r);
    }
  }

  lemma UnitRank(ss: seq<int>, r: int)
    requires Path(ss) && 3 <= r <= 27 && Complete(ss, r) && |Rhs(r)| == 1
    ensures SymOf(Top(ss)) == Rhs(r)[0]
    ensures forall q :: SymOf(q) == Lhs(r) ==> Rank(q) < Rank(Top(ss))
  {
    assert SymOf(ss[|ss| - 1 + 0]) == Rhs(r)[0];
  }

  ghost function Run(c: Config): Outcome
    requires Good(c)
    decreases |c.rest|, |c.ss|, Rank(Top(c.ss))
  {
    NextGood(c);
    match Next(c)
    case Stop(o) => o
    case Go(d) => Run(d)
  }

  function Initial(toks: seq<Tok>): Config { Config([0], [VNone], toks, CLEAN) }

  // ----- on a document, the automaton does what the document's actions do -----

  ghost function RunFrom(c: Config): Outcome { if Good(c) then Run(c) else SyntaxError }

  /** The symbols x lead on from state p, one after the other. */
  ghost predicate Leads(p: int, x: seq<int>)
    decreases |x|
  {
    x == [] || (Target(p, x[0]) != 0 && x[0] != START && p != 3 && Leads(Target(p, x[0]), x[1..]))
  }

  ghost function Walk(p: int, x: seq<int>): (w: seq<int>)
    ensures |w| == |x|
    decreases |x|
  {
    if x == [] then [] else [Target(p, x[0])] + Walk(Target(p, x[0]), x[1..])
  }

  /** The symbols x lead from p to q. */
  ghost predicate LeadsTo(p: int, x: seq<int>, q: int) {
    Leads(p, x) && x != [] && Walk(p, x)[|x| - 1] == q
  }

  lemma LeadsOne(p: int, a: int)
    requires Target(p, a) != 0 && a != START && p != 3
    ensures LeadsTo(p, [a], Target(p, a))
  {
  }

  lemma LeadsCons(p: int, x: seq<int>, y: seq<int>, q: int)
    requires x != [] && x[1..] == y && Target(p, x[0]) != 0 && x[0] != START && p != 3 && LeadsTo(Target(p, x[0]), y, q)
    ensures LeadsTo(p, x, q)
  {
  }

  lemma BlockLeads(p: int)
    requires p == 0 || p == 7 || p == 10
    ensures LeadsTo(p, Rhs(3), 8) && LeadsTo(p, Rhs(4), 15)
  {
    hide Leads, Walk;
    LeadsOne(7, CSB);
    LeadsCons(Target(p, NAME), [OSB, CSB], [CSB], 8);
    LeadsCons(p, [NAME, OSB, CSB], [OSB, CSB], 8);
    LeadsOne(10, CSB);
    LeadsCons(7, [BLOCK_MEMBERS, CSB], [CSB], 15);
    LeadsCons(Target(p, NAME), [OSB, BLOCK_MEMBERS, CSB], [BLOCK_MEMBERS, CSB], 15);
    LeadsCons(p, [NAME, OSB, BLOCK_MEMBERS, CSB], [OSB, BLOCK_MEMBERS, CSB], 15);
  }

  lemma EntityLeads(p: int, x: int)
    requires (p == 7 || p == 10) && (x == SVALUE || x == INTEGER || x == LONG || x == FLOAT || x == BOOLEAN)
    ensures LeadsTo(p, [NAME, EQUALS, x], Target(17, x))
  {
    hide Leads, Walk;
    LeadsOne(17, x);
    LeadsCons(13, [EQUALS, x], [x], Target(17, x));
    LeadsCons(p, [NAME, EQUALS, x], [EQUALS, x], Target(17, x));
  }

  lemma ArrayLeads(p: int)
    requires p == 7 || p == 10
    ensures LeadsTo(p, Rhs(19), 30) && LeadsTo(p, Rhs(20), 35)
  {
    hide Leads, Walk;
    LeadsOne(24, ENDARRAY);
    LeadsCons(17, [STARTARRAY, ENDARRAY], [ENDARRAY], 30);
    LeadsCons(13, [EQUALS, STARTARRAY, ENDARRAY], [STARTARRAY, ENDARRAY], 30);
    LeadsCons(p, [NAME, EQUALS, STARTARRAY, ENDARRAY], [EQUALS, STARTARRAY, ENDARRAY], 30);
    LeadsOne(32, ENDARRAY);
    LeadsCons(24, [ARRAY_MEMBERS, ENDARRAY], [ENDARRAY], 35);
    LeadsCons(17, [STARTARRAY, ARRAY_MEMBERS, ENDARRAY], [ARRAY_MEMBERS, ENDARRAY], 35);
    LeadsCons(13, [EQUALS, STARTARRAY, ARRAY_MEMBERS, ENDARRAY], [STARTARRAY, ARRAY_MEMBERS, ENDARRAY], 35);
    LeadsCons(p, [NAME, EQUALS, STARTARRAY, ARRAY_MEMBERS, ENDARRAY], [EQUALS, STARTARRAY, ARRAY_MEMBERS, ENDARRAY],
              35);
  }

  lemma ListLeads()
    ensures LeadsTo(7, Rhs(6), 16) && LeadsTo(24, Rhs(22), 36)
  {
    hide Leads, Walk;
    LeadsOne(10, BLOCK_MEMBER);
    LeadsCons(7, [BLOCK_MEMBERS, BLOCK_MEMBER], [BLOCK_MEMBER], 16);
    LeadsOne(34, ARRAY_MEMBER);
    LeadsCons(32, [COMMA, ARRAY_MEMBER], [ARRAY_MEMBER], 36);
    LeadsCons(24, [ARRAY_MEMBERS, COMMA, ARRAY_MEMBER], [COMMA, ARRAY_MEMBER], 36);
  }

  lemma UnitLeads(p: int, r: int)
    requires Reached(p) && 3 <= r <= 27 && Target(p, Lhs(r)) != 0 && |Rhs(r)| == 1
    ensures LeadsTo(p, Rhs(r), Target(p, Rhs(r)[0])) && RuleOf(Target(p, Rhs(r)[0])) == r
  {
    hide Leads, Walk;
    LeadsOne(p, Rhs(r)[0]);
  }

  /** Wherever a rule's left-hand side leads on, its right-hand side leads to the state that completes it. */
  lemma RuleLeads(p: int, r: int)
    requires Reached(p) && 3 <= r <= 27 && Target(p, Lhs(r)) != 0
    ensures Leads(p, Rhs(r)) && Rhs(r) != [] && RuleOf(Walk(p, Rhs(r))[|Rhs(r)| - 1]) == r
  {
    hide Leads, Walk;
    RuleLengths(r);
    if r <= 4 {
      BlockLeads(p);
    } else if 9 <= r <= 13 {
      EntityLeads(p, Rhs(r)[2]);
    } else if r == 6 || r == 22 {
      ListLeads();
    } else if r == 19 || r == 20 {
      ArrayLeads(p);
    } else {
      UnitLeads(p, r);
    }
  }
}
