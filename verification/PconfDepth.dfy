/** How deep the parser's stack can get.  Every open name on the stack has its key on the path stack, so the
  * limit on keys bounds the stack, and the parser never has to enlarge it. */
module PconfDepth {
  import opened Base
  import opened PconfGrammar
  import opened PconfTables
  import opened PconfActions
  import opened PconfEngine

  /** How many of the symbols are names. */
  function NameCount(x: seq<int>): nat {
    if x == [] then 0 else NameCount(x[..|x|-1]) + (if x[|x|-1] == NAME then 1 else 0)
  }

  lemma NameCountAppend(x: seq<int>, y: seq<int>)
    ensures NameCount(x + y) == NameCount(x) + NameCount(y)
  {
    if y == [] {
      assert x + y == x;
    } else {
      assert (x + y)[..|x + y| - 1] == x + y[..|y| - 1];
      NameCountAppend(x, y[..|y| - 1]);
    }
  }

  /** The symbols behind the states of a stack. */
  function Spelled(ss: seq<int>): (x: seq<int>)
    ensures |x| == |ss|
  {
    seq(|ss|, i requires 0 <= i < |ss| => SymOf(ss[i]))
  }

  /** How far a stack with this top state can be above three states a name. */
  function Slack(q: int): int {
    match q
    case 0 => 1 case 5 => -1 case 7 => 0 case 13 => -1 case 10 => 1 case 17 => 0 case 24 => 1 case 32 => 2 case 34 => 3
    case _ => 4
  }

  lemma SlackStep(p: int, q: int)
    requires Edge(p, q)
    ensures Slack(p) + 1 <= Slack(q) + if SymOf(q) == NAME then 3 else 0
  {
  }

  lemma {:induction false} StackHeight(ss: seq<int>)
    requires Path(ss)
    ensures |ss| <= 3 * NameCount(Spelled(ss)) + Slack(Top(ss))
  {
    var n := |ss| - 1;
    if n > 0 {
      DropPath(ss, 1);
      StackHeight(ss[..n]);
      assert Spelled(ss)[..n] == Spelled(ss[..n]);
      assert Edge(ss[n - 1], ss[n]);
      SlackStep(ss[n - 1], ss[n]);
    }
  }

  /** Every name on the stack has its key. */
  ghost predicate Keyed(c: Config) { NameCount(Spelled(c.ss)) == |c.sem.keys| <= MAX_KEY_DEPTH }

  lemma ActKeys(r: int, args: seq<Val>, sem: Sem)
    requires 3 <= r <= 27 && |args| == |Rhs(r)| && Act(r, args, sem).Some? && |sem.keys| <= MAX_KEY_DEPTH
    ensures |Act(r, args, sem).value.sem.keys| <= MAX_KEY_DEPTH
    ensures |Act(r, args, sem).value.sem.keys|
         == |sem.keys| - NameCount(Rhs(r)) + if Lhs(r) == NAME then 1 else 0
  {
    RuleNames(r);
  }

  lemma RuleNames(r: int)
    requires 3 <= r <= 27
    ensures NameCount(Rhs(r)) == if r <= 4 || 9 <= r <= 13 || r == 19 || r == 20 then 1 else 0
  {
    RuleLengths(r);
    var x := Rhs(r);
    assert x == [x[0]] + x[1..];
    NameCountAppend([x[0]], x[1..]);
    NoNames(x[1..]);
  }

  lemma NoNames(x: seq<int>)
    requires forall i :: 0 <= i < |x| ==> x[i] != NAME
    ensures NameCount(x) == 0
  {
    if x != [] {
      NoNames(x[..|x|-1]);
    }
  }

  lemma NextKeyed(c: Config)
    requires Good(c) && Keyed(c) && Next(c).Go?
    ensures Keyed(Next(c).c)
  {
    hide Rhs, RuleOf, Act, Target;
    var q, d := Top(c.ss), Next(c).c;
    TopReached(c.ss);
    if Shifts(q) {
      KindNotStart(c.rest);
      MoreInput(c);
      EdgeTo(q, Look(c.rest));
      SpelledPush(c.ss, Target(q, Look(c.rest)));
    } else {
      HandleOf(c);
      ReduceKeyed(c, RuleOf(q));
    }
  }

  lemma SpelledPush(ss: seq<int>, q: int)
    ensures NameCount(Spelled(ss + [q])) == NameCount(Spelled(ss)) + if SymOf(q) == NAME then 1 else 0
  {
    assert Spelled(ss + [q])[..|ss|] == Spelled(ss);
  }

  lemma ReduceKeyed(c: Config, r: int)
    requires Good(c) && Keyed(c) && 3 <= r <= 27 && Complete(c.ss, r) && Reduce(c, r).Go?
    ensures Keyed(Reduce(c, r).c)
  {
    hide Rhs, RuleOf, Act, Target, SymOf;
    var n := |c.ss| - |Rhs(r)|;
    DropPath(c.ss, |Rhs(r)|);
    TopReached(c.ss[..n]);
    LeftSide(r);
    EdgeTo(c.ss[n - 1], Lhs(r));
    SpelledPush(c.ss[..n], Target(c.ss[n - 1], Lhs(r)));
    ActKeys(r, c.vs[n..], c.sem);
    SpelledSplit(c.ss, r);
  }

  lemma LeftSide(r: int)
    requires 3 <= r
    ensures Lhs(r) != START
  {
  }

  lemma SpelledSplit(ss: seq<int>, r: int)
    requires Complete(ss, r)
    ensures NameCount(Spelled(ss)) == NameCount(Spelled(ss[..|ss| - |Rhs(r)|])) + NameCount(Rhs(r))
  {
    hide Rhs, SymOf, Target;
    var n := |ss| - |Rhs(r)|;
    assert Spelled(ss)[n..] == Rhs(r) by {
      forall i | 0 <= i < |Rhs(r)| ensures Spelled(ss)[n + i] == Rhs(r)[i] {
        assert SymOf(ss[|ss| - |Rhs(r)| + i]) == Rhs(r)[i];
      }
    }
    assert Spelled(ss) == Spelled(ss[..n]) + Rhs(r);
    NameCountAppend(Spelled(ss[..n]), Rhs(r));
  }

  /** The stack has fewer entries than it is first given room for. */
  lemma StackFits(c: Config)
    requires Good(c) && Keyed(c)
    ensures |c.ss| <= 196
  {
    StackHeight(c.ss);
  }
}
