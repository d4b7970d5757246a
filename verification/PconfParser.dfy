/** The parser as it runs: a loop over the tables with its stacks, and actions that update the path stack,
  * the array buffer and the configuration in place. */
module PconfParser {
  import opened Base
  import opened PconfGrammar
  import opened PconfTables
  import opened PconfActions
  import opened PconfEngine
  import opened PconfDepth
  import C = PconfCorrect

  const YYINITDEPTH := 200
  const YYEMPTY := -2
  const INVALID := 0xd

  class Parser {
    var curpath: string
    const keys: array<string>
    var keyoff: nat
    const arrayvals: array<Val>
    var arrayoff: nat
    var adds: seq<Add>
    const yyss: array<int>
    const yyvs: array<Val>
    var sp: nat
    var input: seq<Tok>
    var pos: nat
    var yychar: int
    var yylval: Val

    ghost predicate Valid()
      reads this
    {
      && pos <= |input|
      && (yychar == YYEMPTY || (yychar == END && pos == |input|)
          || (pos > 0 && yychar == Kind(input[pos - 1]) && yylval == TokVal(input[pos - 1])))
      && keys.Length == MAX_KEY_DEPTH && keyoff <= MAX_KEY_DEPTH && arrayvals.Length == MAXARRAY && arrayoff <= MAXARRAY
      && yyss.Length == YYINITDEPTH == yyvs.Length && sp < YYINITDEPTH && yyvs != arrayvals
    }

    /** The state the actions work on. */
    ghost function State(): Sem
      reads this, keys, arrayvals
      requires Valid()
    {
      Sem(curpath, keys[..keyoff], arrayvals[..arrayoff], adds)
    }

    /** The input still to be shifted, the token already read included. */
    ghost function Rest(): seq<Tok>
      reads this
      requires Valid()
    {
      if yychar == YYEMPTY || yychar == END then input[pos..] else input[pos - 1..]
    }

    /** The parser as the automaton sees it. */
    ghost function Now(): Config
      reads this, keys, arrayvals, yyss, yyvs
      requires Valid()
    {
      Config(yyss[..sp + 1], yyvs[..sp + 1], Rest(), State())
    }

    constructor ()
      ensures Valid() && State() == CLEAN && fresh(keys) && fresh(arrayvals) && fresh(yyss) && fresh(yyvs)
    {
      curpath, keyoff, arrayoff, adds, sp := "", 0, 0, [], 0;
      input, pos, yychar, yylval := [], 0, YYEMPTY, VNone;
      keys := new string[MAX_KEY_DEPTH](_ => "");
      arrayvals := new Val[MAXARRAY](_ => VNone);
      yyss := new int[YYINITDEPTH];
      yyvs := new Val[YYINITDEPTH](_ => VNone);
    }

    method PopCurPath() returns (ok: bool)
      requires Valid()
      modifies this`curpath, this`keyoff
      ensures Valid() && ok == Pop(old(State())).Some?
      ensures ok ==> State() == Pop(old(State())).value
    {
      if keyoff <= 0 {
        return false;
      }
      keyoff := keyoff - 1;
      // mos_strrchr from the end of the path
      var n := |curpath|;
      assert curpath[..n] == curpath;
      while n > 0 && curpath[n - 1] != '.'
        invariant 0 <= n <= |curpath| && CutLast(curpath) == CutLast(curpath[..n])
      {
        assert curpath[..n][..n - 1] == curpath[..n - 1];
        n := n - 1;
      }
      curpath := if n == 0 then "" else curpath[..n - 1];
      return true;
    }

    method PushCurPath(comp: string) returns (ok: bool)
      requires Valid()
      modifies this`curpath, this`keyoff, keys
      ensures Valid() && ok == Push(old(State()), comp).Some?
      ensures ok ==> State() == Push(old(State()), comp).value
    {
      if keyoff >= MAX_KEY_DEPTH {
        return false;
      }
      keys[keyoff] := comp;
      keyoff := keyoff + 1;
      if curpath != "" {
        if |curpath| + 1 >= PATH_SIZE {
          return false;
        }
        curpath := curpath + ".";
      }
      if |curpath| + |comp| >= PATH_SIZE {
        return false;
      }
      curpath := curpath + comp;
      return true;
    }

    /** CHECKARRAY and the store. */
    method StoreElem(v: Val) returns (ok: bool)
      requires Valid()
      modifies this`arrayoff, arrayvals
      ensures Valid() && ok == (|old(State()).vals| < MAXARRAY)
      ensures ok ==> State() == old(State()).(vals := old(State()).vals + [v])
    {
      if arrayoff >= MAXARRAY {
        arrayoff := 0;
        return false;
      }
      arrayvals[arrayoff] := v;
      arrayoff := arrayoff + 1;
      return true;
    }

    /** The additions for a whole array: the array itself, then its elements under their indices. */
    method AddElems()
      requires Valid()
      modifies this`adds, this`arrayoff
      ensures Valid()
      ensures State() == old(State()).(vals := [],
                adds := old(adds) + ([AddArray(old(curpath))] + ElemAdds(old(curpath), old(State()).vals, 0)))
      ensures var vals, n, path := old(State()).vals, old(|adds|), curpath;
        VNone !in vals ==>
          |adds| == n + 1 + |vals| && adds[..n] == old(adds) && adds[n] == AddArray(path) &&
          forall i :: 0 <= i < |vals| ==>
            match vals[i]
            case VStr(s) => adds[n + 1 + i] == AddStr(path + "." + Decimal(i), s)
            case VInt(x) => adds[n + 1 + i] == AddInt(path + "." + Decimal(i), x)
            case VLong(x) => adds[n + 1 + i] == AddInt(path + "." + Decimal(i), x)
            case VFloat(f) => adds[n + 1 + i] == AddNum(path + "." + Decimal(i), f)
            case VBool(b) => adds[n + 1 + i] == AddBool(path + "." + Decimal(i), b)
            case VNone => false
    {
      hide AddOf, Decimal;
      adds := adds + [AddArray(curpath)];
      ghost var path, vals, start := curpath, State().vals, adds;
      var i := 0;
      while i < arrayoff
        invariant 0 <= i <= arrayoff && Valid() && arrayoff == old(arrayoff)
        invariant adds + ElemAdds(path, vals, i) == start + ElemAdds(path, vals, 0)
      {
        adds := adds + AddOf(curpath + "." + Decimal(i), arrayvals[i]);
        i := i + 1;
      }
      assert ElemAdds(path, vals, i) == [];
      assert adds + [] == adds;
      arrayoff := 0;
      if VNone !in vals {
        ElemAddsAt(path, vals, 0);
      }
    }

    /** The action of rule r on the values of its right-hand side. */
    method Action(r: int, args: seq<Val>) returns (ok: bool, val: Val)
      requires Valid() && 3 <= r <= 27 && |args| == |Rhs(r)|
      modifies this`curpath, this`keyoff, this`arrayoff, this`adds, keys, arrayvals
      ensures Valid() && ok == Act(r, args, old(State())).Some?
      ensures ok ==> Act(r, args, old(State())) == Some(Done(val, State()))
    {
      hide Rhs, Pop, Push, Decimal, ElemAdds, Str, Int, Kind, TokVal;
      RuleLengths(r);
      val := args[0];
      assert adds + [] == adds;
      match r
      case 3 => ok := PopCurPath();
      case 4 => ok := PopCurPath();
      case 9 => adds := adds + [AddStr(curpath, Str(args[2]))]; ok := PopCurPath();
      case 10 => adds := adds + [AddInt(curpath, Int(args[2]))]; ok := PopCurPath();
      case 11 => adds := adds + [AddInt(curpath, Int(args[2]))]; ok := PopCurPath();
      case 12 => adds := adds + [AddNum(curpath, if args[2].VFloat? then args[2].f else 0.0)]; ok := PopCurPath();
      case 13 => adds := adds + [AddBool(curpath, args[2].VBool? && args[2].b)]; ok := PopCurPath();
      case 15 => ok := PushCurPath(Str(args[0])); val := VStr(Str(args[0]));
      case 16 => ok := PushCurPath(Decimal(Int(args[0]))); val := VStr(Decimal(Int(args[0])));
      case 19 => adds := adds + [AddArray(curpath)]; ok := PopCurPath();
      case 20 => AddElems(); ok := PopCurPath();
      case 23 => ok := StoreElem(VStr(Str(args[0])));
      case 24 => ok := StoreElem(args[0]);
      case 25 => ok := StoreElem(args[0]);
      case 26 => ok := StoreElem(args[0]);
      case 27 => ok := StoreElem(args[0]);
      case _ => ok := true;
    }

    /** Push a state and its value. */
    method Enter(q: int, v: Val)
      requires Valid() && sp + 1 < YYINITDEPTH
      modifies this`sp, yyss, yyvs
      ensures Valid() && yyss[..sp + 1] == old(yyss[..sp + 1]) + [q] && yyvs[..sp + 1] == old(yyvs[..sp + 1]) + [v]
    {
      sp := sp + 1;
      yyss[sp], yyvs[sp] := q, v;
    }

    /** Replace the last n states and their values. */
    method Replace(n: nat, q: int, v: Val)
      requires Valid() && 0 < n <= sp
      modifies this`sp, yyss, yyvs
      ensures Valid() && sp == old(sp) - n + 1
      ensures yyss[..sp + 1] == old(yyss[..sp - n + 1]) + [q] && yyvs[..sp + 1] == old(yyvs[..sp - n + 1]) + [v]
    {
      sp := sp - n;
      Enter(q, v);
    }

    /** Put the left-hand side of a rule, with its value, in the place of the right-hand side. */
    method PutLhs(rule: int, val: Val)
      requires Valid() && 3 <= rule <= 27 && Good(Now()) && Complete(Now().ss, rule)
      modifies this`sp, yyss, yyvs
      ensures Valid()
      ensures var c := old(Now()); var n := |c.ss| - |Rhs(rule)|;
        Now() == Config(c.ss[..n] + [Target(c.ss[n - 1], Lhs(rule))], c.vs[..n] + [val], c.rest, c.sem)
    {
      hide Rhs, Target, Lhs, Path, Goto, Kind, TokVal;
      ghost var c := Now();
      GotoOf(c, rule);
      var yylen := YYR2[rule];
      var p := yyss[sp - yylen];
      assert c.ss[..|c.ss| - yylen] == yyss[..sp - yylen + 1] && c.vs[..|c.ss| - yylen] == yyvs[..sp - yylen + 1];
      Replace(yylen, Goto(p, YYR1[rule]), val);
    }

    /** yyreduce, for a rule that is complete on top of the stack. */
    method ReduceBy(rule: int) returns (ok: bool)
      requires Valid() && 3 <= rule <= 27 && Good(Now()) && Complete(Now().ss, rule)
      modifies this`curpath, this`keyoff, this`arrayoff, this`adds, this`sp, keys, arrayvals, yyss, yyvs
      ensures Valid() && ok == Reduce(old(Now()), rule).Go?
      ensures ok ==> Now() == Reduce(old(Now()), rule).c
    {
      hide Rhs, Act, Target, Lhs, Path, Goto, Kind, TokVal, Spells, Look;
      ghost var c := Now();
      RuleTables(rule);
      var yylen := YYR2[rule];
      assert c.vs[|c.ss| - yylen..] == yyvs[sp + 1 - yylen..sp + 1];
      var val;
      ok, val := Action(rule, yyvs[sp + 1 - yylen..sp + 1]);
      assert Now() == c.(sem := State());
      if ok {
        PutLhs(rule, val);
      }
    }

    /** yyerrlab1: look down the stack for a state that takes the error token.  There is none. */
    method Recover() returns (found: bool)
      requires Valid() && Path(yyss[..sp + 1])
      modifies this`sp
      ensures Valid() && !found
    {
      ghost var ss := yyss[..sp + 1];
      while true
        invariant sp < |ss| <= YYINITDEPTH && ss == yyss[..|ss|]
        decreases sp
      {
        DropPath(ss, |ss| - 1 - sp);
        assert ss[..|ss| - (|ss| - 1 - sp)] == yyss[..sp + 1];
        TopReached(yyss[..sp + 1]);
        NoErrorEntry(yyss[sp]);
        var n := YYPACT[yyss[sp]];
        if n != YYPACT_NINF {
          n := n + ERROR;
          if 0 <= n <= YYLAST && YYCHECK[n] == ERROR && 0 < YYTABLE[n] {
            return true;
          }
        }
        if sp == 0 {
          return false;
        }
        sp := sp - 1;
      }
    }

    /** yybackup: what the tables say to do next, reading a token if they need one. */
    method Decide() returns (shift: int, rule: int)
      requires Valid() && Reached(yyss[sp])
      modifies this`pos, this`yychar, this`yylval
      ensures Valid() && Now() == old(Now()) && rule == RuleOf(yyss[sp])
      ensures if Shifts(yyss[sp]) then shift == Target(yyss[sp], Look(Rest())) && yychar == Look(Rest()) else shift == 0
    {
      hide RuleOf, Target, Kind, TokVal, Entry;
      NoLookaheadReductions(yyss[sp]);
      DefaultRules(yyss[sp]);
      shift, rule := 0, YYDEFACT[yyss[sp]];
      if YYPACT[yyss[sp]] != YYPACT_NINF {
        ReadToken();
        EntryIsTarget(yyss[sp], yychar);
        shift := Entry(yyss[sp], yychar);
      }
    }

    /** yylex, unless there is a token already. */
    method ReadToken()
      requires Valid()
      modifies this`pos, this`yychar, this`yylval
      ensures Valid() && Rest() == old(Rest()) && yychar == Look(Rest())
    {
      if yychar == YYEMPTY {
        if pos < |input| {
          yychar, yylval, pos := Kind(input[pos]), TokVal(input[pos]), pos + 1;
        } else {
          yychar := END;
        }
      }
    }

    /** Shift the token that has been read. */
    method ShiftToken(q: int)
      requires Valid() && sp + 1 < YYINITDEPTH && yychar == Look(Rest()) && Rest() != []
      modifies this`sp, this`yychar, yyss, yyvs
      ensures Valid()
      ensures var c := old(Now()); Now() == Config(c.ss + [q], c.vs + [TokVal(c.rest[0])], c.rest[1..], c.sem)
    {
      Enter(q, yylval);
      yychar := YYEMPTY;
    }

    /** One shift or reduction, or the end of the parse. */
    method Advance() returns (result: Option<int>)
      requires Valid() && Good(Now()) && Keyed(Now())
      modifies this, keys, arrayvals, yyss, yyvs
      ensures Valid() && input == old(input)
      ensures match Next(old(Now()))
              case Go(c) => result == None && Now() == c
              case Stop(o) => result == Some(Code(o)) && (o.Accepted? ==> o.sem == State())
    {
      hide Rhs, RuleOf, Act, Target, Lhs, Path, Complete, SymOf, Slack, Reached, Kind, Look, Goto, Entry;
      hide Next, Reduce, Keyed, TokVal, Shifts;
      ghost var c := Now();
      StackFits(c);
      TopReached(c.ss);
      TopIs(c);
      NextIs(c);
      if YYINITDEPTH - 1 <= sp || yyss[sp] == YYFINAL {
        assert false;
      }
      var shift, rule := Decide();
      if shift > 0 {
        ShiftToken(shift);
        return None;
      } else if rule == 0 {
        var found := Recover();
        if found {
          assert false;
        }
        return Some(1);
      } else if rule == 2 {
        return Some(0);
      } else {
        var ok := ReduceBy(rule);
        return if ok then None else Some(INVALID);
      }
    }

    /** The parser's start: state 0 on the stack and the whole input ahead. */
    method Start(toks: seq<Tok>)
      requires Valid() && State() == CLEAN
      modifies this`input, this`pos, this`yychar, this`yylval, this`sp, yyss, yyvs
      ensures Valid() && Now() == Initial(toks)
    {
      input, pos, yychar, yylval := toks, 0, YYEMPTY, VNone;
      sp, yyss[0], yyvs[0] := 0, 0, VNone;
      assert yyss[..1] == [0] && yyvs[..1] == [VNone] && toks[0..] == toks;
    }

    /** The parse, from a clean state.  0 is acceptance, 1 a syntax error, INVALID an action's error. */
    method Parse(toks: seq<Tok>) returns (res: int)
      requires Valid() && State() == CLEAN
      modifies this, keys, arrayvals, yyss, yyvs
      ensures Valid()
      ensures res == Code(C.Parsed(toks))
      ensures res == 0 ==> C.Parsed(toks) == Accepted(State())
    {
      hide Next, Run, Good, Keyed, Rank, Kind, TokVal, Look, Initial;
      Start(toks);
      InitialKeyed(toks);
      while true
        invariant Valid() && Good(Now()) && Keyed(Now()) && C.Parsed(toks) == RunFrom(Now())
        decreases |Rest()|, sp, Rank(yyss[sp])
      {
        ghost var c := Now();
        C.RunStep(c);
        NextGood(c);
        if Next(c).Go? {
          NextKeyed(c);
        }
        var result := Advance();
        if result.Some? {
          return result.value;
        }
      }
    }
  }

  lemma GotoOf(c: Config, rule: int)
    requires 3 <= rule <= 27 && Good(c) && Complete(c.ss, rule)
    ensures YYR2[rule] == |Rhs(rule)| >= 1 && YYR1[rule] == Lhs(rule) && YYNTOKENS <= Lhs(rule) < YYNTOKENS + 11
    ensures var p := c.ss[|c.ss| - |Rhs(rule)| - 1]; State(p) && Goto(p, Lhs(rule)) == Target(p, Lhs(rule))
  {
    hide Rhs, Target, Path;
    RuleTables(rule);
    RuleLengths(rule);
    DropPath(c.ss, |Rhs(rule)|);
    TopReached(c.ss[..|c.ss| - |Rhs(rule)|]);
    GotoIsTarget(c.ss[|c.ss| - |Rhs(rule)| - 1], Lhs(rule));
  }

  lemma InitialKeyed(toks: seq<Tok>)
    ensures Good(Initial(toks)) && Keyed(Initial(toks))
  {
    assert Spelled([0]) == [END];
  }

  /** The start symbol's final state is never on the stack, and a rule that is complete is not rule 0. */
  lemma TopIs(c: Config)
    requires Good(c)
    ensures Top(c.ss) != YYFINAL && (Shifts(Top(c.ss)) <==> RuleOf(Top(c.ss)) == 0)
    ensures Target(Top(c.ss), Look(c.rest)) >= 0
  {
    TopReached(c.ss);
    DefaultRules(Top(c.ss));
  }

  /** What the next step is, case by case. */
  lemma NextIs(c: Config)
    requires Good(c)
    ensures var q := Top(c.ss); var to := Target(q, Look(c.rest));
      Shifts(q) ==>
        if to == 0 then Next(c) == Stop(SyntaxError)
        else c.rest != [] && Next(c) == Go(Config(c.ss + [to], c.vs + [TokVal(c.rest[0])], c.rest[1..], c.sem))
    ensures var q := Top(c.ss);
      !Shifts(q) ==>
        if RuleOf(q) == 2 then Next(c) == Stop(Accepted(c.sem))
        else 3 <= RuleOf(q) <= 27 && Complete(c.ss, RuleOf(q)) && Next(c) == Reduce(c, RuleOf(q))
    ensures !Shifts(Top(c.ss)) && RuleOf(Top(c.ss)) != 2 ==> Next(c).Go? || Next(c) == Stop(ActionError)
  {
    hide Rhs, RuleOf, Act, Target, Lhs, Complete, Look, TokVal, Shifts;
    if !Shifts(Top(c.ss)) && RuleOf(Top(c.ss)) != 2 {
      HandleOf(c);
    } else if Shifts(Top(c.ss)) && Target(Top(c.ss), Look(c.rest)) != 0 {
      MoreInput(c);
    }
  }

  function Code(o: Outcome): int {
    match o
    case Accepted(_) => 0
    case SyntaxError => 1
    case ActionError => INVALID
  }
}
