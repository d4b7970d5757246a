/** The parser's tables, and what they say: which symbol leads from which state to which, and which state
  * has a rule complete. */
module PconfTables {
  import opened PconfGrammar

  const YYLAST := 39
  const YYNTOKENS := 16
  const YYFINAL := 6
  const YYPACT_NINF := -6

  const YYPACT: seq<int> :=
    [ 18,  -6,  -6,   4,  -6,  23,  -6,  -3,  -6,  -6,
      -1,  -6,  -6,  22,  -6,  -6,  -6,  12,  -6,  -6,
      -6,  -6,  -6,  -6,   2,  -6,  -6,  -6,  -6,  -6,
      -6,  -6,  20,  -6,  21,  -6,  -6]

  const YYDEFACT: seq<int> :=
    [ 0,  15,  16,   0,   2,   0,   1,   0,   3,   7,
      0,   5,   8,   0,  14,   4,   6,   0,  17,  10,
     11,  12,  18,  13,   0,   9,  24,  25,  26,  27,
     19,  23,   0,  21,   0,  20,  22]

  const YYPGOTO: seq<int> := [-6, -6, 33, -6, 24, -6, 37, -5, -6, -6, 5]

  const YYDEFGOTO: seq<int> := [-1, 3, 9, 10, 11, 12, 13, 31, 14, 32, 33]

  const YYTABLE: seq<int> :=
    [ 1,   2,   1,   2,   6,  18,  26,  27,  28,  22,
     29,   8,  25,  15,  30,  18,  19,  20,  21,  22,
     23,   1,   2,  24,  18,  26,  27,  28,  22,  29,
     34,  17,  35,   4,  16,   7,   7,   5,   0,  36]

  const YYCHECK: seq<int> :=
    [ 3,   4,   3,   4,   0,   3,   4,   5,   6,   7,
      8,  14,  17,  14,  12,   3,   4,   5,   6,   7,
      8,   3,   4,  11,   3,   4,   5,   6,   7,   8,
     10,   9,  12,   0,  10,  13,  13,   0,  -1,  34]

  const YYSTOS: seq<int> :=
    [ 0,   3,   4,  17,  18,  22,   0,  13,  14,  18,
     19,  20,  21,  22,  24,  14,  20,   9,   3,   4,
      5,   6,   7,   8,  11,  23,   4,   5,   6,   8,
     12,  23,  25,  26,  10,  12,  26]

  const YYR1: seq<int> :=
    [ 0,  16,  17,  18,  18,  19,  19,  20,  20,  21,
     21,  21,  21,  21,  21,  22,  22,  23,  23,  24,
     24,  25,  25,  26,  26,  26,  26,  26]

  const YYR2: seq<int> :=
    [ 0,   2,   1,   3,   4,   1,   2,   1,   1,   3,
      3,   3,   3,   3,   1,   1,   1,   1,   1,   4,
      5,   1,   3,   1,   1,   1,   1,   1]

  predicate State(q: int) { 0 <= q < 37 }

  /** Does state q act without looking at the next token? */
  predicate Consistent(q: int)
    requires State(q)
  {
    YYPACT[q] == YYPACT_NINF
  }

  /** yybackup: the table entry for token k in state q, or 0 if there is none. */
  function Entry(q: int, k: int): int
    requires State(q)
  {
    var n := YYPACT[q] + k;
    if n < 0 || YYLAST < n || YYCHECK[n] != k then 0 else YYTABLE[n]
  }

  /** yyreduce: where symbol x leads from state p. */
  function Goto(p: int, x: int): int
    requires State(p) && YYNTOKENS <= x < YYNTOKENS + 11
  {
    var n := YYPGOTO[x - YYNTOKENS] + p;
    if 0 <= n <= YYLAST && YYCHECK[n] == p then YYTABLE[n] else YYDEFGOTO[x - YYNTOKENS]
  }

  // ----- the automaton the tables encode -----

  /** Where symbol x leads from state p; 0 if nowhere. */
  function Target(p: int, x: int): int {
    match p
    case 0 =>
      if x == TOKEN then 1 else if x == INTEGER then 2 else if x == START then 3 else if x == BLOCK then 4
      else if x == NAME then 5 else 0
    case 3 => if x == END then 6 else 0
    case 5 => if x == OSB then 7 else 0
    case 7 =>
      if x == TOKEN then 1 else if x == INTEGER then 2 else if x == CSB then 8 else if x == BLOCK then 9
      else if x == BLOCK_MEMBERS then 10 else if x == BLOCK_MEMBER then 11 else if x == ENTITY then 12
      else if x == NAME then 13 else if x == ARRAY then 14 else 0
    case 10 =>
      if x == TOKEN then 1 else if x == INTEGER then 2 else if x == CSB then 15 else if x == BLOCK then 9
      else if x == BLOCK_MEMBER then 16 else if x == ENTITY then 12
      else if x == NAME then 13 else if x == ARRAY then 14 else 0
    case 13 => if x == OSB then 7 else if x == EQUALS then 17 else 0
    case 17 =>
      if x == TOKEN then 18 else if x == INTEGER then 19 else if x == LONG then 20 else if x == FLOAT then 21
      else if x == STRING then 22 else if x == BOOLEAN then 23 else if x == STARTARRAY then 24
      else if x == SVALUE then 25 else 0
    case 24 =>
      if x == TOKEN then 18 else if x == INTEGER then 26 else if x == LONG then 27 else if x == FLOAT then 28
      else if x == STRING then 22 else if x == BOOLEAN then 29 else if x == ENDARRAY then 30
      else if x == SVALUE then 31 else if x == ARRAY_MEMBERS then 32 else if x == ARRAY_MEMBER then 33 else 0
    case 32 => if x == COMMA then 34 else if x == ENDARRAY then 35 else 0
    case 34 =>
      if x == TOKEN then 18 else if x == INTEGER then 26 else if x == LONG then 27 else if x == FLOAT then 28
      else if x == STRING then 22 else if x == BOOLEAN then 29 else if x == SVALUE then 31
      else if x == ARRAY_MEMBER then 36 else 0
    case _ => 0
  }

  predicate Shifts(q: int) {
    q == 0 || q == 3 || q == 5 || q == 7 || q == 10 || q == 13 || q == 17 || q == 24 || q == 32 || q == 34
  }

  /** The tables have no state that needs the next token to choose a rule: a state either shifts by its
    * entries or reduces by its default. */
  lemma NoLookaheadReductions(q: int)
    requires State(q)
    ensures Consistent(q) <==> !Shifts(q)
    ensures YYDEFACT[q] == 0 <==> Shifts(q)
  {
  }

  lemma EntryStart(k: int)
    requires 0 <= k < YYNTOKENS
    ensures Entry(0, k) == Target(0, k)
  {
  }

  lemma EntryEnd(k: int)
    requires 0 <= k < YYNTOKENS
    ensures Entry(3, k) == Target(3, k)
  {
    assert YYPACT[3] == 4;
  }

  lemma EntryName(k: int)
    requires 0 <= k < YYNTOKENS
    ensures Entry(5, k) == Target(5, k)
  {
    assert YYPACT[5] == 23;
  }

  lemma EntryOpen(k: int)
    requires 0 <= k < YYNTOKENS
    ensures Entry(7, k) == Target(7, k)
  {
    assert YYPACT[7] == -3;
  }

  lemma EntryMembers(k: int)
    requires 0 <= k < YYNTOKENS
    ensures Entry(10, k) == Target(10, k)
  {
    assert YYPACT[10] == -1;
  }

  lemma EntryValue(k: int)
    requires 0 <= k < YYNTOKENS
    ensures Entry(13, k) == Target(13, k)
  {
    assert YYPACT[13] == 22;
  }

  lemma EntryElement(k: int)
    requires 0 <= k < YYNTOKENS
    ensures Entry(17, k) == Target(17, k)
  {
    assert YYPACT[17] == 12;
  }

  lemma EntryArray(k: int)
    requires 0 <= k < YYNTOKENS
    ensures Entry(24, k) == Target(24, k)
  {
  }

  lemma EntryElements(k: int)
    requires 0 <= k < YYNTOKENS
    ensures Entry(32, k) == Target(32, k)
  {
    assert YYPACT[32] == 20;
  }

  lemma EntryComma(k: int)
    requires 0 <= k < YYNTOKENS
    ensures Entry(34, k) == Target(34, k)
  {
  }

  lemma EntryIsTarget(q: int, k: int)
    requires State(q) && Shifts(q) && 0 <= k < YYNTOKENS
    ensures Entry(q, k) == Target(q, k)
  {
    hide Entry, Target;
    if q == 0 {
      EntryStart(k);
    } else if q == 3 {
      EntryEnd(k);
    } else if q == 5 {
      EntryName(k);
    } else if q == 7 {
      EntryOpen(k);
    } else if q == 10 {
      EntryMembers(k);
    } else if q == 13 {
      EntryValue(k);
    } else if q == 17 {
      EntryElement(k);
    } else if q == 24 {
      EntryArray(k);
    } else if q == 32 {
      EntryElements(k);
    } else {
      EntryComma(k);
    }
  }

  lemma GotoStart(x: int)
    requires YYNTOKENS <= x < YYNTOKENS + 11 && Target(0, x) != 0
    ensures Goto(0, x) == Target(0, x)
  {
  }

  lemma GotoOpen(x: int)
    requires YYNTOKENS <= x < YYNTOKENS + 11 && Target(7, x) != 0
    ensures Goto(7, x) == Target(7, x)
  {
  }

  lemma GotoMembers(x: int)
    requires YYNTOKENS <= x < YYNTOKENS + 11 && Target(10, x) != 0
    ensures Goto(10, x) == Target(10, x)
  {
  }

  lemma GotoElement(x: int)
    requires YYNTOKENS <= x < YYNTOKENS + 11 && Target(17, x) != 0
    ensures Goto(17, x) == Target(17, x)
  {
  }

  lemma GotoArray(x: int)
    requires YYNTOKENS <= x < YYNTOKENS + 11 && Target(24, x) != 0
    ensures Goto(24, x) == Target(24, x)
  {
  }

  lemma GotoComma(x: int)
    requires YYNTOKENS <= x < YYNTOKENS + 11 && Target(34, x) != 0
    ensures Goto(34, x) == Target(34, x)
  {
  }

  lemma GotoIsTarget(p: int, x: int)
    requires State(p) && YYNTOKENS <= x < YYNTOKENS + 11 && Target(p, x) != 0
    ensures Goto(p, x) == Target(p, x)
  {
    hide Goto;
    if p == 0 {
      GotoStart(x);
    } else if p == 7 {
      GotoOpen(x);
    } else if p == 10 {
      GotoMembers(x);
    } else if p == 17 {
      GotoElement(x);
    } else if p == 24 {
      GotoArray(x);
    } else {
      assert p == 34;
      GotoComma(x);
    }
  }

  /** No state has an entry for the error token, so nothing can be recovered from. */
  lemma NoErrorEntry(q: int)
    requires State(q)
    ensures Consistent(q) || Entry(q, ERROR) == 0
  {
    NoLookaheadReductions(q);
    if Shifts(q) {
      EntryIsTarget(q, ERROR);
    }
  }

  lemma RuleTables(r: int)
    requires 2 <= r <= 27
    ensures YYR1[r] == Lhs(r) && YYR2[r] == |Rhs(r)|
  {
  }

  /** A state is entered only by its own symbol. */
  lemma TargetSymbol(p: int, x: int)
    requires Target(p, x) != 0
    ensures var q := Target(p, x); State(q) && q != 0 && YYSTOS[q] == x
  {
  }
}
