/** The grammar of the configuration language: its tokens, its rules and its parse trees. */
module PconfGrammar {

  /** What the lexer returns.  Numbers and strings arrive already converted. */
  datatype Tok =
    | TToken(s: string) | TInteger(i: int) | TLong(i: int) | TFloat(f: real) | TString(s: string) | TBoolean(b: bool)
    | TEquals | TComma | TStartArray | TEndArray | TOsb | TCsb | TJunk

  // Symbols are numbered as the parser numbers them: terminals below 16, then the nonterminals.

  const END := 0
  const ERROR := 1
  const START := 17
  const BLOCK := 18
  const BLOCK_MEMBERS := 19
  const BLOCK_MEMBER := 20
  const ENTITY := 21
  const NAME := 22
  const SVALUE := 23
  const ARRAY := 24
  const ARRAY_MEMBERS := 25
  const ARRAY_MEMBER := 26

  const TOKEN := 3
  const INTEGER := 4
  const LONG := 5
  const FLOAT := 6
  const STRING := 7
  const BOOLEAN := 8
  const EQUALS := 9
  const COMMA := 10
  const STARTARRAY := 11
  const ENDARRAY := 12
  const OSB := 13
  const CSB := 14
  const JUNK := 15

  function Kind(t: Tok): (k: int)
    ensures 3 <= k <= 15
  {
    match t
    case TToken(_) => TOKEN
    case TInteger(_) => INTEGER
    case TLong(_) => LONG
    case TFloat(_) => FLOAT
    case TString(_) => STRING
    case TBoolean(_) => BOOLEAN
    case TEquals => EQUALS
    case TComma => COMMA
    case TStartArray => STARTARRAY
    case TEndArray => ENDARRAY
    case TOsb => OSB
    case TCsb => CSB
    case TJunk => JUNK
  }

  /** The symbol rule r derives. */
  function Lhs(r: int): int {
    if r <= 2 then START
    else if r <= 4 then BLOCK
    else if r <= 6 then BLOCK_MEMBERS
    else if r <= 8 then BLOCK_MEMBER
    else if r <= 14 then ENTITY
    else if r <= 16 then NAME
    else if r <= 18 then SVALUE
    else if r <= 20 then ARRAY
    else if r <= 22 then ARRAY_MEMBERS
    else ARRAY_MEMBER
  }

  /** The symbols rule r derives it into. */
  function Rhs(r: int): seq<int> {
    match r
    case 2 => [BLOCK]
    case 3 => [NAME, OSB, CSB]
    case 4 => [NAME, OSB, BLOCK_MEMBERS, CSB]
    case 5 => [BLOCK_MEMBER]
    case 6 => [BLOCK_MEMBERS, BLOCK_MEMBER]
    case 7 => [BLOCK]
    case 8 => [ENTITY]
    case 9 => [NAME, EQUALS, SVALUE]
    case 10 => [NAME, EQUALS, INTEGER]
    case 11 => [NAME, EQUALS, LONG]
    case 12 => [NAME, EQUALS, FLOAT]
    case 13 => [NAME, EQUALS, BOOLEAN]
    case 14 => [ARRAY]
    case 15 => [TOKEN]
    case 16 => [INTEGER]
    case 17 => [TOKEN]
    case 18 => [STRING]
    case 19 => [NAME, EQUALS, STARTARRAY, ENDARRAY]
    case 20 => [NAME, EQUALS, STARTARRAY, ARRAY_MEMBERS, ENDARRAY]
    case 21 => [ARRAY_MEMBER]
    case 22 => [ARRAY_MEMBERS, COMMA, ARRAY_MEMBER]
    case 23 => [SVALUE]
    case 24 => [INTEGER]
    case 25 => [LONG]
    case 26 => [FLOAT]
    case 27 => [BOOLEAN]
    case _ => []
  }

  datatype Tree = Leaf(tok: Tok) | Node(rule: int, kids: seq<Tree>)

  function Sym(t: Tree): int { if t.Leaf? then Kind(t.tok) else Lhs(t.rule) }

  function Syms(ts: seq<Tree>): (r: seq<int>)
    ensures |r| == |ts| && forall i :: 0 <= i < |ts| ==> r[i] == Sym(ts[i])
  {
    if ts == [] then [] else [Sym(ts[0])] + Syms(ts[1..])
  }

  /** t is a parse tree: every node applies its rule to its children.  The start rule is not part of it. */
  ghost predicate Derives(t: Tree) {
    t.Node? ==> 3 <= t.rule <= 27 && Syms(t.kids) == Rhs(t.rule) && forall k :: k in t.kids ==> Derives(k)
  }

  /** The tokens a tree stands for. */
  function Yield(t: Tree): seq<Tok> { if t.Leaf? then [t.tok] else YieldAll(t.kids) }

  function YieldAll(ts: seq<Tree>): seq<Tok> { if ts == [] then [] else Yield(ts[0]) + YieldAll(ts[1..]) }

  lemma YieldAppend(a: seq<Tree>, b: seq<Tree>)
    ensures YieldAll(a + b) == YieldAll(a) + YieldAll(b)
  {
    if a == [] {
      assert a + b == b;
    } else {
      assert (a + b)[1..] == a[1..] + b;
      YieldAppend(a[1..], b);
    }
  }
}
