/** The semantic actions of the configuration parser, and what they are meant to compute: a nested document
  * flattened into additions of values under dotted paths. */
module PconfActions {
  import opened Base
  import opened PconfGrammar

  const MAX_KEY_DEPTH := 64
  const PATH_SIZE := 1024
  const MAXARRAY := 2048

  /** A semantic value, as one member of the parser's union. */
  datatype Val = VStr(s: string) | VInt(i: int) | VLong(i: int) | VFloat(f: real) | VBool(b: bool) | VNone

  /** A call that adds something to the configuration being built. */
  datatype Add =
    | AddArray(path: string)
    | AddStr(path: string, s: string) | AddInt(path: string, i: int) | AddNum(path: string, f: real)
    | AddBool(path: string, b: bool)

  /** curpath, keys[0..keyoff], arrayvals[0..arrayoff] and the additions made so far. */
  datatype Sem = Sem(curpath: string, keys: seq<string>, vals: seq<Val>, adds: seq<Add>)

  const CLEAN := Sem("", [], [], [])

  function TokVal(t: Tok): Val {
    match t
    case TToken(s) => VStr(s)
    case TInteger(i) => VInt(i)
    case TLong(i) => VLong(i)
    case TFloat(f) => VFloat(f)
    case TString(s) => VStr(s)
    case TBoolean(b) => VBool(b)
    case _ => VNone
  }

  // Reading one member of the union; the grammar makes sure it is the one that was written.
  function Str(v: Val): string { if v.VStr? then v.s else "" }
  function Int(v: Val): int { if v.VInt? || v.VLong? then v.i else 0 }

  // ----- paths as text -----

  predicate DotFree(s: string) { '.' !in s }

  /** The names joined by dots. */
  function Join(names: seq<string>): string {
    if |names| == 0 then ""
    else if |names| == 1 then names[0]
    else Join(names[..|names|-1]) + "." + names[|names|-1]
  }

  /** The text before its last dot, or nothing if it has none. */
  function CutLast(s: string): string {
    if s == "" then "" else if s[|s|-1] == '.' then s[..|s|-1] else CutLast(s[..|s|-1])
  }

  lemma CutLastTail(a: string, b: string)
    requires DotFree(b)
    ensures CutLast(a + "." + b) == a
  {
    if b == "" {
      assert a + "." + b == a + ".";
    } else {
      var n := |b| - 1;
      assert (a + "." + b)[..|a + "." + b| - 1] == a + "." + b[..n];
      CutLastTail(a, b[..n]);
    }
  }

  lemma CutLastNone(b: string)
    requires DotFree(b)
    ensures CutLast(b) == ""
  {
  }

  ghost predicate Names(path: seq<string>) { forall k :: k in path ==> k != "" && DotFree(k) }

  lemma JoinNonEmpty(path: seq<string>)
    requires Names(path)
    ensures Join(path) == "" <==> path == []
  {
    if |path| == 1 {
      assert path[0] in path;
    }
  }

  lemma JoinSnoc(path: seq<string>, name: string)
    ensures Join(path + [name]) == if path == [] then name else Join(path) + "." + name
  {
    assert (path + [name])[..|path|] == path;
  }

  // ----- the path stack -----

  /** pushcurpath: the name goes on the stack and, after a dot unless it is the first, on the path. */
  function Push(sem: Sem, comp: string): Option<Sem> {
    if |sem.keys| >= MAX_KEY_DEPTH then None
    else if sem.curpath != "" && |sem.curpath| + 1 >= PATH_SIZE then None
    else if sem.curpath != "" && |sem.curpath| + 1 + |comp| >= PATH_SIZE then None
    else if sem.curpath == "" && |comp| >= PATH_SIZE then None
    else Some(sem.(keys := sem.keys + [comp], curpath := if sem.curpath != "" then sem.curpath + "." + comp else comp))
  }

  /** popcurpath: the path is cut at its last dot. */
  function Pop(sem: Sem): Option<Sem> {
    if |sem.keys| <= 0 then None
    else Some(sem.(keys := sem.keys[..|sem.keys|-1], curpath := CutLast(sem.curpath)))
  }

  // ----- the actions -----

  datatype Done = Done(val: Val, sem: Sem)

  function AddOf(path: string, v: Val): seq<Add> {
    match v
    case VStr(s) => [AddStr(path, s)]
    case VInt(i) => [AddInt(path, i)]
    case VLong(i) => [AddInt(path, i)]
    case VFloat(f) => [AddNum(path, f)]
    case VBool(b) => [AddBool(path, b)]
    case VNone => []
  }

  /** The addition of a value under a path; VNone is none that an entity or an array has. */
  function AddOne(path: string, v: Val): Add {
    match v
    case VStr(s) => AddStr(path, s)
    case VInt(i) => AddInt(path, i)
    case VLong(i) => AddInt(path, i)
    case VFloat(f) => AddNum(path, f)
    case VBool(b) => AddBool(path, b)
    case VNone => AddArray(path)
  }

  /** The array's elements from the i-th on, each under its index. */
  function ElemAdds(path: string, vals: seq<Val>, i: nat): seq<Add>
    decreases |vals| - i
  {
    if i >= |vals| then [] else AddOf(path + "." + Decimal(i), vals[i]) + ElemAdds(path, vals, i + 1)
  }

  /** An array's additions number its elements, and the i-th is that of the i-th element, under the path, a dot and
    * the decimal of i. */
  lemma {:induction false} ElemAddsAt(path: string, vals: seq<Val>, i: nat)
    requires i <= |vals| && VNone !in vals
    ensures |ElemAdds(path, vals, i)| == |vals| - i
    ensures forall j :: i <= j < |vals| ==>
      match vals[j]
      case VStr(s) => ElemAdds(path, vals, i)[j - i] == AddStr(path + "." + Decimal(j), s)
      case VInt(n) => ElemAdds(path, vals, i)[j - i] == AddInt(path + "." + Decimal(j), n)
      case VLong(n) => ElemAdds(path, vals, i)[j - i] == AddInt(path + "." + Decimal(j), n)
      case VFloat(f) => ElemAdds(path, vals, i)[j - i] == AddNum(path + "." + Decimal(j), f)
      case VBool(b) => ElemAdds(path, vals, i)[j - i] == AddBool(path + "." + Decimal(j), b)
      case VNone => false
  {
    hide Decimal, ElemAdds;
    ElemAddsOne(path, vals, i);
    forall j | i <= j < |vals| ensures vals[j] != VNone {
      assert vals[j] in vals;
    }
  }

  lemma {:induction false} ElemAddsOne(path: string, vals: seq<Val>, i: nat)
    requires i <= |vals| && VNone !in vals
    ensures |ElemAdds(path, vals, i)| == |vals| - i
    ensures forall j :: i <= j < |vals| ==> ElemAdds(path, vals, i)[j - i] == AddOne(path + "." + Decimal(j), vals[j])
    decreases |vals| - i
  {
    hide Decimal, ElemAdds, AddOne;
    FirstElem(path, vals, i);
    if i < |vals| {
      ElemAddsOne(path, vals, i + 1);
      var all, rest := ElemAdds(path, vals, i), ElemAdds(path, vals, i + 1);
      forall j | i <= j < |vals| ensures all[j - i] == AddOne(path + "." + Decimal(j), vals[j]) {
        if j > i {
          assert all[j - i] == rest[j - (i + 1)];
        }
      }
    }
  }

  lemma FirstElem(path: string, vals: seq<Val>, i: nat)
    requires i <= |vals| && VNone !in vals
    ensures i == |vals| ==> ElemAdds(path, vals, i) == []
    ensures i < |vals| ==>
      ElemAdds(path, vals, i) == [AddOne(path + "." + Decimal(i), vals[i])] + ElemAdds(path, vals, i + 1)
  {
    hide Decimal;
    assert i < |vals| ==> vals[i] in vals;
  }

  function PopTo(v: Val, sem: Sem, adds: seq<Add>): Option<Done> {
    match Pop(sem.(adds := sem.adds + adds))
    case None => None
    case Some(s) => Some(Done(v, s))
  }

  function PushTo(sem: Sem, name: string): Option<Done> {
    match Push(sem, name)
    case None => None
    case Some(s) => Some(Done(VStr(name), s))
  }

  /** CHECKARRAY and the store that follows it. */
  function Store(v: Val, sem: Sem, elem: Val): Option<Done> {
    if |sem.vals| >= MAXARRAY then None else Some(Done(v, sem.(vals := sem.vals + [elem])))
  }

  /** The action of rule r on the values of its right-hand side; None is yyerror. */
  function Act(r: int, args: seq<Val>, sem: Sem): Option<Done>
    requires 3 <= r <= 27 && |args| == |Rhs(r)|
  {
    match r
    case 3 => PopTo(args[0], sem, [])
    case 4 => PopTo(args[0], sem, [])
    case 9 => PopTo(args[0], sem, [AddStr(sem.curpath, Str(args[2]))])
    case 10 => PopTo(args[0], sem, [AddInt(sem.curpath, Int(args[2]))])
    case 11 => PopTo(args[0], sem, [AddInt(sem.curpath, Int(args[2]))])
    case 12 => PopTo(args[0], sem, [AddNum(sem.curpath, if args[2].VFloat? then args[2].f else 0.0)])
    case 13 => PopTo(args[0], sem, [AddBool(sem.curpath, args[2].VBool? && args[2].b)])
    case 15 => PushTo(sem, Str(args[0]))
    case 16 => PushTo(sem, Decimal(Int(args[0])))
    case 19 => PopTo(args[0], sem, [AddArray(sem.curpath)])
    case 20 => PopTo(args[0], sem.(vals := []), [AddArray(sem.curpath)] + ElemAdds(sem.curpath, sem.vals, 0))
    case 23 => Store(args[0], sem, VStr(Str(args[0])))
    case 24 => Store(args[0], sem, args[0])
    case 25 => Store(args[0], sem, args[0])
    case 26 => Store(args[0], sem, args[0])
    case 27 => Store(args[0], sem, args[0])
    case _ => Some(Done(args[0], sem))
  }

  datatype DoneAll = DoneAll(vals: seq<Val>, sem: Sem)

  /** Running the actions of a parse tree bottom up, left to right. */
  ghost function Effect(t: Tree, sem: Sem): Option<Done>
    requires Derives(t)
  {
    match t
    case Leaf(tok) => Some(Done(TokVal(tok), sem))
    case Node(r, kids) =>
      match EffectAll(kids, sem)
      case None => None
      case Some(d) => Act(r, d.vals, d.sem)
  }

  ghost function EffectAll(ts: seq<Tree>, sem: Sem): (o: Option<DoneAll>)
    requires forall k :: k in ts ==> Derives(k)
    ensures o.Some? ==> |o.value.vals| == |Syms(ts)|
  {
    if ts == [] then Some(DoneAll([], sem)) else
    match Effect(ts[0], sem)
    case None => None
    case Some(d) =>
      match EffectAll(ts[1..], d.sem)
      case None => None
      case Some(e) => Some(DoneAll([d.val] + e.vals, e.sem))
  }

  // ----- what the document means -----

  /** The name a name node gives. */
  ghost function NameOf(t: Tree): string
    requires Derives(t) && Sym(t) == NAME
  {
    var tok := t.kids[0].tok;
    if t.rule == 15 then tok.s else Decimal(tok.i)
  }

  /** The value of a single token, an svalue or an array member. */
  ghost function ValueOf(t: Tree): Val
    requires Derives(t)
  {
    if t.Leaf? then TokVal(t.tok) else assert |t.kids| > 0; ValueOf(t.kids[0])
  }

  /** The values of an array's elements, in order. */
  ghost function Elems(t: Tree): seq<Val>
    requires Derives(t) && Sym(t) == ARRAY_MEMBERS
  {
    if t.rule == 21 then [ValueOf(t.kids[0])] else Elems(t.kids[0]) + [ValueOf(t.kids[2])]
  }

  predicate Document(x: int) { BLOCK <= x <= ENTITY || x == ARRAY }

  /** The additions a document stands for, each leaf under the dotted join of the names around it. */
  ghost function Flatten(t: Tree, path: seq<string>): seq<Add>
    requires Derives(t) && Document(Sym(t))
  {
    var k := t.kids;
    match t.rule
    case 3 => []
    case 4 => Flatten(k[2], path + [NameOf(k[0])])
    case 6 => Flatten(k[0], path) + Flatten(k[1], path)
    case 19 => [AddArray(Join(path + [NameOf(k[0])]))]
    case 20 =>
      var p, vals := Join(path + [NameOf(k[0])]), Elems(k[3]);
      [AddArray(p)] + seq(|vals|, i requires 0 <= i < |vals| => AddOne(p + "." + Decimal(i), vals[i]))
    case r =>
      if 9 <= r <= 13 then [AddOne(Join(path + [NameOf(k[0])]), ValueOf(k[2]))] else Flatten(k[0], path)
  }

  predicate Room(path: seq<string>, name: string) {
    |path| < MAX_KEY_DEPTH && |Join(path + [name])| < PATH_SIZE
  }

  /** The document stays within the depth, path-length and array limits. */
  ghost predicate Fits(t: Tree, path: seq<string>)
    requires Derives(t) && Document(Sym(t))
  {
    var k := t.kids;
    match t.rule
    case 3 => Room(path, NameOf(k[0]))
    case 4 => Room(path, NameOf(k[0])) && Fits(k[2], path + [NameOf(k[0])])
    case 6 => Fits(k[0], path) && Fits(k[1], path)
    case 19 => Room(path, NameOf(k[0]))
    case 20 => Room(path, NameOf(k[0])) && |Elems(k[3])| <= MAXARRAY
    case r => if 9 <= r <= 13 then Room(path, NameOf(k[0])) else Fits(k[0], path)
  }

  /** What the lexer promises of a name: it is not empty and has no dot. */
  predicate CleanTok(t: Tok) { t.TToken? ==> t.s != "" && DotFree(t.s) }

  ghost predicate Clean(ts: seq<Tok>) { forall t :: t in ts ==> CleanTok(t) }
}
