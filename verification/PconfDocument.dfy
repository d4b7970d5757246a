/** The configuration language as its users see it: named blocks of named values, what they are written as, and that
  * reading what is written adds exactly the values, each under its own path. */
module PconfDocument {
  import opened Base
  import opened PconfGrammar
  import A = PconfActions
  import M = PconfMeaning
  import C = PconfCorrect
  import E = PconfEngine

  /** A block of items, a value or an array of values, under a name; names and values are single tokens. */
  datatype Item = Block(name: Tok, items: seq<Item>) | Pair(name: Tok, val: Tok) | Array(name: Tok, vals: seq<Tok>)

  predicate IsName(t: Tok) { t.TToken? || t.TInteger? }

  predicate IsValue(t: Tok) {
    t.TToken? || t.TString? || t.TInteger? || t.TLong? || t.TFloat? || t.TBoolean?
  }

  predicate Sound(x: Item) {
    && IsName(x.name)
    && match x
       case Block(_, items) => forall y :: y in items ==> Sound(y)
       case Pair(_, v) => IsValue(v)
       case Array(_, vals) => forall v :: v in vals ==> IsValue(v)
  }

  // ----- how it is written -----

  function Commas(vals: seq<Tok>): seq<Tok> {
    if vals == [] then [] else if |vals| == 1 then vals
    else Commas(vals[..|vals| - 1]) + [TComma, vals[|vals| - 1]]
  }

  function Written(x: Item): seq<Tok> {
    match x
    case Block(name, items) => [name, TOsb] + AllWritten(items) + [TCsb]
    case Pair(name, v) => [name, TEquals, v]
    case Array(name, vals) => [name, TEquals, TStartArray] + Commas(vals) + [TEndArray]
  }

  function AllWritten(items: seq<Item>): seq<Tok> {
    if items == [] then [] else AllWritten(items[..|items| - 1]) + Written(items[|items| - 1])
  }

  // ----- what it stands for -----

  function NameText(t: Tok): string {
    match t case TToken(s) => s case TInteger(i) => Decimal(i) case _ => ""
  }

  /** The call that adds a value under a path. */
  function AddTok(path: string, v: Tok): A.Add {
    match v
    case TToken(s) => A.AddStr(path, s)
    case TString(s) => A.AddStr(path, s)
    case TInteger(i) => A.AddInt(path, i)
    case TLong(i) => A.AddInt(path, i)
    case TFloat(f) => A.AddNum(path, f)
    case TBoolean(b) => A.AddBool(path, b)
    case _ => A.AddArray(path)
  }

  /** A name under the path of the block it is in. */
  function Dotted(path: string, name: string): string { if path == "" then name else path + "." + name }

  /** Each value under the names around it, and the elements of an array under 0, 1 and so on. */
  function Adds(x: Item, path: string): seq<A.Add> {
    var p := Dotted(path, NameText(x.name));
    match x
    case Block(_, items) => AllAdds(items, p)
    case Pair(_, v) => [AddTok(p, v)]
    case Array(_, vals) =>
      [A.AddArray(p)] + seq(|vals|, i requires 0 <= i < |vals| => AddTok(p + "." + Decimal(i), vals[i]))
  }

  function AllAdds(items: seq<Item>, path: string): seq<A.Add> {
    if items == [] then [] else AllAdds(items[..|items| - 1], path) + Adds(items[|items| - 1], path)
  }

  /** At most 64 names deep, 1023 characters of path and 2048 elements of an array. */
  predicate Within(x: Item, depth: nat, path: string) {
    var p := Dotted(path, NameText(x.name));
    && depth < 64 && |p| < 1024
    && match x
       case Block(_, items) => forall y :: y in items ==> Within(y, depth + 1, p)
       case Pair(_, _) => true
       case Array(_, vals) => |vals| <= 2048
  }

  // ----- its parse tree -----

  function NameTree(t: Tok): Tree { Node(if t.TToken? then 15 else 16, [Leaf(t)]) }

  function ElemTree(v: Tok): Tree {
    match v
    case TToken(_) => Node(23, [Node(17, [Leaf(v)])])
    case TString(_) => Node(23, [Node(18, [Leaf(v)])])
    case TInteger(_) => Node(24, [Leaf(v)])
    case TLong(_) => Node(25, [Leaf(v)])
    case TFloat(_) => Node(26, [Leaf(v)])
    case _ => Node(27, [Leaf(v)])
  }

  function ElemsTree(vals: seq<Tok>): Tree
    requires vals != []
  {
    var n := |vals| - 1;
    if n == 0 then Node(21, [ElemTree(vals[0])])
    else Node(22, [ElemsTree(vals[..n]), Leaf(TComma), ElemTree(vals[n])])
  }

  function PairTree(name: Tok, v: Tok): Tree {
    match v
    case TToken(_) => Node(9, [NameTree(name), Leaf(TEquals), Node(17, [Leaf(v)])])
    case TString(_) => Node(9, [NameTree(name), Leaf(TEquals), Node(18, [Leaf(v)])])
    case TInteger(_) => Node(10, [NameTree(name), Leaf(TEquals), Leaf(v)])
    case TLong(_) => Node(11, [NameTree(name), Leaf(TEquals), Leaf(v)])
    case TFloat(_) => Node(12, [NameTree(name), Leaf(TEquals), Leaf(v)])
    case _ => Node(13, [NameTree(name), Leaf(TEquals), Leaf(v)])
  }

  function ArrayTree(name: Tok, vals: seq<Tok>): Tree {
    if vals == [] then Node(19, [NameTree(name), Leaf(TEquals), Leaf(TStartArray), Leaf(TEndArray)])
    else Node(20, [NameTree(name), Leaf(TEquals), Leaf(TStartArray), ElemsTree(vals), Leaf(TEndArray)])
  }

  /** The tree of a block, an entity or an array. */
  function TreeOf(x: Item): Tree
    decreases x, 1
  {
    match x
    case Block(name, items) =>
      if items == [] then Node(3, [NameTree(name), Leaf(TOsb), Leaf(TCsb)])
      else Node(4, [NameTree(name), Leaf(TOsb), MembersTree(items), Leaf(TCsb)])
    case Pair(name, v) => PairTree(name, v)
    case Array(name, vals) => Node(14, [ArrayTree(name, vals)])
  }

  function MembersTree(items: seq<Item>): Tree
    requires items != []
    decreases items, 0
  {
    var n := |items| - 1;
    var last := Node(if items[n].Block? then 7 else 8, [TreeOf(items[n])]);
    if n == 0 then Node(5, [last]) else Node(6, [MembersTree(items[..n]), last])
  }

  lemma NodeDerives(r: int, kids: seq<Tree>)
    requires 3 <= r <= 27 && |kids| == |Rhs(r)| && forall i :: 0 <= i < |kids| ==> Sym(kids[i]) == Rhs(r)[i]
    requires forall i :: 0 <= i < |kids| ==> Derives(kids[i])
    ensures Derives(Node(r, kids))
  {
    hide Rhs;
    assert Syms(kids) == Rhs(r);
  }

  lemma Yields(kids: seq<Tree>)
    ensures |kids| == 1 ==> YieldAll(kids) == Yield(kids[0])
    ensures |kids| > 1 ==> YieldAll(kids) == Yield(kids[0]) + YieldAll(kids[1..])
  {
    hide Yield;
    if |kids| == 1 {
      assert YieldAll(kids[1..]) == [];
    }
  }

  lemma Yields2(a: Tree, b: Tree)
    ensures YieldAll([a, b]) == Yield(a) + Yield(b)
  {
    hide Yield;
    Yields([a, b]);
    Yields([b]);
  }

  lemma Yields3(a: Tree, b: Tree, c: Tree)
    ensures YieldAll([a, b, c]) == Yield(a) + Yield(b) + Yield(c)
  {
    hide Yield, YieldAll;
    Yields([a, b, c]);
    Yields2(b, c);
    assert [a, b, c][1..] == [b, c];
  }

  lemma Yields4(a: Tree, b: Tree, c: Tree, d: Tree)
    ensures YieldAll([a, b, c, d]) == Yield(a) + Yield(b) + Yield(c) + Yield(d)
  {
    hide Yield, YieldAll;
    Yields([a, b, c, d]);
    Yields3(b, c, d);
    assert [a, b, c, d][1..] == [b, c, d];
  }

  lemma Yields5(a: Tree, b: Tree, c: Tree, d: Tree, e: Tree)
    ensures YieldAll([a, b, c, d, e]) == Yield(a) + Yield(b) + Yield(c) + Yield(d) + Yield(e)
  {
    hide Yield, YieldAll;
    Yields([a, b, c, d, e]);
    Yields4(b, c, d, e);
    assert [a, b, c, d, e][1..] == [b, c, d, e];
  }

  /** A tree of this symbol and these tokens. */
  ghost predicate Is(t: Tree, sym: int, toks: seq<Tok>) { Derives(t) && Sym(t) == sym && Yield(t) == toks }

  lemma LeafIs(tok: Tok)
    ensures Is(Leaf(tok), Kind(tok), [tok])
  {
  }

  lemma UnitIs(r: int, t: Tree, sym: int, toks: seq<Tok>)
    requires Is(t, sym, toks) && 3 <= r <= 27 && Rhs(r) == [sym]
    ensures Is(Node(r, [t]), Lhs(r), toks)
  {
    hide Rhs, Lhs, Yield;
    NodeDerives(r, [t]);
    Yields([t]);
    YieldNode(r, [t]);
  }

  lemma YieldNode(r: int, kids: seq<Tree>)
    ensures Yield(Node(r, kids)) == YieldAll(kids) && Sym(Node(r, kids)) == Lhs(r)
  {
  }

  lemma Node2Is(r: int, a: Tree, b: Tree,
                sa: int, ta: seq<Tok>, sb: int, tb: seq<Tok>)
    requires 3 <= r <= 27 && Rhs(r) == [sa, sb]
    requires Is(a, sa, ta) && Is(b, sb, tb)
    ensures Is(Node(r, [a, b]), Lhs(r), ta + tb)
  {
    hide Rhs, Lhs, Yield, YieldAll;
    NodeDerives(r, [a, b]);
    Yields2(a, b);
    YieldNode(r, [a, b]);
  }

  lemma Node3Is(r: int, a: Tree, b: Tree, c: Tree,
                sa: int, ta: seq<Tok>, sb: int, tb: seq<Tok>, sc: int, tc: seq<Tok>)
    requires 3 <= r <= 27 && Rhs(r) == [sa, sb, sc]
    requires Is(a, sa, ta) && Is(b, sb, tb) && Is(c, sc, tc)
    ensures Is(Node(r, [a, b, c]), Lhs(r), ta + tb + tc)
  {
    hide Rhs, Lhs, Yield, YieldAll;
    NodeDerives(r, [a, b, c]);
    Yields3(a, b, c);
    YieldNode(r, [a, b, c]);
  }

  lemma Node4Is(r: int, a: Tree, b: Tree, c: Tree, d: Tree,
                sa: int, ta: seq<Tok>, sb: int, tb: seq<Tok>, sc: int, tc: seq<Tok>, sd: int, td: seq<Tok>)
    requires 3 <= r <= 27 && Rhs(r) == [sa, sb, sc, sd]
    requires Is(a, sa, ta) && Is(b, sb, tb) && Is(c, sc, tc) && Is(d, sd, td)
    ensures Is(Node(r, [a, b, c, d]), Lhs(r), ta + tb + tc + td)
  {
    hide Rhs, Lhs, Yield, YieldAll;
    NodeDerives(r, [a, b, c, d]);
    Yields4(a, b, c, d);
    YieldNode(r, [a, b, c, d]);
  }

  lemma Node5Is(r: int, a: Tree, b: Tree, c: Tree, d: Tree, e: Tree,
                sa: int, ta: seq<Tok>, sb: int, tb: seq<Tok>, sc: int, tc: seq<Tok>, sd: int, td: seq<Tok>,
                se: int, te: seq<Tok>)
    requires 3 <= r <= 27 && Rhs(r) == [sa, sb, sc, sd, se]
    requires Is(a, sa, ta) && Is(b, sb, tb) && Is(c, sc, tc) && Is(d, sd, td) && Is(e, se, te)
    ensures Is(Node(r, [a, b, c, d, e]), Lhs(r), ta + tb + tc + td + te)
  {
    hide Rhs, Lhs, Yield, YieldAll;
    NodeDerives(r, [a, b, c, d, e]);
    Yields5(a, b, c, d, e);
    YieldNode(r, [a, b, c, d, e]);
  }

  lemma NameIs(t: Tok)
    requires IsName(t)
    ensures Is(NameTree(t), NAME, [t]) && A.NameOf(NameTree(t)) == NameText(t)
  {
    LeafIs(t);
    UnitIs(if t.TToken? then 15 else 16, Leaf(t), Kind(t), [t]);
  }

  lemma ElemIs(v: Tok)
    requires IsValue(v)
    ensures Is(ElemTree(v), ARRAY_MEMBER, [v]) && A.ValueOf(ElemTree(v)) == A.TokVal(v)
  {
    LeafIs(v);
    if v.TToken? || v.TString? {
      var r := if v.TToken? then 17 else 18;
      UnitIs(r, Leaf(v), Kind(v), [v]);
      UnitIs(23, Node(r, [Leaf(v)]), SVALUE, [v]);
      assert A.ValueOf(Node(r, [Leaf(v)])) == A.ValueOf(Leaf(v));
    } else {
      UnitIs(if v.TInteger? then 24 else if v.TLong? then 25 else if v.TFloat? then 26 else 27, Leaf(v), Kind(v), [v]);
    }
  }

  lemma ValueAdds(path: string, v: Tok)
    requires IsValue(v)
    ensures A.AddOne(path, A.TokVal(v)) == AddTok(path, v)
  {
  }

  lemma {:induction false} ElemsAre(vals: seq<Tok>)
    requires vals != [] && forall v :: v in vals ==> IsValue(v)
    ensures Is(ElemsTree(vals), ARRAY_MEMBERS, Commas(vals)) && |A.Elems(ElemsTree(vals))| == |vals|
    ensures forall i :: 0 <= i < |vals| ==> A.Elems(ElemsTree(vals))[i] == A.TokVal(vals[i])
  {
    hide ElemTree, A.TokVal, IsValue, Yield, Is, A.Elems, Commas;
    var n := |vals| - 1;
    assert vals[n] in vals;
    ElemIs(vals[n]);
    if n == 0 {
      UnitIs(21, ElemTree(vals[0]), ARRAY_MEMBER, [vals[0]]);
      assert vals == [vals[0]];
      OneValue(vals[0]);
    } else {
      var before := vals[..n];
      MoreValues(before, vals[n]);
      assert vals == before + [vals[n]];
      forall v | v in before ensures IsValue(v) {
        assert v in vals;
      }
      ElemsAre(before);
      LeafIs(TComma);
      Node3Is(22, ElemsTree(before), Leaf(TComma), ElemTree(vals[n]),
              ARRAY_MEMBERS, Commas(before), COMMA, [TComma], ARRAY_MEMBER, [vals[n]]);
    }
    IsDerives(ElemsTree(vals), ARRAY_MEMBERS, Commas(vals));
    hide Derives;
    ElemsNode(ElemsTree(vals));
  }

  lemma ElemsNode(t: Tree)
    requires Derives(t) && t.Node? && (t.rule == 21 || t.rule == 22)
    ensures |t.kids| == t.rule * 2 - 41 && Derives(t.kids[0])
    ensures t.rule == 21 ==> A.Elems(t) == [A.ValueOf(t.kids[0])]
    ensures t.rule == 22 ==>
      && Sym(t.kids[0]) == ARRAY_MEMBERS && Derives(t.kids[2])
      && A.Elems(t) == A.Elems(t.kids[0]) + [A.ValueOf(t.kids[2])]
  {
    hide A.ValueOf;
    M.Children(t);
  }

  lemma IsDerives(t: Tree, sym: int, toks: seq<Tok>)
    requires Is(t, sym, toks)
    ensures Derives(t) && Sym(t) == sym
  {
  }

  lemma PairIs(name: Tok, v: Tok)
    requires IsName(name) && IsValue(v)
    ensures Is(PairTree(name, v), ENTITY, [name, TEquals, v])
  {
    hide Rhs, NameTree, PairTree, Is;
    NameIs(name);
    LeafIs(TEquals);
    PairNode(name, v);
    var t := PairTree(name, v);
    var s := Rhs(t.rule)[2];
    Node3Is(t.rule, NameTree(name), Leaf(TEquals), t.kids[2], NAME, [name], EQUALS, [TEquals], s, [v]);
    assert t == Node(t.rule, [NameTree(name), Leaf(TEquals), t.kids[2]]);
    assert [name] + [TEquals] + [v] == [name, TEquals, v];
  }

  lemma PairNode(name: Tok, v: Tok)
    requires IsValue(v)
    ensures var t := PairTree(name, v);
      && t.Node? && 9 <= t.rule <= 13 && t.kids == [NameTree(name), Leaf(TEquals), t.kids[2]] && Lhs(t.rule) == ENTITY
      && |Rhs(t.rule)| == 3 && Rhs(t.rule) == [NAME, EQUALS, Rhs(t.rule)[2]]
      && Is(t.kids[2], Rhs(t.rule)[2], [v]) && A.ValueOf(t.kids[2]) == A.TokVal(v)
  {
    hide NameTree;
    LeafIs(v);
    if v.TToken? || v.TString? {
      UnitIs(if v.TToken? then 17 else 18, Leaf(v), Kind(v), [v]);
    }
  }

  lemma ArrayIs(name: Tok, vals: seq<Tok>)
    requires IsName(name) && forall v :: v in vals ==> IsValue(v)
    ensures Is(ArrayTree(name, vals), ARRAY, [name, TEquals, TStartArray] + Commas(vals) + [TEndArray])
  {
    hide Is, NameTree, Commas, IsValue, ElemsTree;
    NameIs(name);
    LeafIs(TEquals);
    LeafIs(TStartArray);
    LeafIs(TEndArray);
    assert [name] + [TEquals] + [TStartArray] == [name, TEquals, TStartArray];
    if vals == [] {
      NoCommas();
      Node4Is(19, NameTree(name), Leaf(TEquals), Leaf(TStartArray), Leaf(TEndArray),
              NAME, [name], EQUALS, [TEquals], STARTARRAY, [TStartArray], ENDARRAY, [TEndArray]);
      assert [name, TEquals, TStartArray] + [] + [TEndArray] == [name, TEquals, TStartArray] + [TEndArray];
    } else {
      ElemsAre(vals);
      Node5Is(20, NameTree(name), Leaf(TEquals), Leaf(TStartArray), ElemsTree(vals), Leaf(TEndArray),
              NAME, [name], EQUALS, [TEquals], STARTARRAY, [TStartArray], ARRAY_MEMBERS, Commas(vals),
              ENDARRAY, [TEndArray]);
    }
  }

  lemma NoCommas()
    ensures Commas([]) == []
  {
  }

  /** The tree of an item is its parse tree. */
  lemma {:induction false} TreeIs(x: Item)
    requires Sound(x)
    ensures Is(TreeOf(x), if x.Block? then BLOCK else ENTITY, Written(x))
    decreases x, 1
  {
    hide Is, NameTree, PairTree, ArrayTree, MembersTree, AllWritten, Commas;
    match x
    case Block(name, items) =>
      NameIs(name);
      LeafIs(TOsb);
      LeafIs(TCsb);
      assert [name] + [TOsb] == [name, TOsb];
      if items == [] {
        NothingWritten();
        Node3Is(3, NameTree(name), Leaf(TOsb), Leaf(TCsb), NAME, [name], OSB, [TOsb], CSB, [TCsb]);
        assert [name, TOsb] + [] + [TCsb] == [name, TOsb] + [TCsb];
      } else {
        MembersAre(items);
        Node4Is(4, NameTree(name), Leaf(TOsb), MembersTree(items), Leaf(TCsb),
                NAME, [name], OSB, [TOsb], BLOCK_MEMBERS, AllWritten(items), CSB, [TCsb]);
      }
    case Pair(name, v) => PairIs(name, v);
    case Array(name, vals) =>
      ArrayIs(name, vals);
      UnitIs(14, ArrayTree(name, vals), ARRAY, Written(x));
  }

  lemma NothingWritten()
    ensures AllWritten([]) == []
  {
  }

  lemma {:induction false} MembersAre(items: seq<Item>)
    requires items != [] && forall y :: y in items ==> Sound(y)
    ensures Is(MembersTree(items), BLOCK_MEMBERS, AllWritten(items))
    decreases items, 0
  {
    hide Is, TreeOf, Sound, Written;
    var n := |items| - 1;
    var y := items[n];
    assert y in items;
    TreeIs(y);
    var r := if y.Block? then 7 else 8;
    var last := Node(r, [TreeOf(y)]);
    UnitIs(r, TreeOf(y), if y.Block? then BLOCK else ENTITY, Written(y));
    if n == 0 {
      UnitIs(5, last, BLOCK_MEMBER, Written(y));
      NothingWritten();
      assert items[..0] == [];
      assert [] + Written(y) == Written(y);
    } else {
      var before := items[..n];
      forall z | z in before ensures Sound(z) {
        assert z in items;
      }
      MembersAre(before);
      Node2Is(6, MembersTree(before), last, BLOCK_MEMBERS, AllWritten(before), BLOCK_MEMBER, Written(y));
    }
  }

  // ----- the tree's flattening is what the document stands for -----

  /** A document tree of these additions, which fits under the path iff fits. */
  ghost predicate Means(t: Tree, path: seq<string>, adds: seq<A.Add>, fits: bool) {
    Derives(t) && A.Document(Sym(t)) && A.Flatten(t, path) == adds && (A.Fits(t, path) <==> fits)
  }

  lemma PathText(path: seq<string>, name: string)
    requires A.Names(path) && M.GoodName(name)
    ensures A.Join(path + [name]) == Dotted(A.Join(path), name) && A.Names(path + [name])
  {
    A.JoinNonEmpty(path);
    A.JoinSnoc(path, name);
  }

  lemma GoodNames(name: Tok)
    requires IsName(name) && A.CleanTok(name)
    ensures M.GoodName(NameText(name))
  {
    hide Digits;
  }

  lemma CleanPart(a: seq<Tok>, b: seq<Tok>)
    requires A.Clean(a + b)
    ensures A.Clean(a) && A.Clean(b)
  {
    assert forall t :: t in a ==> t in a + b;
    assert forall t :: t in b ==> t in a + b;
  }

  lemma NameClean(x: Item)
    requires A.Clean(Written(x))
    ensures A.CleanTok(x.name)
  {
    assert Written(x)[0] == x.name;
  }

  lemma UnitMeans(r: int, t: Tree, path: seq<string>, adds: seq<A.Add>, fits: bool)
    requires Means(t, path, adds, fits) && Derives(Node(r, [t])) && (r == 5 || r == 7 || r == 8 || r == 14)
    ensures Means(Node(r, [t]), path, adds, fits)
  {
  }

  lemma PairMeans(name: Tok, v: Tok, path: seq<string>)
    requires IsName(name) && IsValue(v) && A.CleanTok(name) && A.Names(path)
    ensures var x := Pair(name, v);
      Means(PairTree(name, v), path, Adds(x, A.Join(path)), Within(x, |path|, A.Join(path)))
  {
    PairIs(name, v);
    PairNode(name, v);
    NameIs(name);
    GoodNames(name);
    PathText(path, NameText(name));
    ValueAdds(A.Join(path + [NameText(name)]), v);
    hide A.Join, NameTree, PairTree, Decimal, Rhs, Lhs, IsValue, IsName, Yield, A.TokVal, A.AddOne, AddTok;
    hide Dotted, NameText;
    EntityNode(PairTree(name, v), path);
  }

  lemma EntityNode(t: Tree, path: seq<string>)
    requires Derives(t) && t.Node? && 9 <= t.rule <= 13
    ensures |t.kids| == 3 && Derives(t.kids[0]) && Sym(t.kids[0]) == NAME && Derives(t.kids[2])
    ensures A.Flatten(t, path) == [A.AddOne(A.Join(path + [A.NameOf(t.kids[0])]), A.ValueOf(t.kids[2]))]
    ensures A.Fits(t, path) <==> |path| < 64 && |A.Join(path + [A.NameOf(t.kids[0])])| < 1024
  {
    hide A.Join, A.AddOne, A.ValueOf, A.NameOf;
    M.Children(t);
  }

  lemma ArrayMeans(name: Tok, vals: seq<Tok>, path: seq<string>)
    requires IsName(name) && (forall v :: v in vals ==> IsValue(v)) && A.CleanTok(name) && A.Names(path)
    ensures var x := Array(name, vals);
      Means(ArrayTree(name, vals), path, Adds(x, A.Join(path)), Within(x, |path|, A.Join(path)))
  {
    hide A.Join, NameTree, Decimal, ElemsTree, IsValue, NameText, Is, Dotted, A.Flatten, A.Fits, IsName;
    NameIs(name);
    GoodNames(name);
    PathText(path, NameText(name));
    ArrayFlat(name, vals, path);
    hide ArrayTree, Means;
    ArrayDerives(name, vals);
    var p := A.Join(path + [NameText(name)]);
    var adds := seq(|vals|, i requires 0 <= i < |vals| => AddTok(p + "." + Decimal(i), vals[i]));
    assert vals == [] ==> [A.AddArray(p)] + adds == [A.AddArray(p)];
    assert Adds(Array(name, vals), A.Join(path)) == [A.AddArray(p)] + adds;
    ItMeans(ArrayTree(name, vals), path);
  }

  lemma ItMeans(t: Tree, path: seq<string>)
    requires Derives(t) && Sym(t) == ARRAY
    ensures Means(t, path, A.Flatten(t, path), A.Fits(t, path))
  {
  }

  lemma ArrayDerives(name: Tok, vals: seq<Tok>)
    requires IsName(name) && forall v :: v in vals ==> IsValue(v)
    ensures Derives(ArrayTree(name, vals)) && Sym(ArrayTree(name, vals)) == ARRAY
  {
    hide ArrayTree, IsValue, IsName;
    ArrayIs(name, vals);
  }

  lemma ArrayFlat(name: Tok, vals: seq<Tok>, path: seq<string>)
    requires IsName(name) && forall v :: v in vals ==> IsValue(v)
    ensures Derives(ArrayTree(name, vals)) && Sym(ArrayTree(name, vals)) == ARRAY
    ensures var t, p := ArrayTree(name, vals), A.Join(path + [NameText(name)]);
      && A.Flatten(t, path)
          == [A.AddArray(p)] + seq(|vals|, i requires 0 <= i < |vals| => AddTok(p + "." + Decimal(i), vals[i]))
      && (A.Fits(t, path) <==> |path| < 64 && |p| < 1024 && |vals| <= 2048)
  {
    hide A.Join, NameTree, Decimal, ElemsTree, IsValue, AddTok, NameText, A.Elems, A.TokVal, A.AddOne, IsName;
    hide A.Flatten, A.Fits, Derives, A.NameOf;
    ArrayDerives(name, vals);
    NameIs(name);
    var t, p := ArrayTree(name, vals), A.Join(path + [NameText(name)]);
    ArrayNode(t, path);
    if vals == [] {
      assert seq(|vals|, i requires 0 <= i < |vals| => AddTok(p + "." + Decimal(i), vals[i])) == [];
    } else {
      ElemsAre(vals);
      ElemsAdd(vals, A.Elems(t.kids[3]), p);
    }
  }

  lemma ArrayNode(t: Tree, path: seq<string>)
    requires Derives(t) && t.Node? && (t.rule == 19 || t.rule == 20)
    ensures |t.kids| == t.rule - 15 && Derives(t.kids[0]) && Sym(t.kids[0]) == NAME
    ensures t.rule == 20 ==> Derives(t.kids[3]) && Sym(t.kids[3]) == ARRAY_MEMBERS
    ensures var p := A.Join(path + [A.NameOf(t.kids[0])]);
      && (t.rule == 19 ==>
            A.Flatten(t, path) == [A.AddArray(p)] && (A.Fits(t, path) <==> |path| < 64 && |p| < 1024))
      && (t.rule == 20 ==>
            var vals := A.Elems(t.kids[3]);
            && A.Flatten(t, path)
                == [A.AddArray(p)] + seq(|vals|, i requires 0 <= i < |vals| => A.AddOne(p + "." + Decimal(i), vals[i]))
            && (A.Fits(t, path) <==> |path| < 64 && |p| < 1024 && |vals| <= 2048))
  {
    hide A.Join, A.AddOne, A.NameOf, A.Elems, Decimal;
    M.Children(t);
  }

  lemma ElemsAdd(toks: seq<Tok>, vals: seq<A.Val>, p: string)
    requires |vals| == |toks| && forall i :: 0 <= i < |toks| ==> IsValue(toks[i]) && vals[i] == A.TokVal(toks[i])
    ensures seq(|vals|, i requires 0 <= i < |vals| => A.AddOne(p + "." + Decimal(i), vals[i]))
         == seq(|toks|, i requires 0 <= i < |toks| => AddTok(p + "." + Decimal(i), toks[i]))
  {
    hide Decimal, A.AddOne, AddTok, A.TokVal, IsValue;
    forall i | 0 <= i < |toks|
      ensures A.AddOne(p + "." + Decimal(i), vals[i]) == AddTok(p + "." + Decimal(i), toks[i])
    {
      ValueAdds(p + "." + Decimal(i), toks[i]);
    }
  }

  lemma {:induction false} ItemMeans(x: Item, path: seq<string>)
    requires Sound(x) && A.Clean(Written(x)) && A.Names(path)
    ensures Means(TreeOf(x), path, Adds(x, A.Join(path)), Within(x, |path|, A.Join(path)))
    decreases x, 1
  {
    hide A.Join, NameTree, PairTree, ArrayTree, MembersTree, AllWritten, Commas, Dotted, AllAdds, Means, Yield, A.Clean;
    NameClean(x);
    match x
    case Block(name, items) =>
      if items == [] {
        EmptyMeans(name, path);
      } else {
        CleanPart([name, TOsb] + AllWritten(items), [TCsb]);
        CleanPart([name, TOsb], AllWritten(items));
        GoodNames(name);
        PathText(path, NameText(name));
        MembersMean(items, path + [NameText(name)]);
        BlockMeans(name, items, path);
      }
    case Pair(name, v) => PairMeans(name, v, path);
    case Array(name, vals) =>
      TreeIs(x);
      ArrayMeans(name, vals, path);
      UnitMeans(14, ArrayTree(name, vals), path, Adds(x, A.Join(path)), Within(x, |path|, A.Join(path)));
  }

  lemma EmptyMeans(name: Tok, path: seq<string>)
    requires IsName(name) && A.CleanTok(name) && A.Names(path)
    ensures var x := Block(name, []); Means(TreeOf(x), path, Adds(x, A.Join(path)), Within(x, |path|, A.Join(path)))
  {
    hide A.Join, NameTree, Dotted, AllAdds, Yield;
    NameIs(name);
    GoodNames(name);
    PathText(path, NameText(name));
    TreeIs(Block(name, []));
    NothingAdded(A.Join(path + [NameText(name)]));
  }

  lemma BlockMeans(name: Tok, items: seq<Item>, path: seq<string>)
    requires Sound(Block(name, items)) && items != [] && A.CleanTok(name) && A.Names(path)
    requires var p := A.Join(path + [NameText(name)]);
      Means(MembersTree(items), path + [NameText(name)], AllAdds(items, p),
            forall y :: y in items ==> Within(y, |path| + 1, p))
    ensures var x := Block(name, items); Means(TreeOf(x), path, Adds(x, A.Join(path)), Within(x, |path|, A.Join(path)))
  {
    hide A.Join, NameTree, MembersTree, Dotted, AllAdds, Yield, NameText, IsName;
    NameIs(name);
    GoodNames(name);
    PathText(path, NameText(name));
    TreeIs(Block(name, items));
    hide A.Flatten, A.Fits, Sound;
    BlockNode(TreeOf(Block(name, items)), path);
  }

  lemma BlockNode(t: Tree, path: seq<string>)
    requires Derives(t) && t.Node? && t.rule == 4
    ensures |t.kids| == 4 && Derives(t.kids[0]) && Sym(t.kids[0]) == NAME
    ensures Derives(t.kids[2]) && Sym(t.kids[2]) == BLOCK_MEMBERS
    ensures var inner := path + [A.NameOf(t.kids[0])];
      && A.Flatten(t, path) == A.Flatten(t.kids[2], inner)
      && (A.Fits(t, path) <==> |path| < 64 && |A.Join(inner)| < 1024 && A.Fits(t.kids[2], inner))
  {
    hide A.Join, A.NameOf;
    M.Children(t);
  }

  lemma NothingAdded(path: string)
    ensures AllAdds([], path) == []
  {
  }

  lemma {:induction false} MembersMean(items: seq<Item>, path: seq<string>)
    requires items != [] && (forall y :: y in items ==> Sound(y)) && A.Clean(AllWritten(items)) && A.Names(path)
    ensures Means(MembersTree(items), path, AllAdds(items, A.Join(path)),
                  forall y :: y in items ==> Within(y, |path|, A.Join(path)))
    decreases items, 0
  {
    hide A.Join, TreeOf, Sound, Written, Within, Adds, Means, Yield, Is;
    var n := |items| - 1;
    var y := items[n];
    assert y in items;
    CleanPart(AllWritten(items[..n]), Written(y));
    ItemMeans(y, path);
    MemberIs(y);
    var r := if y.Block? then 7 else 8;
    var last := Node(r, [TreeOf(y)]);
    UnitMeans(r, TreeOf(y), path, Adds(y, A.Join(path)), Within(y, |path|, A.Join(path)));
    MembersAre(items);
    Derived(items);
    if n == 0 {
      UnitMeans(5, last, path, Adds(y, A.Join(path)), Within(y, |path|, A.Join(path)));
      NothingAdded(A.Join(path));
      assert items == [y] && items[..0] == [];
      assert [] + Adds(y, A.Join(path)) == Adds(y, A.Join(path));
    } else {
      var before := items[..n];
      assert items == before + [y];
      forall z | z in before ensures Sound(z) {
        assert z in items;
      }
      MembersMean(before, path);
      var fit := forall z :: z in before ==> Within(z, |path|, A.Join(path));
      TwoMean(MembersTree(before), last, path, AllAdds(before, A.Join(path)), Adds(y, A.Join(path)), fit,
              Within(y, |path|, A.Join(path)));
    }
  }

  lemma MemberIs(y: Item)
    requires Sound(y)
    ensures Derives(Node(if y.Block? then 7 else 8, [TreeOf(y)]))
  {
    hide TreeOf, Written, Sound;
    TreeIs(y);
    UnitIs(if y.Block? then 7 else 8, TreeOf(y), if y.Block? then BLOCK else ENTITY, Written(y));
  }

  lemma Derived(items: seq<Item>)
    requires items != [] && Is(MembersTree(items), BLOCK_MEMBERS, AllWritten(items))
    ensures Derives(MembersTree(items))
  {
  }

  lemma TwoMean(a: Tree, b: Tree, path: seq<string>, adds: seq<A.Add>, more: seq<A.Add>, fits: bool, fit: bool)
    requires Means(a, path, adds, fits) && Means(b, path, more, fit) && Derives(Node(6, [a, b]))
    ensures Means(Node(6, [a, b]), path, adds + more, fits && fit)
  {
  }

  // ----- reading -----

  /** What is written as a block of this language, with anything behind it, is read as exactly the values in it, each
    * under its own path, if it keeps to the limits; and if it does not, an action fails. */
  lemma BlockRead(x: Item, rest: seq<Tok>)
    requires x.Block? && Sound(x) && A.Clean(Written(x) + rest)
    ensures C.Parsed(Written(x) + rest) ==
      if Within(x, 0, "") then E.Accepted(A.CLEAN.(adds := Adds(x, ""))) else E.ActionError
  {
    hide Sound, Written, Within, Adds, TreeOf, C.Parsed, A.Flatten, A.Fits;
    TreeIs(x);
    CleanPart(Written(x), rest);
    ItemMeans(x, []);
    StartPath();
    assert C.StartsWith(Written(x) + rest, TreeOf(x));
    C.DocumentParsed(Written(x) + rest, TreeOf(x));
  }

  lemma StartPath()
    ensures A.Join([]) == "" && A.Names([])
  {
  }

  // ----- and nothing else is accepted -----

  lemma LeafKid(t: Tree, i: nat)
    requires Derives(t) && t.Node? && i < |t.kids| && Rhs(t.rule)[i] < 16
    ensures |Rhs(t.rule)| == |t.kids| && t.kids[i].Leaf? && Kind(t.kids[i].tok) == Rhs(t.rule)[i]
    ensures Yield(t.kids[i]) == [t.kids[i].tok]
  {
    hide Rhs;
    M.Children(t);
    M.Terminal(t.kids[i]);
  }

  lemma NameTok(t: Tree) returns (name: Tok)
    requires Derives(t) && Sym(t) == NAME
    ensures IsName(name) && Yield(t) == [name]
  {
    M.Children(t);
    LeafKid(t, 0);
    name := t.kids[0].tok;
    Yields(t.kids);
  }

  lemma ValueTok(t: Tree) returns (v: Tok)
    requires Derives(t) && (Sym(t) == SVALUE || (t.Leaf? && INTEGER <= Sym(t) <= BOOLEAN && Sym(t) != STRING))
    ensures IsValue(v) && Yield(t) == [v]
  {
    if t.Leaf? {
      v := t.tok;
    } else {
      M.Children(t);
      LeafKid(t, 0);
      v := t.kids[0].tok;
      Yields(t.kids);
    }
  }

  lemma ElemTok(t: Tree) returns (v: Tok)
    requires Derives(t) && Sym(t) == ARRAY_MEMBER
    ensures IsValue(v) && Yield(t) == [v]
  {
    M.Children(t);
    if t.rule != 23 {
      LeafKid(t, 0);
    }
    v := ValueTok(t.kids[0]);
    Yields(t.kids);
  }

  lemma {:induction false} ElemsToks(t: Tree) returns (vals: seq<Tok>)
    requires Derives(t) && Sym(t) == ARRAY_MEMBERS
    ensures vals != [] && (forall v :: v in vals ==> IsValue(v)) && Yield(t) == Commas(vals)
  {
    M.Children(t);
    hide IsValue, Yield, YieldAll, Derives, Commas;
    var k := t.kids;
    YieldNode(t.rule, k);
    if t.rule == 21 {
      var v := ElemTok(k[0]);
      vals := [v];
      Yields(k);
      OneValue(v);
    } else {
      var before := ElemsToks(k[0]);
      var v := ElemTok(k[2]);
      MarkKid(t, 1, TComma);
      Yields3(k[0], k[1], k[2]);
      assert k == [k[0], k[1], k[2]];
      vals := before + [v];
      MoreValues(before, v);
    }
  }

  lemma OneValue(v: Tok)
    ensures Commas([v]) == [v]
  {
  }

  lemma MoreValues(vals: seq<Tok>, v: Tok)
    requires vals != []
    ensures Commas(vals + [v]) == Commas(vals) + [TComma] + [v]
  {
    assert (vals + [v])[..|vals|] == vals;
    assert Commas(vals) + [TComma] + [v] == Commas(vals) + [TComma, v];
  }

  lemma PairItem(t: Tree) returns (x: Item)
    requires Derives(t) && t.Node? && 9 <= t.rule <= 13
    ensures !x.Block? && Sound(x) && Written(x) == Yield(t)
  {
    M.Children(t);
    var name := NameTok(t.kids[0]);
    LeafKid(t, 1);
    if t.rule != 9 {
      LeafKid(t, 2);
    }
    var v := ValueTok(t.kids[2]);
    Yields3(t.kids[0], t.kids[1], t.kids[2]);
    assert t.kids == [t.kids[0], t.kids[1], t.kids[2]];
    x := Pair(name, v);
  }

  /** A child that is a mark is that mark. */
  lemma MarkKid(t: Tree, i: nat, mark: Tok)
    requires Derives(t) && t.Node? && i < |t.kids| && Rhs(t.rule)[i] == Kind(mark)
    requires !IsValue(mark)
    ensures Yield(t.kids[i]) == [mark]
  {
    hide Rhs, Derives, Yield;
    LeafKid(t, i);
  }

  lemma ArrayItem(t: Tree) returns (x: Item)
    requires Derives(t) && Sym(t) == ARRAY
    ensures !x.Block? && Sound(x) && Written(x) == Yield(t)
  {
    hide Derives;
    M.Children(t);
    if t.rule == 19 {
      x := EmptyItem(t);
    } else {
      x := FullItem(t);
    }
  }

  lemma EmptyItem(t: Tree) returns (x: Item)
    requires Derives(t) && t.Node? && t.rule == 19
    ensures !x.Block? && Sound(x) && Written(x) == Yield(t)
  {
    M.Children(t);
    hide Yield, YieldAll, Derives;
    var k := t.kids;
    var name := NameTok(k[0]);
    MarkKid(t, 1, TEquals);
    MarkKid(t, 2, TStartArray);
    MarkKid(t, 3, TEndArray);
    hide Rhs;
    YieldNode(t.rule, k);
    Yields4(k[0], k[1], k[2], k[3]);
    assert k == [k[0], k[1], k[2], k[3]];
    NoCommas();
    x := Array(name, []);
    assert [name] + [TEquals] + [TStartArray] + [TEndArray] == [name, TEquals, TStartArray] + [] + [TEndArray];
  }

  lemma FullItem(t: Tree) returns (x: Item)
    requires Derives(t) && t.Node? && t.rule == 20
    ensures !x.Block? && Sound(x) && Written(x) == Yield(t)
  {
    M.Children(t);
    hide Yield, YieldAll, Derives, Commas;
    var k := t.kids;
    var name := NameTok(k[0]);
    MarkKid(t, 1, TEquals);
    MarkKid(t, 2, TStartArray);
    MarkKid(t, 4, TEndArray);
    var vals := ElemsToks(k[3]);
    hide Rhs;
    YieldNode(t.rule, k);
    Yields5(k[0], k[1], k[2], k[3], k[4]);
    assert k == [k[0], k[1], k[2], k[3], k[4]];
    x := Array(name, vals);
    assert [name] + [TEquals] + [TStartArray] == [name, TEquals, TStartArray];
  }

  /** Every parse tree of a block is what some block is written as. */
  lemma {:induction false} BlockItem(t: Tree) returns (x: Item)
    requires Derives(t) && Sym(t) == BLOCK
    ensures x.Block? && Sound(x) && Written(x) == Yield(t)
    decreases t
  {
    M.Children(t);
    hide Yield, YieldAll, Derives, Written, AllWritten, Sound;
    var k := t.kids;
    var name := NameTok(k[0]);
    MarkKid(t, 1, TOsb);
    MarkKid(t, |k| - 1, TCsb);
    YieldNode(t.rule, k);
    if t.rule == 3 {
      Yields3(k[0], k[1], k[2]);
      assert k == [k[0], k[1], k[2]];
      NothingWritten();
      x := Block(name, []);
      BlockWritten(name, []);
      assert [name] + [TOsb] + [TCsb] == [name, TOsb] + [] + [TCsb];
    } else {
      var items := MembersItems(k[2]);
      Yields4(k[0], k[1], k[2], k[3]);
      assert k == [k[0], k[1], k[2], k[3]];
      x := Block(name, items);
      BlockWritten(name, items);
      assert [name] + [TOsb] == [name, TOsb];
    }
  }

  lemma BlockWritten(name: Tok, items: seq<Item>)
    ensures Written(Block(name, items)) == [name, TOsb] + AllWritten(items) + [TCsb]
    ensures IsName(name) && (forall y :: y in items ==> Sound(y)) ==> Sound(Block(name, items))
  {
    hide AllWritten;
  }

  lemma {:induction false} MembersItems(t: Tree) returns (items: seq<Item>)
    requires Derives(t) && Sym(t) == BLOCK_MEMBERS
    ensures items != [] && (forall y :: y in items ==> Sound(y)) && AllWritten(items) == Yield(t)
    decreases t
  {
    hide Yield, YieldAll, Sound, Written;
    M.Children(t);
    YieldNode(t.rule, t.kids);
    if t.rule == 5 {
      var y := MemberItem(t.kids[0]);
      Yields(t.kids);
      items := [y];
      NothingWritten();
      assert items[..0] == [] && [] + Written(y) == Written(y);
    } else {
      var before := MembersItems(t.kids[0]);
      var y := MemberItem(t.kids[1]);
      Yields2(t.kids[0], t.kids[1]);
      assert t.kids == [t.kids[0], t.kids[1]];
      items := before + [y];
      assert items[..|items| - 1] == before;
    }
  }

  lemma {:induction false} MemberItem(t: Tree) returns (x: Item)
    requires Derives(t) && Sym(t) == BLOCK_MEMBER
    ensures Sound(x) && Written(x) == Yield(t)
    decreases t
  {
    hide Yield, YieldAll, Sound, Written;
    M.Children(t);
    var u := t.kids[0];
    Yields(t.kids);
    YieldNode(t.rule, t.kids);
    if t.rule == 7 {
      x := BlockItem(u);
    } else {
      M.Children(u);
      if u.rule == 14 {
        Yields(u.kids);
        YieldNode(14, u.kids);
        x := ArrayItem(u.kids[0]);
      } else {
        x := PairItem(u);
      }
    }
  }

  /** A stream is accepted exactly if it starts with what a block within the limits is written as. */
  lemma ReadExactly(toks: seq<Tok>)
    requires A.Clean(toks)
    ensures C.Parsed(toks).Accepted? <==>
      exists x: Item :: x.Block? && Sound(x) && Written(x) <= toks && Within(x, 0, "")
  {
    hide Sound, Written, Within, Adds, C.Parsed, A.Fits, A.Clean, C.StartsWith;
    if C.Parsed(toks).Accepted? {
      var x := AcceptedItem(toks);
      PrefixRead(x, toks);
    }
    if x: Item :| x.Block? && Sound(x) && Written(x) <= toks && Within(x, 0, "") {
      PrefixRead(x, toks);
    }
  }

  lemma AcceptedItem(toks: seq<Tok>) returns (x: Item)
    requires A.Clean(toks) && C.Parsed(toks).Accepted?
    ensures x.Block? && Sound(x) && Written(x) <= toks
  {
    hide Sound, Written, C.Parsed, A.Fits, A.Clean, Yield, Derives;
    C.AcceptsExactly(toks);
    var b :| C.StartsWith(toks, b) && A.Fits(b, []);
    x := BlockItem(b);
  }

  lemma PrefixRead(x: Item, toks: seq<Tok>)
    requires A.Clean(toks) && x.Block? && Sound(x) && Written(x) <= toks
    ensures C.Parsed(toks) == if Within(x, 0, "") then E.Accepted(A.CLEAN.(adds := Adds(x, ""))) else E.ActionError
  {
    hide Sound, Written, Within, Adds, C.Parsed, A.Clean;
    assert toks == Written(x) + toks[|Written(x)|..];
    BlockRead(x, toks[|Written(x)|..]);
  }
}
