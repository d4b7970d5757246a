/** What the tokens of a text are, whatever the text: each stands for what it says it does, with its place among the
  * others, and nothing that matters is left out. */
module JsmnTokens {
  import opened Jsmn
  import opened JsonText
  import T = JsmnTree

  // ----- one token -----

  predicate Separates(c: char) { c == ',' || c == ']' || c == '}' || c == '\t' || c == '\r' || c == '\n' || c == ' ' }

  /** The text up to pos has the token: an object or an array from its opening bracket to its closing one, if that has
    * been seen; a string between its quotes; a primitive up to the separator behind it. */
  predicate Shown(js: string, t: JTok, pos: nat)
    requires pos <= |js|
  {
    match t.typ
    case OBJECT => Bracketed(js, t, pos, '{', '}')
    case ARRAY => Bracketed(js, t, pos, '[', ']')
    case STRING =>
      0 < t.start <= t.end < pos && js[t.start - 1] == '"' && js[t.end] == '"' && Quotable(js[t.start..t.end])
    case PRIMITIVE =>
      && 0 <= t.start < t.end <= pos && t.end < |js| && Separates(js[t.end])
      && (js[t.start] == '-' || '0' <= js[t.start] <= '9' || js[t.start] in "tfn")
      && forall i :: t.start <= i < t.end ==> ' ' < js[i] <= '~' && !Separates(js[i])
  }

  predicate Bracketed(js: string, t: JTok, pos: nat, open: char, close: char)
    requires pos <= |js|
  {
    && 0 <= t.start < pos && js[t.start] == open
    && (t.end == -1 || (t.start + 1 < t.end <= pos && js[t.end - 1] == close))
  }

  // ----- the tokens -----

  /** How many tokens belong to token i. */
  function Children(ts: seq<JTok>, i: int): nat {
    if ts == [] then 0 else Children(ts[..|ts| - 1], i) + if ts[|ts| - 1].parent == i then 1 else 0
  }

  /** Every token belongs to an earlier one or to none, counts its own, and starts behind those before it. */
  ghost predicate Linked(ts: seq<JTok>) {
    && (forall i :: 0 <= i < |ts| ==> -1 <= ts[i].parent < i && ts[i].size == Children(ts, i))
    && (forall i, j :: 0 <= i < j < |ts| ==> ts[i].start < ts[j].start)
  }

  /** The character at q belongs to a token, or is one that belongs to none. */
  ghost predicate Covered(js: string, ts: seq<JTok>, q: nat)
    requires q < |js|
  {
    js[q] == ':' || Separates(js[q]) || exists i :: 0 <= i < |ts| && Covers(ts[i], q)
  }

  predicate Covers(t: JTok, q: nat) {
    match t.typ
    case OBJECT => q == t.start
    case ARRAY => q == t.start
    case STRING => t.start - 1 <= q <= t.end
    case PRIMITIVE => t.start <= q < t.end
  }

  /** A primitive is an element of an array or the first value behind a key, never a key itself. */
  ghost predicate Valued(ts: seq<JTok>) {
    forall i :: 0 <= i < |ts| && ts[i].typ == PRIMITIVE ==> ValueAt(ts, i)
  }

  ghost predicate ValueAt(ts: seq<JTok>, i: int)
    requires 0 <= i < |ts|
  {
    var p := ts[i].parent;
    && 0 <= p < i && ts[p].typ != OBJECT
    && (ts[p].typ == STRING ==> forall k :: 0 <= k < i ==> ts[k].parent != p)
  }

  /** What has been made of the text up to pos. */
  ghost predicate Read(js: string, st: St, pos: nat) {
    && pos <= |js| && -1 <= st.super < |st.toks| && Linked(st.toks) && Valued(st.toks)
    && (forall i :: 0 <= i < |st.toks| ==> Shown(js, st.toks[i], pos) && st.toks[i].start < pos)
    && (forall q :: 0 <= q < pos ==> js[q] != '\0' && Covered(js, st.toks, q))
  }

  lemma {:induction false} SameChildren(ts: seq<JTok>, us: seq<JTok>, i: int)
    requires |ts| == |us| && forall k :: 0 <= k < |ts| ==> us[k].parent == ts[k].parent
    ensures Children(us, i) == Children(ts, i)
  {
    if ts != [] {
      SameChildren(ts[..|ts| - 1], us[..|us| - 1], i);
    }
  }

  /** Nobody belongs to a token that is still to come. */
  lemma {:induction false} NoChildren(ts: seq<JTok>, i: int)
    requires forall k :: 0 <= k < |ts| ==> ts[k].parent < i
    ensures Children(ts, i) == 0
  {
    if ts != [] {
      NoChildren(ts[..|ts| - 1], i);
    }
  }

  lemma AddLinked(st: St, t: JTok)
    requires Linked(st.toks) && -1 <= st.super < |st.toks| && t.parent == st.super && t.size == 0
    requires forall i :: 0 <= i < |st.toks| ==> st.toks[i].start < t.start
    ensures Linked(Add(st, t))
  {
    var ts, us := Bump(st.toks, st.super), Add(st, t);
    assert us[..|us| - 1] == ts;
    forall i | 0 <= i < |us| ensures us[i].size == Children(us, i) {
      SameChildren(st.toks, ts, i);
      if i == |ts| {
        NoChildren(st.toks, i);
      }
    }
  }

  lemma {:induction false} SomeChildren(ts: seq<JTok>, k: nat)
    requires k < |ts|
    ensures Children(ts, ts[k].parent) > 0
  {
    if k < |ts| - 1 {
      SomeChildren(ts[..|ts| - 1], k);
    }
  }

  /** May the token be added here? */
  predicate Takes(st: St, t: JTok) {
    t.typ == PRIMITIVE ==>
      && 0 <= st.super < |st.toks| && st.toks[st.super].typ != OBJECT
      && (st.toks[st.super].typ == STRING ==> st.toks[st.super].size == 0)
  }

  lemma AddValued(st: St, t: JTok)
    requires Linked(st.toks) && Valued(st.toks) && -1 <= st.super < |st.toks| && t.parent == st.super && Takes(st, t)
    ensures Valued(Add(st, t))
  {
    var us := Add(st, t);
    forall i | 0 <= i < |us| && us[i].typ == PRIMITIVE ensures ValueAt(us, i) {
      if i < |st.toks| {
        assert ValueAt(st.toks, i);
      } else if st.toks[st.super].typ == STRING {
        forall k | 0 <= k < i ensures us[k].parent != st.super {
          SomeChildren(st.toks, k);
        }
      }
    }
  }

  lemma SameValued(ts: seq<JTok>, us: seq<JTok>)
    requires Valued(ts) && |ts| == |us|
    requires forall k :: 0 <= k < |ts| ==> us[k].parent == ts[k].parent && us[k].typ == ts[k].typ
    ensures Valued(us)
  {
    forall i | 0 <= i < |us| && us[i].typ == PRIMITIVE ensures ValueAt(us, i) {
      assert ValueAt(ts, i);
    }
  }

  lemma MoreShown(js: string, t: JTok, pos: nat, pos': nat)
    requires pos <= pos' <= |js| && Shown(js, t, pos)
    ensures Shown(js, t, pos')
  {
    hide Quotable;
  }

  /** A token that takes the text from pos to pos'. */
  lemma AddRead(js: string, st: St, pos: nat, t: JTok, super: int, pos': nat)
    requires Read(js, st, pos) && pos < pos' <= |js| && t.parent == st.super && t.size == 0 && pos <= t.start < pos'
    requires Shown(js, t, pos') && (forall q :: pos <= q < pos' ==> Covers(t, q)) && -1 <= super <= |st.toks|
    requires Takes(st, t) && forall q :: pos <= q < pos' ==> js[q] != '\0'
    ensures Read(js, St(Add(st, t), super), pos')
  {
    hide Shown, Linked, Children, Covers, Valued, Takes;
    var us := Add(st, t);
    AddLinked(st, t);
    AddValued(st, t);
    forall i | 0 <= i < |us| ensures Shown(js, us[i], pos') && us[i].start < pos' {
      if i < |st.toks| {
        MoreShown(js, st.toks[i], pos, pos');
        SizeApart(js, st.toks[i], us[i], pos');
      }
    }
    forall q | 0 <= q < pos' ensures Covered(js, us, q) {
      if q < pos {
        StaysCovered(js, st.toks, us, q);
      } else {
        assert Covers(us[|st.toks|], q);
      }
    }
  }

  lemma SizeApart(js: string, t: JTok, u: JTok, pos: nat)
    requires pos <= |js| && Shown(js, t, pos) && u == t.(size := u.size)
    ensures Shown(js, u, pos)
  {
    hide Quotable;
  }

  /** Changing sizes and closing brackets uncovers nothing. */
  lemma StaysCovered(js: string, ts: seq<JTok>, us: seq<JTok>, q: nat)
    requires q < |js| && Covered(js, ts, q) && |ts| <= |us|
    requires forall i :: 0 <= i < |ts| ==> us[i] == ts[i].(size := us[i].size, end := us[i].end)
    requires forall i :: 0 <= i < |ts| && us[i].end != ts[i].end ==> ts[i].typ == OBJECT || ts[i].typ == ARRAY
    ensures Covered(js, us, q)
  {
    if i :| 0 <= i < |ts| && Covers(ts[i], q) {
      assert Covers(us[i], q);
    }
  }

  // ----- one step -----

  lemma SkipRead(js: string, st: St, pos: nat, super: int)
    requires Read(js, st, pos) && pos < |js| && (js[pos] == ':' || Separates(js[pos])) && -1 <= super < |st.toks|
    ensures Read(js, st.(super := super), pos + 1)
  {
    hide Shown, Linked, Covers, Valued;
    forall i | 0 <= i < |st.toks| ensures Shown(js, st.toks[i], pos + 1) {
      MoreShown(js, st.toks[i], pos, pos + 1);
    }
  }

  lemma OpenRead(js: string, st: St, pos: nat, max: nat, typ: JType)
    requires Read(js, st, pos) && pos < |js|
    requires (typ == OBJECT && js[pos] == '{') || (typ == ARRAY && js[pos] == '[')
    ensures var r := StepOpen(st, pos, max, typ); r.Go? ==> Read(js, r.st, r.pos)
  {
    hide Read, Add;
    AddRead(js, st, pos, JTok(typ, pos, -1, 0, st.super), |st.toks|, pos + 1);
  }

  lemma CloseRead(js: string, st: St, pos: nat, typ: JType)
    requires Read(js, st, pos) && pos < |js|
    requires (typ == OBJECT && js[pos] == '}') || (typ == ARRAY && js[pos] == ']')
    ensures var r := StepClose(st, pos, typ); r.Go? ==> Read(js, r.st, r.pos)
  {
    hide Shown, Linked, Children, Innermost, Covers, Valued;
    var i := Innermost(st.toks, |st.toks| - 1);
    var r := StepClose(st, pos, typ);
    SkipRead(js, st, pos, st.super);
    if r.Go? && i != -1 {
      var t, us := st.toks[i].(end := pos + 1), r.st.toks;
      CloseShown(js, st.toks[i], pos);
      CloseLinked(st.toks, i, pos + 1);
      SameValued(st.toks, us);
      forall q | 0 <= q <= pos ensures Covered(js, us, q) {
        StaysCovered(js, st.toks, us, q);
      }
    }
  }

  lemma CloseShown(js: string, t: JTok, pos: nat)
    requires pos < |js| && Shown(js, t, pos) && Open(t)
    requires (t.typ == OBJECT && js[pos] == '}') || (t.typ == ARRAY && js[pos] == ']')
    ensures Shown(js, t.(end := pos + 1), pos + 1)
  {
  }

  lemma CloseLinked(ts: seq<JTok>, i: nat, end: int)
    requires Linked(ts) && i < |ts|
    ensures Linked(ts[i := ts[i].(end := end)]) && -1 <= ts[i].parent < |ts|
  {
    var us := ts[i := ts[i].(end := end)];
    forall k | 0 <= k < |us| ensures us[k].size == Children(us, k) {
      SameChildren(ts, us, k);
    }
  }

  lemma StringRead(js: string, st: St, pos: nat, max: nat)
    requires Read(js, st, pos) && pos < |js| && js[pos] == '"'
    ensures var r := StepString(js, st, pos, max); r.Go? ==> Read(js, r.st, r.pos)
  {
    hide Read, Add, StringEnd;
    var r, e := StepString(js, st, pos, max), StringEnd(js, pos + 1);
    if r.Go? {
      ReadSuper(js, st, pos);
      T.EndQuotable(js, pos + 1);
      StringChars(js, pos + 1);
      hide Quotable;
      AddRead(js, st, pos, JTok(STRING, pos + 1, e.at, 0, st.super), st.super, e.at + 1);
    }
  }

  lemma {:induction false} StringChars(js: string, pos: nat)
    ensures var r := StringEnd(js, pos); r.End? ==> forall i :: pos <= i < r.at ==> js[i] != '\0'
    decreases |js| - pos
  {
    var r := StringEnd(js, pos);
    if r.End? && r.at > pos {
      var n := if js[pos] != '\\' then 1 else if js[pos + 1] == 'u' then 6 else 2;
      T.EndStep(js, pos, n);
      StringChars(js, pos + n);
      if n == 6 {
        var x := js[pos + 2..pos + 6];
        assert js[pos + 2] == x[0] && js[pos + 3] == x[1] && js[pos + 4] == x[2] && js[pos + 5] == x[3];
      }
    }
  }

  lemma ReadSuper(js: string, st: St, pos: nat)
    requires Read(js, st, pos)
    ensures -1 <= st.super < |st.toks|
  {
  }

  lemma {:induction false} PrimitiveChars(js: string, pos: nat)
    ensures var r := PrimitiveEnd(js, pos);
      r.End? ==> Separates(js[r.at]) && forall i :: pos <= i < r.at ==> ' ' < js[i] <= '~' && !Separates(js[i])
    decreases |js| - pos
  {
    if pos < |js| && !EndsPrimitive(js[pos]) {
      PrimitiveChars(js, pos + 1);
    }
  }

  lemma PrimitiveRead(js: string, st: St, pos: nat, max: nat)
    requires Read(js, st, pos) && pos < |js| && StartsPrimitive(js[pos])
    ensures var r := StepPrimitive(js, st, pos, max); r.Go? ==> Read(js, r.st, r.pos)
  {
    hide Read, Add, PrimitiveEnd;
    var r, e := StepPrimitive(js, st, pos, max), PrimitiveEnd(js, pos);
    if r.Go? {
      ReadSuper(js, st, pos);
      PrimitiveChars(js, pos);
      AddRead(js, st, pos, JTok(PRIMITIVE, pos, e.at, 0, st.super), st.super, e.at);
    }
  }

  lemma StepRead(js: string, st: St, pos: nat, max: nat)
    requires Read(js, st, pos) && More(js, pos)
    ensures var r := Step(js, st, pos, max); r.Go? ==> Read(js, r.st, r.pos)
  {
    hide Read, StepOpen, StepClose, StepString, StepPrimitive;
    ReadSuper(js, st, pos);
    var c := js[pos];
    if c == '{' {
      OpenRead(js, st, pos, max, OBJECT);
    } else if c == '[' {
      OpenRead(js, st, pos, max, ARRAY);
    } else if c == '}' {
      CloseRead(js, st, pos, OBJECT);
    } else if c == ']' {
      CloseRead(js, st, pos, ARRAY);
    } else if c == '"' {
      StringRead(js, st, pos, max);
    } else if StartsPrimitive(c) {
      PrimitiveRead(js, st, pos, max);
    } else if c == ':' {
      SkipRead(js, st, pos, |st.toks| - 1);
    } else if c == ',' || IsSpace(c) {
      SkipRead(js, st, pos, st.super);
      if c == ',' && 0 <= st.super {
        ParentIn(js, st, pos);
        SkipRead(js, st, pos, st.toks[st.super].parent);
      }
    }
  }

  lemma ParentIn(js: string, st: St, pos: nat)
    requires Read(js, st, pos) && 0 <= st.super
    ensures -1 <= st.toks[st.super].parent < |st.toks|
  {
  }

  // ----- the whole text -----

  lemma {:induction false} RunReads(js: string, st: St, pos: nat, max: nat)
    requires Read(js, st, pos)
    ensures var r := Run(js, st, pos, max);
      r.Tokens? ==> exists st', end: nat :: end <= |js| && !More(js, end) && Read(js, st', end) && st'.toks == r.toks
    decreases |js| - pos
  {
    hide Step, Read;
    if More(js, pos) {
      StepRead(js, st, pos, max);
      var r := Step(js, st, pos, max);
      if r.Go? {
        RunReads(js, r.st, r.pos, max);
      }
    } else {
      InText(js, st, pos);
    }
  }

  lemma InText(js: string, st: St, pos: nat)
    requires Read(js, st, pos)
    ensures pos <= |js|
  {
  }

  lemma NothingRead(js: string)
    ensures Read(js, St([], -1), 0)
  {
  }

  /** The text ends at its end or its first NUL, and every character of it is covered. */
  ghost predicate AllCovered(js: string, ts: seq<JTok>, end: nat) {
    && end <= |js| && (end < |js| ==> js[end] == '\0')
    && forall q :: 0 <= q < end ==> js[q] != '\0' && Covered(js, ts, q)
  }

  /** Whatever text is accepted, every token is closed and is what its place in the text shows, it counts the tokens
    * that belong to it, a primitive is never a key, and between the tokens there is nothing but colons, commas, white
    * space and closing brackets, up to the end of the text or its first NUL. */
  lemma AcceptedTokens(js: string, max: nat)
    ensures match Tokenize(js, max)
      case Tokens(ts) =>
        && Linked(ts) && Valued(ts) && |ts| <= max
        && (forall i :: 0 <= i < |ts| ==> Shown(js, ts[i], |js|) && ts[i].end != -1)
        && exists end: nat :: AllCovered(js, ts, end)
      case _ => true
  {
    hide Linked, Shown, Covered, Valued;
    var r := Tokenize(js, max);
    if r.Tokens? {
      NothingRead(js);
      RunReads(js, St([], -1), 0, max);
      var st', end: nat :| end <= |js| && !More(js, end) && Read(js, st', end) && st'.toks == r.toks;
      assert AllCovered(js, r.toks, end);
      RunCloses(js, St([], -1), 0, max);
      RunFits(js, St([], -1), 0, max);
      forall i | 0 <= i < |r.toks| ensures Shown(js, r.toks[i], |js|) && r.toks[i].end != -1 {
        MoreShown(js, r.toks[i], end, |js|);
        assert !Open(r.toks[i]);
        Starts(js, r.toks[i], end);
      }
    }
  }

  lemma {:induction false} RunFits(js: string, st: St, pos: nat, max: nat)
    requires |st.toks| <= max
    ensures var r := Run(js, st, pos, max); r.Tokens? ==> |r.toks| <= max
    decreases |js| - pos
  {
    hide Innermost, StringEnd, PrimitiveEnd, Finish;
    if More(js, pos) {
      StepFits(js, st, pos, max);
      hide Step;
      var r := Step(js, st, pos, max);
      if r.Go? {
        RunFits(js, r.st, r.pos, max);
      }
    } else {
      assert Finish(st).Tokens? ==> Finish(st).toks == st.toks by { hide *; Finished(st); }
    }
  }

  lemma Finished(st: St)
    ensures Finish(st).Tokens? ==> Finish(st).toks == st.toks
  {
  }

  lemma StepFits(js: string, st: St, pos: nat, max: nat)
    requires More(js, pos) && |st.toks| <= max
    ensures var r := Step(js, st, pos, max); r.Go? ==> |r.st.toks| <= max
  {
    hide Innermost, StringEnd, PrimitiveEnd;
  }

  lemma Starts(js: string, t: JTok, pos: nat)
    requires pos <= |js| && Shown(js, t, pos)
    ensures t.start >= 0
  {
  }

  lemma {:induction false} RunCloses(js: string, st: St, pos: nat, max: nat)
    ensures var r := Run(js, st, pos, max); r.Tokens? ==> forall i :: 0 <= i < |r.toks| ==> !Open(r.toks[i])
    decreases |js| - pos
  {
    hide Step;
    if More(js, pos) {
      var r := Step(js, st, pos, max);
      if r.Go? {
        RunCloses(js, r.st, r.pos, max);
      }
    }
  }
}
