/** The JSON tokenizer: one pass over the text that fills an array of tokens, each with the range of text it
  * covers, the number of its children and a link to its parent. */
module Jsmn {
  import opened JsonText

  const NOMEM := -1
  const INVAL := -2
  const PART := -3

  type Code = c: int | NOMEM >= c >= PART witness NOMEM

  /** C reads in front of the token array: what happens then is not defined. */
  const UNDEFINED := -100

  datatype JType = PRIMITIVE | OBJECT | ARRAY | STRING

  datatype JTok = JTok(typ: JType, start: int, end: int, size: int, parent: int)

  predicate Open(t: JTok) { t.start != -1 && t.end == -1 }

  /** The tokens so far, and the one that the next one belongs to. */
  datatype St = St(toks: seq<JTok>, super: int)

  datatype Result = Tokens(toks: seq<JTok>) | Refused(code: Code) | Undefined

  predicate More(js: string, pos: nat) { pos < |js| && js[pos] != '\0' }

  predicate IsSpace(c: char) { c == '\t' || c == '\r' || c == '\n' || c == ' ' }
  predicate EndsPrimitive(c: char) { IsSpace(c) || c == ',' || c == ']' || c == '}' }
  predicate StartsPrimitive(c: char) { c == '-' || '0' <= c <= '9' || c == 't' || c == 'f' || c == 'n' }

  // ----- where strings and primitives end -----

  datatype Ended = End(at: nat) | Fails(code: Code)

  function PrimitiveEnd(js: string, pos: nat): (r: Ended)
    ensures r.End? ==> pos <= r.at < |js| && EndsPrimitive(js[r.at])
    decreases |js| - pos
  {
    if !More(js, pos) then Fails(PART)
    else if EndsPrimitive(js[pos]) then End(pos)
    else if js[pos] as int < 32 || js[pos] as int >= 127 then Fails(INVAL)
    else PrimitiveEnd(js, pos + 1)
  }

  /** At most n hex digits, up to the end of the text. */
  function HexEnd(js: string, pos: nat, n: nat): (r: Ended)
    ensures r.End? && pos <= |js| ==> pos <= r.at <= |js|
    decreases n
  {
    if n == 0 || !More(js, pos) then End(pos) else if !IsHex(js[pos]) then Fails(INVAL) else HexEnd(js, pos + 1, n - 1)
  }

  /** From behind the opening quote, or from behind a character, to the closing quote. */
  function StringEnd(js: string, pos: nat): (r: Ended)
    ensures r.End? ==> pos <= r.at < |js| && js[r.at] == '"'
    decreases |js| - pos
  {
    if !More(js, pos) then Fails(PART)
    else if js[pos] == '"' then End(pos)
    else if js[pos] == '\\' && pos + 1 < |js| then
      if js[pos + 1] == 'u' then
        match HexEnd(js, pos + 2, 4)
        case Fails(code) => Fails(code)
        case End(at) => StringEnd(js, at)
      else if IsSimple(js[pos + 1]) then StringEnd(js, pos + 2)
      else Fails(INVAL)
    else StringEnd(js, pos + 1)
  }

  // ----- one character or token at a time -----

  datatype Stepped = Go(st: St, pos: nat) | Stop(r: Result)

  /** One more child. */
  function Bump(toks: seq<JTok>, i: int): (r: seq<JTok>)
    ensures |r| == |toks|
  {
    if 0 <= i < |toks| then toks[i := toks[i].(size := toks[i].size + 1)] else toks
  }

  function Add(st: St, t: JTok): seq<JTok> { Bump(st.toks, st.super) + [t] }

  /** The innermost open token among the i-th and its ancestors. */
  function Innermost(toks: seq<JTok>, i: int): (r: int)
    ensures -1 <= r && (r != -1 ==> r < |toks| && r <= i && Open(toks[r]))
    decreases i
  {
    if !(0 <= i < |toks|) then -1
    else if Open(toks[i]) then i
    else if toks[i].parent >= i then -1
    else Innermost(toks, toks[i].parent)
  }

  function StepOpen(st: St, pos: nat, max: nat, typ: JType): Stepped {
    if |st.toks| >= max then Stop(Refused(NOMEM))
    else Go(St(Add(st, JTok(typ, pos, -1, 0, st.super)), |st.toks|), pos + 1)
  }

  function StepClose(st: St, pos: nat, typ: JType): Stepped {
    var i := Innermost(st.toks, |st.toks| - 1);
    if st.toks == [] then Stop(Refused(INVAL))
    else if i == -1 then Go(st, pos + 1)
    else if st.toks[i].typ != typ then Stop(Refused(INVAL))
    else Go(St(st.toks[i := st.toks[i].(end := pos + 1)], st.toks[i].parent), pos + 1)
  }

  function StepString(js: string, st: St, pos: nat, max: nat): Stepped {
    match StringEnd(js, pos + 1)
    case Fails(code) => Stop(Refused(code))
    case End(at) =>
      if |st.toks| >= max then Stop(Refused(NOMEM))
      else Go(St(Add(st, JTok(STRING, pos + 1, at, 0, st.super)), st.super), at + 1)
  }

  function StepComma(st: St, pos: nat): Stepped {
    if !(0 <= st.super < |st.toks|) then Stop(Undefined)
    else
      var t := st.toks[st.super];
      Go(if t.typ == ARRAY || t.typ == OBJECT then st else st.(super := t.parent), pos + 1)
  }

  /** A primitive must not be a key, nor a second value. */
  function StepPrimitive(js: string, st: St, pos: nat, max: nat): Stepped {
    if !(0 <= st.super < |st.toks|) then Stop(Undefined)
    else if st.toks[st.super].typ == OBJECT || (st.toks[st.super].typ == STRING && st.toks[st.super].size != 0) then
      Stop(Refused(INVAL))
    else
      match PrimitiveEnd(js, pos)
      case Fails(code) => Stop(Refused(code))
      case End(at) =>
        if |st.toks| >= max then Stop(Refused(NOMEM))
        else Go(St(Add(st, JTok(PRIMITIVE, pos, at, 0, st.super)), st.super), at)
  }

  function Step(js: string, st: St, pos: nat, max: nat): (r: Stepped)
    requires More(js, pos)
    ensures if r.Go? then pos < r.pos <= |js| else !r.r.Tokens?
  {
    var c := js[pos];
    if c == '{' then StepOpen(st, pos, max, OBJECT)
    else if c == '[' then StepOpen(st, pos, max, ARRAY)
    else if c == '}' then StepClose(st, pos, OBJECT)
    else if c == ']' then StepClose(st, pos, ARRAY)
    else if c == '"' then StepString(js, st, pos, max)
    else if IsSpace(c) then Go(st, pos + 1)
    else if c == ':' then Go(st.(super := |st.toks| - 1), pos + 1)
    else if c == ',' then StepComma(st, pos)
    else if StartsPrimitive(c) then StepPrimitive(js, st, pos, max)
    else Stop(Refused(INVAL))
  }

  /** Nothing may be left open. */
  function Finish(st: St): Result {
    if exists i :: 0 <= i < |st.toks| && Open(st.toks[i]) then Refused(PART) else Tokens(st.toks)
  }

  /** pjsmn_parse from pos on, with room for max tokens. */
  function Run(js: string, st: St, pos: nat, max: nat): Result
    decreases |js| - pos
  {
    if !More(js, pos) then Finish(st)
    else
      match Step(js, st, pos, max)
      case Stop(r) => r
      case Go(st', pos') => Run(js, st', pos', max)
  }

  function Tokenize(js: string, max: nat): Result { Run(js, St([], -1), 0, max) }

  // ----- in place -----

  class Tokenizer {
    const js: string
    const tokens: array<JTok>
    var pos: nat
    var toknext: nat
    var toksuper: int

    ghost predicate Valid()
      reads this, tokens
    {
      && toknext <= tokens.Length && -1 <= toksuper < toknext
      && forall i :: 0 <= i < toknext ==> -1 <= tokens[i].parent < i
    }

    ghost function State(): St
      reads this, tokens
      requires toknext <= tokens.Length
    {
      St(tokens[..toknext], toksuper)
    }

    /** pjsmn_init. */
    constructor (js: string, tokens: array<JTok>)
      ensures this.js == js && this.tokens == tokens && Valid() && State() == St([], -1) && pos == 0
    {
      this.js, this.tokens, pos, toknext, toksuper := js, tokens, 0, 0, -1;
    }

    /** jsmn_alloc_token and jsmn_fill_token, the link to the parent, and the parent's count, which the callers
      * raise: a token that belongs to toksuper. */
    method AddToken(typ: JType, start: nat, end: int) returns (ok: bool)
      requires Valid()
      modifies this`toknext, tokens
      ensures ok == (old(toknext) < tokens.Length) && toknext == old(toknext) + if ok then 1 else 0
      ensures ok ==> Valid() && State() == St(Add(old(State()), JTok(typ, start, end, 0, toksuper)), toksuper)
      ensures !ok ==> Valid() && State() == old(State())
    {
      if toknext >= tokens.Length {
        return false;
      }
      tokens[toknext] := JTok(typ, start, end, 0, toksuper);
      toknext := toknext + 1;
      if toksuper != -1 {
        tokens[toksuper] := tokens[toksuper].(size := tokens[toksuper].size + 1);
      }
      assert tokens[..toknext] == Add(old(State()), JTok(typ, start, end, 0, toksuper));
      return true;
    }

    /** jsmn_parse_primitive: pos goes to the last character of the primitive, or stays. */
    method ParsePrimitive() returns (r: int)
      requires Valid() && More(js, pos) && StartsPrimitive(js[pos])
      modifies this`pos, this`toknext, tokens
      ensures match PrimitiveEnd(js, old(pos))
              case Fails(code) => r == code && pos == old(pos)
              case End(at) =>
                if old(toknext) >= tokens.Length then r == NOMEM && pos == old(pos)
                else (
                  r == 0 && toknext == old(toknext) + 1 && pos + 1 == at && Valid() &&
                  State() == St(Add(old(State()), JTok(PRIMITIVE, old(pos), at, 0, toksuper)), toksuper))
    {
      var start := pos;
      while More(js, pos) && !EndsPrimitive(js[pos])
        invariant start <= pos <= |js| && PrimitiveEnd(js, pos) == PrimitiveEnd(js, start)
        invariant pos == start ==> !EndsPrimitive(js[pos])
        invariant Valid() && toknext == old(toknext) && State() == old(State())
        decreases |js| - pos
      {
        if js[pos] as int < 32 || js[pos] as int >= 127 {
          pos := start;
          return INVAL;
        }
        pos := pos + 1;
      }
      if !More(js, pos) {
        pos := start;
        return PART;
      }
      var ok := AddToken(PRIMITIVE, start, pos);
      if !ok {
        pos := start;
        return NOMEM;
      }
      pos := pos - 1;
      return 0;
    }

    /** The hex digits behind \u: pos goes to the last one. */
    method SkipHex() returns (ok: bool)
      requires pos < |js| && js[pos] == 'u'
      modifies this`pos
      ensures match HexEnd(js, old(pos) + 1, 4) case Fails(_) => !ok case End(at) => ok && pos + 1 == at
    {
      pos := pos + 1;
      var i := 0;
      while i < 4 && More(js, pos)
        invariant i <= 4 && pos == old(pos) + 1 + i <= |js| && HexEnd(js, pos, 4 - i) == HexEnd(js, old(pos) + 1, 4)
      {
        if !IsHex(js[pos]) {
          return false;
        }
        i, pos := i + 1, pos + 1;
      }
      pos := pos - 1;
      return true;
    }

    /** jsmn_parse_string: pos goes to the closing quote, or stays. */
    method ParseString() returns (r: int)
      requires Valid() && More(js, pos) && js[pos] == '"'
      modifies this`pos, this`toknext, tokens
      ensures match StringEnd(js, old(pos) + 1)
              case Fails(code) => r == code && pos == old(pos)
              case End(at) =>
                if old(toknext) >= tokens.Length then r == NOMEM && pos == old(pos)
                else (
                  r == 0 && toknext == old(toknext) + 1 && pos == at && Valid() &&
                  State() == St(Add(old(State()), JTok(STRING, old(pos) + 1, at, 0, toksuper)), toksuper))
    {
      var start := pos;
      pos := pos + 1;
      while More(js, pos)
        invariant start < pos && StringEnd(js, pos) == StringEnd(js, start + 1)
        invariant Valid() && toknext == old(toknext) && State() == old(State())
        decreases |js| - pos
      {
        var c := js[pos];
        if c == '"' {
          var ok := AddToken(STRING, start + 1, pos);
          if !ok {
            pos := start;
            return NOMEM;
          }
          return 0;
        }
        if c == '\\' && pos + 1 < |js| {
          pos := pos + 1;
          if js[pos] == 'u' {
            var ok := SkipHex();
            if !ok {
              pos := start;
              return INVAL;
            }
          } else if !IsSimple(js[pos]) {
            pos := start;
            return INVAL;
          }
        }
        pos := pos + 1;
      }
      pos := start;
      return PART;
    }

    /** The loop over the ancestors at a closing bracket. */
    method CloseToken(typ: JType) returns (ok: bool)
      requires Valid()
      modifies this`toksuper, tokens
      ensures match StepClose(old(State()), pos, typ)
              case Stop(_) => !ok
              case Go(st, _) => ok && Valid() && State() == st
    {
      if toknext < 1 {
        return false;
      }
      var i := toknext - 1;
      while true
        invariant 0 <= i < toknext && Innermost(tokens[..toknext], i) == Innermost(tokens[..toknext], toknext - 1)
        decreases i
      {
        if Open(tokens[i]) {
          if tokens[i].typ != typ {
            return false;
          }
          tokens[i] := tokens[i].(end := pos + 1);
          toksuper := tokens[i].parent;
          assert tokens[..toknext] == old(tokens[..toknext])[i := tokens[i]];
          return true;
        }
        if tokens[i].parent == -1 {
          return true;
        }
        i := tokens[i].parent;
      }
      assert false;
    }

    /** A primitive, which must not be a key nor a second value. */
    method NextPrimitive() returns (r: int)
      requires Valid() && More(js, pos) && StartsPrimitive(js[pos])
      modifies this`pos, this`toknext, tokens
      ensures match StepPrimitive(js, old(State()), old(pos), tokens.Length)
              case Stop(Refused(code)) => r == code && r < 0
              case Stop(_) => r == UNDEFINED
              case Go(st, at) => r == 0 && Valid() && State() == st && pos + 1 == at
      ensures r == 0 ==> toknext == old(toknext) + 1
    {
      hide PrimitiveEnd;
      if toksuper == -1 {
        return UNDEFINED;
      }
      var t := tokens[toksuper];
      if t.typ == OBJECT || (t.typ == STRING && t.size != 0) {
        return INVAL;
      }
      r := ParsePrimitive();
    }

    /** The switch of the main loop; the loop itself moves on by one character.  count is what is added. */
    method Next() returns (r: int, count: nat)
      requires Valid() && More(js, pos)
      modifies this, tokens
      ensures match Step(js, old(State()), old(pos), tokens.Length)
              case Stop(Refused(code)) => r == code && r < 0
              case Stop(_) => r == UNDEFINED
              case Go(st, at) => r == 0 && Valid() && State() == st && pos + 1 == at
      ensures r == 0 ==> toknext == old(toknext) + count
    {
      hide StringEnd, PrimitiveEnd, Innermost;
      var c := js[pos];
      r, count := 0, 0;
      if c == '{' || c == '[' {
        var ok := AddToken(if c == '{' then OBJECT else ARRAY, pos, -1);
        if !ok {
          return NOMEM, 0;
        }
        toksuper, count := toknext - 1, 1;
      } else if c == '}' || c == ']' {
        var ok := CloseToken(if c == '}' then OBJECT else ARRAY);
        return if ok then 0 else INVAL, 0;
      } else if c == '"' {
        r := ParseString();
        count := if r < 0 then 0 else 1;
      } else if IsSpace(c) {
      } else if c == ':' {
        toksuper := toknext - 1;
      } else if c == ',' {
        if toksuper == -1 {
          return UNDEFINED, 0;
        }
        if tokens[toksuper].typ != ARRAY && tokens[toksuper].typ != OBJECT {
          toksuper := tokens[toksuper].parent;
        }
      } else if StartsPrimitive(c) {
        r := NextPrimitive();
        count := if r < 0 then 0 else 1;
      } else {
        return INVAL, 0;
      }
    }

    /** pjsmn_parse, on a parser that pjsmn_init has set up: the number of tokens, or an error. */
    method Parse() returns (res: int)
      requires Valid() && State() == St([], -1) && pos == 0
      modifies this, tokens
      ensures match Tokenize(js, tokens.Length)
              case Tokens(toks) => Valid() && res == |toks| == toknext && tokens[..toknext] == toks
              case Refused(code) => res == code < 0
              case Undefined => res == UNDEFINED
    {
      hide Step;
      var count := 0;
      while More(js, pos)
        invariant Valid() && count == toknext
        invariant Run(js, State(), pos, tokens.Length) == Tokenize(js, tokens.Length)
        decreases |js| - pos
      {
        var r, n := Next();
        if r < 0 {
          return r;
        }
        count, pos := count + n, pos + 1;
      }
      var i := toknext - 1;
      while i >= 0
        invariant -1 <= i < toknext && forall k :: i < k < toknext ==> !Open(tokens[k])
      {
        if Open(tokens[i]) {
          assert Open(State().toks[i]);
          return PART;
        }
        i := i - 1;
      }
      return count;
    }
  }
}
