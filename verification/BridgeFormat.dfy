/** The printf-like packet constructor: what a format string and its arguments build. */
module BridgeFormat {
  import opened Base
  import opened Bridge

  const OK := 0
  const INVALIDARG := 0x15
  const TOO_BIG := 0x36
  const NAME_MAX := 64

  /** The loop that reads a number adds the digit's character before it subtracts '0', so that an int
    * overflows from here on. */
  const NUMBER_MAX := TWO_31 - 48

  /** One argument of the call, as va_arg takes it. */
  datatype Arg = AInt(i: int) | AReal(r: real) | AStr(s: string) | APtr | AInts(v: seq<int>) | AReals(rs: seq<real>)

  // ----- reading the format -----

  datatype Name = End | TooLong | Named(name: string, at: nat)

  /** The text up to the next %, without commas and equals signs. */
  function ReadName(fmt: string, i: nat, name: string): (r: Name)
    ensures r.Named? ==> i < r.at <= |fmt|
    decreases |fmt| - i
  {
    var ch := CharAt(fmt, i);
    if ch == '\0' then End
    else if ch == '%' then Named(name, i + 1)
    else if ch == ',' || ch == '=' then ReadName(fmt, i + 1, name)
    else if |name| + 1 >= NAME_MAX then TooLong
    else ReadName(fmt, i + 1, name + [ch])
  }

  predicate IsDigit(c: char) { '0' <= c <= '9' }

  datatype Number = Number(n: nat, at: nat)

  function ReadNumber(fmt: string, i: nat, n: nat): (r: Number)
    ensures i <= r.at && (IsDigit(CharAt(fmt, i)) ==> i < r.at <= |fmt|)
    decreases |fmt| - i
  {
    if !IsDigit(CharAt(fmt, i)) then Number(n, i)
    else ReadNumber(fmt, i + 1, n * 10 + (CharAt(fmt, i) as int - '0' as int))
  }

  /** A conversion: an error, a call whose arguments do not match its format (undefined in C), or the entry's
    * type and value, with the format and the arguments behind it. */
  datatype Conv = Bad | Undefined | Conv(t: EntryType, v: Value, at: nat, args: seq<Arg>)

  /** Where the letter at i is a conversion, the entry type it makes and how many letters it has; NONE if it is
    * not one. */
  function Letter(fmt: string, i: nat): (EntryType, nat) {
    match CharAt(fmt, i)
    case 'c' => (UI8, 1) case 'h' => (I16, 1) case 'd' => (I32, 1) case 'l' => (I64, 1) case 'f' => (FLOAT, 1)
    case 'g' => (DBL, 1) case 's' => (STR, 1) case 'p' => (PTR, 1) case 'R' => (UI8ARRAY, 1) case 'H' => (I16ARRAY, 1)
    case 'I' => (I32ARRAY, 1) case 'L' => (I64ARRAY, 1) case 'G' => (DBLARRAY, 1) case 'J' => (JSON, 1)
    case 'u' => (match CharAt(fmt, i + 1) case 'h' => (UI16, 2) case 'l' => (UI64, 2) case _ => (UI32, 1))
    case 'U' =>
      (match CharAt(fmt, i + 1) case 'H' => (UI16ARRAY, 2) case 'L' => (UI64ARRAY, 2) case _ => (UI32ARRAY, 1))
    case _ => (NONE, 0)
  }

  datatype Taken = Refused | Mismatch | Took(v: Value)

  /** The value for an entry of type t from the next argument, n being the count in front of the letter. */
  function TakeValue(t: EntryType, n: nat, args: seq<Arg>): Taken {
    if (IntArray(t) && n * ElemSize(t) > BPE_MAXARRAY_LEN) || (t.DBLARRAY? && n * 8 > BPE_MAXARRAY_LEN) then Refused
    else if args == [] then Mismatch
    else TakeArg(t, n, args[0])
  }

  /** i is a value of the C type that the conversion to t asks va_arg for. */
  predicate IsArg(t: EntryType, i: int) {
    if t.UI32? then 0 <= i < TWO_32
    else if t.UI64? then 0 <= i < TWO_64
    else if t.I64? then -TWO_63 <= i < TWO_63
    else -TWO_31 <= i < TWO_31
  }

  function TakeArg(t: EntryType, n: nat, arg: Arg): Taken {
    if IntArray(t) then
      if !arg.AInts? || |arg.v| < n || exists j :: 0 <= j < n && !InElem(t, arg.v[j]) then Mismatch
      else Took(VArray(arg.v[..n]))
    else
      match t
      case DBLARRAY => if !arg.AReals? || |arg.rs| < n then Mismatch else Took(VReals(arg.rs[..n]))
      case STR => if !arg.AStr? then Mismatch else if |arg.s| > BPE_STR_LEN then Refused else Took(VStr(arg.s))
      case JSON =>
        if !arg.AStr? then Mismatch
        else if |arg.s| == 0 || |arg.s| > BPE_MAXARRAY_LEN then Refused
        else Took(VStr(arg.s))
      case PTR => if arg.APtr? then Took(VPtr) else Mismatch
      case FLOAT => if arg.AReal? then Took(VReal(arg.r)) else Mismatch
      case DBL => if arg.AReal? then Took(VReal(arg.r)) else Mismatch
      case _ =>
        if !arg.AInt? || !IsArg(t, arg.i) then Mismatch
        else Took(VInt(if Unsigned(t) then arg.i % TWO_64 else arg.i))
  }

  /** The switch behind a %, which comes back to itself after a * or a number. */
  function ReadConv(fmt: string, i: nat, args: seq<Arg>, n: nat): (r: Conv)
    ensures r.Conv? ==> i < r.at <= |fmt|
    decreases |fmt| - i
  {
    var ch := CharAt(fmt, i);
    if i >= |fmt| then Bad
    else if ch == '*' then
      if args == [] || !args[0].AInt? || !(0 <= args[0].i < TWO_31) then Undefined
      else ReadConv(fmt, i + 1, args[1..], args[0].i)
    else if IsDigit(ch) then
      var num := ReadNumber(fmt, i, 0);
      if num.n >= NUMBER_MAX then Undefined
      else ReadConv(fmt, num.at, args, num.n)
    else
      var (t, len) := Letter(fmt, i);
      if t.NONE? then Bad
      else
        match TakeValue(t, n, args)
        case Refused => Bad
        case Mismatch => Undefined
        case Took(v) => Conv(t, v, i + len, if args == [] then [] else args[1..])
  }

  datatype Made = Made(es: seq<Entry>) | Error(code: int) | NotDefined

  function NameOption(name: string): Option<string> { if name == "" then None else Some(name) }

  /** createBridgePacketv from entry |es| on. */
  function CreateFrom(fmt: string, i: nat, args: seq<Arg>, es: seq<Entry>): Made
    decreases BRIDGE_PACKET_ENTRY_MAX - |es|
  {
    if |es| >= BRIDGE_PACKET_ENTRY_MAX then Error(TOO_BIG)
    else
      match ReadName(fmt, i, "")
      case End => Made(es)
      case TooLong => Error(INVALIDARG)
      case Named(name, j) =>
        match ReadConv(fmt, j, args, 0)
        case Bad => Error(INVALIDARG)
        case Undefined => NotDefined
        case Conv(t, v, k, rest) => CreateFrom(fmt, k, rest, es + [Entry(NameOption(name), t, v)])
  }

  function Create(fmt: string, args: seq<Arg>): Made { CreateFrom(fmt, 0, args, []) }

  // ----- writing a format -----

  /** What may stand between the % and the letter: nothing, a number or a *. */
  datatype Width = NoWidth | Written(n: nat) | Star(n: nat)

  /** One conversion: the text in front of its %, its width, its type and the value of its argument. */
  datatype Item = Item(front: string, w: Width, t: EntryType, v: Value)

  /** The name in the text in front of a %: the text without its commas and equals signs. */
  function NameIn(front: string): string {
    if front == "" then ""
    else if front[0] == ',' || front[0] == '=' then NameIn(front[1..])
    else [front[0]] + NameIn(front[1..])
  }

  function WidthText(w: Width): string { match w case NoWidth => "" case Written(n) => Digits(n) case Star(_) => "*" }
  function WidthOf(w: Width): nat { if w.NoWidth? then 0 else w.n }

  function ItemText(x: Item): string { x.front + "%" + WidthText(x.w) + TypeCode(x.t) }

  /** The items' conversions, one behind the other. */
  function Format(items: seq<Item>): string { if items == [] then "" else ItemText(items[0]) + Format(items[1..]) }

  /** The argument a value comes from.  A negative int is stored in an unsigned entry modulo 2^64. */
  function ArgOf(t: EntryType, v: Value): Arg {
    match v
    case VInt(i) => AInt(IntOf(t, i))
    case VStr(s) => AStr(s)
    case VArray(e) => AInts(e)
    case VReal(r) => AReal(r)
    case VReals(rs) => AReals(rs)
    case _ => APtr
  }

  function IntOf(t: EntryType, i: int): int { if (t.UI8? || t.UI16?) && i >= TWO_63 then i - TWO_64 else i }

  function ItemArgs(x: Item): seq<Arg> { (if x.w.Star? then [AInt(x.w.n)] else []) + [ArgOf(x.t, x.v)] }

  function Args(items: seq<Item>): seq<Arg> { if items == [] then [] else ItemArgs(items[0]) + Args(items[1..]) }

  function EntryOf(x: Item): Entry { Entry(NameOption(NameIn(x.front)), x.t, x.v) }

  function Entries(items: seq<Item>): (r: seq<Entry>)
    ensures |r| == |items|
  {
    if items == [] then [] else [EntryOf(items[0])] + Entries(items[1..])
  }

  /** Text that may stand in front of a %. */
  predicate Plain(front: string) { '%' !in front && '\0' !in front }

  predicate GoodWidth(w: Width) {
    match w case NoWidth => true case Written(n) => n < 0x7fff_ffd0 case Star(n) => n < 0x8000_0000
  }

  /** The value suits the type and is one that an argument of the C type can give; an array's length is the count
    * in front of it. */
  predicate GoodItem(x: Item) {
    Plain(x.front) && |NameIn(x.front)| < 64 && GoodWidth(x.w) &&
    match x.v
    case VInt(i) => (Unsigned(x.t) || Signed(x.t)) && IsArg(x.t, IntOf(x.t, i)) && (Unsigned(x.t) ==> 0 <= i < TWO_64)
    case VStr(s) => '\0' !in s && ((x.t.STR? && |s| <= 8192) || (x.t.JSON? && 0 < |s| <= 8192))
    case VArray(e) =>
      IntArray(x.t) && |e| == WidthOf(x.w) && |e| * ElemSize(x.t) <= 8192
      && forall j :: 0 <= j < |e| ==> InElem(x.t, e[j])
    case VReal(_) => x.t.FLOAT? || x.t.DBL?
    case VReals(rs) => x.t.DBLARRAY? && |rs| == WidthOf(x.w) && |rs| * 8 <= 8192
    case VPtr => x.t.PTR?
    case VNone => false
  }

  /** What follows a conversion does not make it another one: a u must not be followed by an h or an l, nor a U by an H
    * or an L. */
  predicate Closed(t: EntryType, next: char) {
    (t.UI32? ==> next != 'h' && next != 'l') && (t.UI32ARRAY? ==> next != 'H' && next != 'L')
  }

  /** The character behind the k-th item. */
  function Behind(items: seq<Item>, k: nat, tail: string): char
    requires k < |items|
  {
    CharAt(if k + 1 < |items| then items[k + 1].front + "%" else tail, 0)
  }

  /** The items can be written one behind the other, and then the tail. */
  predicate GoodItems(items: seq<Item>, tail: string) {
    forall k :: 0 <= k < |items| ==> GoodItem(items[k]) && Closed(items[k].t, Behind(items, k, tail))
  }

  // ----- the constructor inverts the writing -----

  /** The text in front of a % is read as its name; without a %, it is the end of the format; and 64 characters are
    * too many. */
  lemma {:induction false} LabelRead(fmt: string, i: nat, pre: string, front: string)
    requires Plain(front) && Stands(fmt, i, front) && |pre| < 64
    requires i + |front| == |fmt| || fmt[i + |front|] == '%'
    ensures ReadName(fmt, i, pre) ==
      if |pre + NameIn(front)| >= 64 then TooLong
      else if i + |front| == |fmt| then End
      else Named(pre + NameIn(front), i + |front| + 1)
    decreases |front|
  {
    if front == "" {
      assert pre + "" == pre;
    } else {
      var ch := front[0];
      StandsAt(fmt, i, front, 0);
      assert ch in front && front == [ch] + front[1..];
      StandsSplit(fmt, i, [ch], front[1..]);
      PlainTail(front);
      hide Stands, Plain;
      if ch == ',' || ch == '=' {
        LabelRead(fmt, i + 1, pre, front[1..]);
      } else {
        assert pre + ([ch] + NameIn(front[1..])) == (pre + [ch]) + NameIn(front[1..]);
        if |pre| + 1 < 64 {
          LabelRead(fmt, i + 1, pre + [ch], front[1..]);
        }
      }
    }
  }

  lemma PlainTail(front: string)
    requires Plain(front) && front != ""
    ensures Plain(front[1..]) && front[0] != '%' && front[0] != '\0'
  {
    assert forall c :: c in front[1..] ==> c in front;
    assert front[0] in front;
  }

  lemma OneDigit(fmt: string, i: nat, n: nat, d: nat)
    requires d < 10 && Stands(fmt, i, [('0' as int + d) as char])
    ensures ReadNumber(fmt, i, n) == ReadNumber(fmt, i + 1, n * 10 + d)
  {
    assert fmt[i] == fmt[i..i + 1][0] == ('0' as int + d) as char;
  }

  lemma {:induction false} NumberRead(fmt: string, i: nat, n: nat)
    requires Stands(fmt, i, Digits(n))
    ensures ReadNumber(fmt, i, 0) == ReadNumber(fmt, i + |Digits(n)|, n)
  {
    var d := ('0' as int + n % 10) as char;
    if n >= 10 {
      StandsSplit(fmt, i, Digits(n / 10), [d]);
      NumberRead(fmt, i, n / 10);
      OneDigit(fmt, i + |Digits(n / 10)|, n / 10, n % 10);
    } else {
      OneDigit(fmt, i, 0, n);
    }
  }

  /** The letters of a type's code make that type, unless more letters follow. */
  lemma LetterRead(fmt: string, i: nat, t: EntryType)
    requires !t.NONE? && Stands(fmt, i, TypeCode(t))
    requires Closed(t, CharAt(fmt, i + |TypeCode(t)|))
    ensures Letter(fmt, i) == (t, |TypeCode(t)|)
    ensures i < |fmt| && CharAt(fmt, i) != '*' && !IsDigit(CharAt(fmt, i))
  {
    var x := TypeCode(t);
    assert forall j :: 0 <= j < |x| ==> fmt[i + j] == fmt[i..i + |x|][j] == x[j];
  }

  lemma ValueTaken(x: Item, rest: seq<Arg>)
    requires GoodItem(x)
    ensures TakeValue(x.t, WidthOf(x.w), [ArgOf(x.t, x.v)] + rest) == Took(x.v) && !x.t.NONE?
  {
    if x.v.VArray? {
      assert x.v.elems[..WidthOf(x.w)] == x.v.elems;
    } else if x.v.VReals? {
      assert x.v.reals[..WidthOf(x.w)] == x.v.reals;
    }
  }

  /** The letter and the value, once the count is known. */
  lemma LetterConv(fmt: string, i: nat, x: Item, rest: seq<Arg>)
    requires GoodItem(x) && Stands(fmt, i, TypeCode(x.t))
    requires Closed(x.t, CharAt(fmt, i + |TypeCode(x.t)|))
    ensures ReadConv(fmt, i, [ArgOf(x.t, x.v)] + rest, WidthOf(x.w)) == Conv(x.t, x.v, i + |TypeCode(x.t)|, rest)
  {
    hide TypeCode, Letter, TakeValue, GoodItem;
    ValueTaken(x, rest);
    LetterRead(fmt, i, x.t);
    assert ([ArgOf(x.t, x.v)] + rest)[1..] == rest;
  }

  lemma WidthKnown(x: Item)
    requires GoodItem(x)
    ensures GoodWidth(x.w)
  {
  }

  lemma ConvRead(fmt: string, i: nat, x: Item, rest: seq<Arg>)
    requires GoodItem(x) && Stands(fmt, i, WidthText(x.w) + TypeCode(x.t))
    requires Closed(x.t, CharAt(fmt, i + |WidthText(x.w)| + |TypeCode(x.t)|))
    ensures ReadConv(fmt, i, ItemArgs(x) + rest, 0) == Conv(x.t, x.v, i + |WidthText(x.w)| + |TypeCode(x.t)|, rest)
  {
    hide TypeCode, Letter, TakeValue, GoodItem;
    var wt := WidthText(x.w);
    StandsSplit(fmt, i, wt, TypeCode(x.t));
    LetterConv(fmt, i + |wt|, x, rest);
    WidthKnown(x);
    hide ReadConv;
    match x.w
    case NoWidth => assert [] + [ArgOf(x.t, x.v)] == [ArgOf(x.t, x.v)];
    case Written(n) =>
      assert [] + [ArgOf(x.t, x.v)] == [ArgOf(x.t, x.v)];
      ValueTaken(x, rest);
      CodeLetter(x.t);
      WrittenRead(fmt, i, n, TypeCode(x.t), [ArgOf(x.t, x.v)] + rest);
    case Star(n) =>
      assert (ItemArgs(x) + rest)[1..] == [ArgOf(x.t, x.v)] + rest;
      StarRead(fmt, i, n, ItemArgs(x) + rest);
  }

  lemma CodeLetter(t: EntryType)
    requires !t.NONE?
    ensures TypeCode(t) != "" && !IsDigit(TypeCode(t)[0])
  {
  }

  /** A number in front of the letter. */
  lemma WrittenRead(fmt: string, i: nat, n: nat, letters: string, args: seq<Arg>)
    requires Stands(fmt, i, Digits(n)) && n < NUMBER_MAX && Stands(fmt, i + |Digits(n)|, letters)
    requires letters != "" && !IsDigit(letters[0])
    ensures ReadConv(fmt, i, args, 0) == ReadConv(fmt, i + |Digits(n)|, args, n)
  {
    hide Letter, TakeValue, Digits;
    StandsAt(fmt, i + |Digits(n)|, letters, 0);
    NumberRead(fmt, i, n);
    StandsAt(fmt, i, Digits(n), 0);
    assert Digits(n)[0] in Digits(n);
  }

  /** A star in front of the letter. */
  lemma StarRead(fmt: string, i: nat, n: nat, args: seq<Arg>)
    requires Stands(fmt, i, "*") && args != [] && args[0] == AInt(n) && n < TWO_31
    ensures ReadConv(fmt, i, args, 0) == ReadConv(fmt, i + 1, args[1..], n)
  {
    hide Letter, TakeValue;
    StandsAt(fmt, i, "*", 0);
  }

  function HeadText(x: Item): string { x.front + "%" }
  function TailText(x: Item): string { WidthText(x.w) + TypeCode(x.t) }

  lemma ItemParts(fmt: string, i: nat, x: Item)
    requires GoodItem(x) && Stands(fmt, i, ItemText(x))
    ensures Stands(fmt, i, HeadText(x)) && Stands(fmt, i + |HeadText(x)|, TailText(x))
    ensures |ItemText(x)| == |HeadText(x)| + |TailText(x)|
    ensures ReadName(fmt, i, "") == Named(NameIn(x.front), i + |HeadText(x)|)
  {
    hide TypeCode, WidthText, ReadName, NameIn;
    assert ItemText(x) == HeadText(x) + TailText(x);
    StandsSplit(fmt, i, HeadText(x), TailText(x));
    StandsSplit(fmt, i, x.front, "%");
    StandsAt(fmt, i + |x.front|, "%", 0);
    assert "" + NameIn(x.front) == NameIn(x.front);
    LabelRead(fmt, i, "", x.front);
  }

  /** One conversion makes one entry, whatever follows it that does not change its letter: a comma, the end, the next
    * conversion or its name. */
  lemma ItemRead(fmt: string, i: nat, x: Item, rest: seq<Arg>, es: seq<Entry>)
    requires GoodItem(x) && Stands(fmt, i, ItemText(x)) && |es| < 36
    requires Closed(x.t, CharAt(fmt, i + |ItemText(x)|))
    ensures CreateFrom(fmt, i, ItemArgs(x) + rest, es) == CreateFrom(fmt, i + |ItemText(x)|, rest, es + [EntryOf(x)])
  {
    hide TypeCode, WidthText, ReadConv, ReadName, ItemArgs, ItemText, HeadText, Stands, GoodItem, CharAt, NameIn;
    hide Closed;
    ItemParts(fmt, i, x);
    ConvRead(fmt, i + |HeadText(x)|, x, rest);
  }

  /** The first item's text and the rest of the format. */
  lemma FormatParts(fmt: string, i: nat, items: seq<Item>, tail: string)
    requires items != [] && Stands(fmt, i, Format(items) + tail) && i + |Format(items) + tail| == |fmt|
    ensures Stands(fmt, i, ItemText(items[0])) && CharAt(fmt, i + |ItemText(items[0])|) == Behind(items, 0, tail)
    ensures var at := i + |ItemText(items[0])|;
      Stands(fmt, at, Format(items[1..]) + tail) && at + |Format(items[1..]) + tail| == |fmt|
  {
    hide ItemText, Stands;
    var x, rest := ItemText(items[0]), Format(items[1..]) + tail;
    assert Format(items) + tail == x + rest;
    StandsSplit(fmt, i, x, rest);
    RestStarts(items[1..], tail);
    if rest != "" {
      StandsAt(fmt, i + |x|, rest, 0);
    }
  }

  lemma RestStarts(items: seq<Item>, tail: string)
    ensures var rest := Format(items) + tail;
      CharAt(rest, 0) == CharAt(if items == [] then tail else items[0].front + "%", 0)
    ensures items != [] ==> Format(items) + tail != ""
  {
    if items != [] {
      assert (Format(items) + tail)[0] == (items[0].front + "%")[0];
    }
  }

  lemma Cons(items: seq<Item>)
    requires items != []
    ensures Args(items) == ItemArgs(items[0]) + Args(items[1..])
    ensures Entries(items) == [EntryOf(items[0])] + Entries(items[1..])
  {
    hide ItemArgs;
  }

  lemma TailGood(items: seq<Item>, tail: string)
    requires GoodItems(items, tail) && items != []
    ensures GoodItems(items[1..], tail) && GoodItem(items[0]) && Closed(items[0].t, Behind(items, 0, tail))
  {
    forall k | 0 <= k < |items| - 1
      ensures GoodItem(items[1..][k]) && Closed(items[1..][k].t, Behind(items[1..], k, tail))
    {
      assert Behind(items[1..], k, tail) == Behind(items, k + 1, tail);
    }
  }

  /** Any number of conversions make their entries, and the tail is read next; but there is no room for 36. */
  lemma {:induction false} ItemsRead(fmt: string, i: nat, items: seq<Item>, tail: string, more: seq<Arg>,
                                     es: seq<Entry>)
    requires GoodItems(items, tail) && Stands(fmt, i, Format(items) + tail) && i + |Format(items) + tail| == |fmt|
    requires |es| <= 36
    ensures CreateFrom(fmt, i, Args(items) + more, es) ==
      if |es| + |items| >= 36 then Error(0x36)
      else CreateFrom(fmt, i + |Format(items)|, more, es + Entries(items))
    decreases |items|
  {
    hide ItemText, ItemArgs, GoodItems, GoodItem, Stands, CreateFrom, CharAt, Args, Entries, EntryOf, Closed, Behind;
    if |es| == 36 {
      NoRoom(fmt, i, Args(items) + more, es);
    } else if items == [] {
      NoItems(more, es);
    } else {
      var x, rest := items[0], items[1..];
      Cons(items);
      TailGood(items, tail);
      FormatParts(fmt, i, items, tail);
      assert Args(items) + more == ItemArgs(x) + (Args(rest) + more);
      ItemRead(fmt, i, x, Args(rest) + more, es);
      ItemsRead(fmt, i + |ItemText(x)|, rest, tail, more, es + [EntryOf(x)]);
      assert es + [EntryOf(x)] + Entries(rest) == es + Entries(items);
    }
  }

  lemma NoRoom(fmt: string, i: nat, args: seq<Arg>, es: seq<Entry>)
    requires |es| == 36
    ensures CreateFrom(fmt, i, args, es) == Error(0x36)
  {
  }

  lemma NoItems(more: seq<Arg>, es: seq<Entry>)
    ensures Args([]) + more == more && es + Entries([]) == es
  {
    assert es + [] == es;
  }

  /** The end of the format. */
  lemma TailRead(fmt: string, i: nat, tail: string, args: seq<Arg>, es: seq<Entry>)
    requires Plain(tail) && Stands(fmt, i, tail) && i + |tail| == |fmt| && |es| < 36
    ensures CreateFrom(fmt, i, args, es) == if |NameIn(tail)| >= 64 then Error(0x15) else Made(es)
  {
    hide Stands, NameIn, ReadName;
    LabelRead(fmt, i, "", tail);
    assert "" + NameIn(tail) == NameIn(tail);
  }

  lemma {:induction false} EntriesAt(items: seq<Item>)
    ensures forall k :: 0 <= k < |items| ==> Entries(items)[k] == EntryOf(items[k])
  {
    hide EntryOf;
    if items != [] {
      EntriesAt(items[1..]);
    }
  }

  /** The constructor inverts the writing of a format, with or without commas between its conversions and names in
    * front of them: up to 35 make exactly their entries, in order, whatever further arguments there are; 36 or more are
    * too many.  Text behind the last is passed over, unless it is too long for a name. */
  lemma CreateInvertsFormat(items: seq<Item>, tail: string, more: seq<Arg>)
    requires GoodItems(items, tail) && Plain(tail)
    ensures var m := Create(Format(items) + tail, Args(items) + more);
      if |items| >= 36 then m == Error(0x36)
      else if |NameIn(tail)| >= 64 then m == Error(0x15)
      else
        m.Made? && |m.es| == |items| && forall k :: 0 <= k < |items| ==>
          var name := NameIn(items[k].front);
          m.es[k] == Entry(if name == "" then None else Some(name), items[k].t, items[k].v)
  {
    hide CreateFrom, Format, Args, Entries, GoodItem, NameIn;
    FormatRead(items, tail, more);
    if |items| < 36 {
      var fmt := Format(items) + tail;
      assert fmt[|Format(items)|..|Format(items)| + |tail|] == tail;
      TailRead(fmt, |Format(items)|, tail, more, Entries(items));
    }
    EntriesAt(items);
  }

  lemma FormatRead(items: seq<Item>, tail: string, more: seq<Arg>)
    requires GoodItems(items, tail)
    ensures Create(Format(items) + tail, Args(items) + more) ==
      if |items| >= 36 then Error(0x36) else CreateFrom(Format(items) + tail, |Format(items)|, more, Entries(items))
  {
    hide CreateFrom, Format, Args, Entries, GoodItems;
    var fmt := Format(items) + tail;
    assert fmt[0..0 + |fmt|] == fmt;
    ItemsRead(fmt, 0, items, tail, more, []);
    assert [] + Entries(items) == Entries(items);
  }

  // ----- what is refused -----

  /** A string of more than 8192 characters, inline JSON that is empty or longer than that, or an array of more than
    * 8192 bytes, whatever the argument for it. */
  predicate TooBig(t: EntryType, w: Width, arg: Arg) {
    match t
    case STR => arg.AStr? && |arg.s| > 8192
    case JSON => arg.AStr? && (|arg.s| == 0 || |arg.s| > 8192)
    case UI8ARRAY => WidthOf(w) > 8192
    case I16ARRAY => WidthOf(w) > 4096
    case UI16ARRAY => WidthOf(w) > 4096
    case I32ARRAY => WidthOf(w) > 2048
    case UI32ARRAY => WidthOf(w) > 2048
    case I64ARRAY => WidthOf(w) > 1024
    case UI64ARRAY => WidthOf(w) > 1024
    case DBLARRAY => WidthOf(w) > 1024
    case _ => false
  }

  /** The characters that begin a conversion. */
  predicate Begins(c: char) {
    c in "*0123456789cdfghlpsuGHIJLRU"
  }

  /** Behind up to 35 good conversions, a value that is too big, or a letter that is none, makes the whole call fail. */
  lemma ConversionRefused(items: seq<Item>, front: string, w: Width, t: EntryType, arg: Arg, tail: string,
                          more: seq<Arg>)
    requires |items| < 36 && Plain(front) && |NameIn(front)| < 64 && GoodWidth(w) && TooBig(t, w, arg)
    requires Closed(t, CharAt(tail, 0)) && GoodItems(items, front + "%" + WidthText(w) + TypeCode(t) + tail)
    ensures var args := Args(items) + ((if w.Star? then [AInt(w.n)] else []) + [arg] + more);
      Create(Format(items) + (front + "%" + WidthText(w) + TypeCode(t) + tail), args) == Error(0x15)
  {
    hide CreateFrom, Format, Args, Entries, GoodItems, GoodWidth, TypeCode, WidthText, NameIn;
    var text := front + "%" + WidthText(w) + TypeCode(t) + tail;
    var args := (if w.Star? then [AInt(w.n)] else []) + [arg] + more;
    FormatRead(items, text, args);
    var fmt, i := Format(items) + text, |Format(items)|;
    assert fmt[i..i + |text|] == text;
    BigRead(fmt, i, front, w, t, arg, tail, more, Entries(items));
  }

  lemma BigRead(fmt: string, i: nat, front: string, w: Width, t: EntryType, arg: Arg, tail: string, more: seq<Arg>,
                es: seq<Entry>)
    requires |es| < 36 && Plain(front) && |NameIn(front)| < 64 && GoodWidth(w) && TooBig(t, w, arg)
    requires Closed(t, CharAt(tail, 0)) && Stands(fmt, i, front + "%" + WidthText(w) + TypeCode(t) + tail)
    requires i + |front + "%" + WidthText(w) + TypeCode(t) + tail| == |fmt|
    ensures CreateFrom(fmt, i, (if w.Star? then [AInt(w.n)] else []) + [arg] + more, es) == Error(0x15)
  {
    hide ReadConv, ReadName, Stands, CharAt, NameIn, Closed, TypeCode, WidthText, TooBig;
    var args := (if w.Star? then [AInt(w.n)] else []) + [arg] + more;
    var wt, code := WidthText(w), TypeCode(t);
    assert front + "%" + wt + code + tail == (front + "%") + ((wt + code) + tail);
    StandsSplit(fmt, i, front + "%", (wt + code) + tail);
    StandsSplit(fmt, i, front, "%");
    StandsAt(fmt, i + |front|, "%", 0);
    StandsSplit(fmt, i + |front| + 1, wt + code, tail);
    assert "" + NameIn(front) == NameIn(front);
    LabelRead(fmt, i, "", front);
    CharBehind(fmt, i + |front| + 1 + |wt + code|, tail);
    BigConv(fmt, i + |front| + 1, w, t, arg, more);
  }

  lemma CharBehind(fmt: string, i: nat, tail: string)
    requires Stands(fmt, i, tail) && i + |tail| == |fmt|
    ensures CharAt(fmt, i) == CharAt(tail, 0)
  {
    if tail != "" {
      StandsAt(fmt, i, tail, 0);
    }
  }

  lemma BigConv(fmt: string, i: nat, w: Width, t: EntryType, arg: Arg, more: seq<Arg>)
    requires GoodWidth(w) && TooBig(t, w, arg) && Stands(fmt, i, WidthText(w) + TypeCode(t))
    requires Closed(t, CharAt(fmt, i + |WidthText(w) + TypeCode(t)|))
    ensures ReadConv(fmt, i, (if w.Star? then [AInt(w.n)] else []) + [arg] + more, 0) == Bad
  {
    hide TypeCode, Letter, TakeValue, Stands, CharAt, Closed, TooBig;
    var wt, args := WidthText(w), [arg] + more;
    BigNone(t, w, arg);
    StandsSplit(fmt, i, wt, TypeCode(t));
    BigLetter(fmt, i + |wt|, w, t, arg, more);
    CodeLetter(t);
    hide ReadConv;
    match w
    case NoWidth => assert [] + [arg] + more == args;
    case Written(n) =>
      assert [] + [arg] + more == args;
      WrittenRead(fmt, i, n, TypeCode(t), args);
    case Star(n) =>
      assert ([AInt(n)] + [arg] + more)[1..] == args;
      StarRead(fmt, i, n, [AInt(n)] + [arg] + more);
  }

  lemma BigNone(t: EntryType, w: Width, arg: Arg)
    requires TooBig(t, w, arg)
    ensures !t.NONE?
  {
  }

  lemma BigLetter(fmt: string, i: nat, w: Width, t: EntryType, arg: Arg, more: seq<Arg>)
    requires TooBig(t, w, arg) && Stands(fmt, i, TypeCode(t)) && Closed(t, CharAt(fmt, i + |TypeCode(t)|))
    ensures ReadConv(fmt, i, [arg] + more, WidthOf(w)) == Bad
  {
    BigRefused(t, w, arg, more);
    hide TypeCode, Letter, TakeValue, TooBig;
    LetterRead(fmt, i, t);
  }

  lemma BigRefused(t: EntryType, w: Width, arg: Arg, more: seq<Arg>)
    requires TooBig(t, w, arg)
    ensures TakeValue(t, WidthOf(w), [arg] + more) == Refused && !t.NONE?
  {
  }

  /** A name of 64 characters or more is refused, whatever follows it. */
  lemma NameRefused(items: seq<Item>, front: string, tail: string, more: seq<Arg>)
    requires |items| < 36 && Plain(front) && |NameIn(front)| >= 64 && GoodItems(items, front + "%" + tail)
    ensures Create(Format(items) + (front + "%" + tail), Args(items) + more) == Error(0x15)
  {
    hide CreateFrom, Format, Args, Entries, GoodItems, NameIn;
    var text := front + "%" + tail;
    FormatRead(items, text, more);
    var fmt, i := Format(items) + text, |Format(items)|;
    assert fmt[i..i + |text|] == text;
    NoName(fmt, i, front, tail, more, Entries(items));
  }

  lemma NoName(fmt: string, i: nat, front: string, tail: string, args: seq<Arg>, es: seq<Entry>)
    requires |es| < 36 && Plain(front) && |NameIn(front)| >= 64 && Stands(fmt, i, front + "%" + tail)
    ensures CreateFrom(fmt, i, args, es) == Error(0x15)
  {
    hide ReadName, Stands, NameIn;
    StandsSplit(fmt, i, front + "%", tail);
    StandsSplit(fmt, i, front, "%");
    StandsAt(fmt, i + |front|, "%", 0);
    LabelRead(fmt, i, "", front);
    assert "" + NameIn(front) == NameIn(front);
  }

  /** From a longer array only the elements that are counted are taken. */
  lemma ArrayTaken(t: EntryType, n: nat, v: seq<int>, rest: seq<Arg>)
    requires IntArray(t) && n <= |v| && n * ElemSize(t) <= 8192 && forall j :: 0 <= j < n ==> InElem(t, v[j])
    ensures TakeValue(t, n, [AInts(v)] + rest) == Took(VArray(v[..n]))
  {
    hide InElem;
    assert ([AInts(v)] + rest)[0] == AInts(v);
  }

  /** A character that begins no conversion is refused, and so is the end of the format behind a %. */
  lemma LetterRefused(items: seq<Item>, front: string, tail: string, more: seq<Arg>)
    requires |items| < 36 && Plain(front) && |NameIn(front)| < 64 && (tail == "" || !Begins(tail[0]))
    requires GoodItems(items, front + "%" + tail)
    ensures Create(Format(items) + (front + "%" + tail), Args(items) + more) == Error(0x15)
  {
    hide CreateFrom, Format, Args, Entries, GoodItems, NameIn, Begins;
    var text := front + "%" + tail;
    FormatRead(items, text, more);
    var fmt, i := Format(items) + text, |Format(items)|;
    assert fmt[i..i + |text|] == text;
    NoLetter(fmt, i, front, tail, more, Entries(items));
  }

  lemma NoLetter(fmt: string, i: nat, front: string, tail: string, args: seq<Arg>, es: seq<Entry>)
    requires |es| < 36 && Plain(front) && |NameIn(front)| < 64 && (tail == "" || !Begins(tail[0]))
    requires Stands(fmt, i, front + "%" + tail) && i + |front + "%" + tail| == |fmt|
    ensures CreateFrom(fmt, i, args, es) == Error(0x15)
  {
    hide ReadName, Stands, NameIn;
    StandsSplit(fmt, i, front + "%", tail);
    StandsSplit(fmt, i, front, "%");
    StandsAt(fmt, i + |front|, "%", 0);
    assert "" + NameIn(front) == NameIn(front);
    LabelRead(fmt, i, "", front);
    CharBehind(fmt, i + |front| + 1, tail);
  }
}
