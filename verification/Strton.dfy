/** Decimal numbers in text: what mos_strtou64 and mos_strto64 make of a string in base 10, and that they read
  * back what printf has written. */
module Strton {
  import opened Base

  const TWO_53 := 0x20_0000_0000_0000
  const TWO_54 := 0x40_0000_0000_0000

  predicate IsDigit(c: char) { '0' <= c <= '9' }
  predicate IsSpace(c: char) { c == ' ' || 9 <= c as int <= 13 }
  function DigitOf(c: char): nat
    requires IsDigit(c)
  {
    c as int - '0' as int
  }

  function Trim(s: string): string { if s != "" && IsSpace(s[0]) then Trim(s[1..]) else s }

  /** How many digits s starts with. */
  function Count(s: string): (n: nat)
    ensures n <= |s| && (forall i :: 0 <= i < n ==> IsDigit(s[i])) && (n < |s| ==> !IsDigit(s[n]))
  {
    if s != "" && IsDigit(s[0]) then 1 + Count(s[1..]) else 0
  }

  function ValueOf(ds: string): (n: nat)
    requires forall i :: 0 <= i < |ds| ==> IsDigit(ds[i])
  {
    if ds == "" then 0 else ValueOf(ds[..|ds| - 1]) * 10 + DigitOf(ds[|ds| - 1])
  }

  /** A sign, a number and what follows it; no digits is NoNumber. */
  datatype Reading = NoNumber | Reading(neg: bool, n: nat, rest: string)

  function Read(text: string): Reading {
    var t := Trim(text);
    var neg := t != "" && t[0] == '-';
    var s := if t != "" && (t[0] == '-' || t[0] == '+') then t[1..] else t;
    if Count(s) == 0 then NoNumber else Reading(neg, ValueOf(s[..Count(s)]), s[Count(s)..])
  }

  /** The unit letters: how many times to multiply by 1024. */
  function Unit(c: char): Option<nat> {
    match c
    case 'e' => Some(6) case 'E' => Some(6) case 'p' => Some(5) case 'P' => Some(5)
    case 't' => Some(4) case 'T' => Some(4) case 'g' => Some(3) case 'G' => Some(3)
    case 'm' => Some(2) case 'M' => Some(2) case 'k' => Some(1) case 'K' => Some(1)
    case 'b' => Some(0) case 'B' => Some(0)
    case _ => None
  }

  function Scale(v: nat, k: nat, limit: nat): (r: Option<int>)
    ensures r.Some? ==> 0 <= r.value <= if v <= limit * 1024 then limit * 1024 else v
    decreases k
  {
    if k == 0 then Some(v) else if v > limit then None else Scale(v * 1024, k - 1, limit)
  }

  /** What follows the number: nothing, or one unit letter. */
  function Scaled(v: nat, rest: string, limit: nat): (r: Option<int>)
    ensures r.Some? ==> 0 <= r.value <= if v <= limit * 1024 then limit * 1024 else v
  {
    if rest == "" then Some(v)
    else if |rest| > 1 || Unit(rest[0]).None? then None
    else Scale(v, Unit(rest[0]).value, limit)
  }

  /** mos_strtou64.  A negative number is taken modulo 2^64. */
  function StrToU64(s: string): (r: Option<int>)
    ensures r.Some? ==> 0 <= r.value < TWO_64
  {
    match Read(s)
    case NoNumber => None
    case Reading(neg, n, rest) =>
      var v := if neg then (TWO_64 - n) % TWO_64 else n;
      if n >= TWO_64 || (rest != "" && (v == 0 || v == TWO_64 - 1)) then None
      else Scaled(v, rest, TWO_54 - 1)
  }

  /** mos_strto64. */
  function StrToI64(s: string): (r: Option<int>)
    ensures r.Some? ==> -TWO_63 <= r.value < TWO_63
  {
    match Read(s)
    case NoNumber => None
    case Reading(neg, n, rest) =>
      var most := if neg then TWO_63 else TWO_63 - 1;
      if n > most || (rest != "" && (n == 0 || n == most)) then None
      else
        match Scaled(n, rest, if neg then TWO_53 else TWO_53 - 1)
        case None => None
        case Some(x) => Some(if neg then -x else x)
  }

  // ----- reading what printf has written -----

  lemma DigitsOnly(n: nat)
    ensures forall i :: 0 <= i < |Digits(n)| ==> IsDigit(Digits(n)[i])
  {
    forall i | 0 <= i < |Digits(n)| ensures IsDigit(Digits(n)[i]) {
      assert Digits(n)[i] in Digits(n);
    }
  }

  lemma {:induction false} ValueOfDigits(n: nat)
    requires forall i :: 0 <= i < |Digits(n)| ==> IsDigit(Digits(n)[i])
    ensures ValueOf(Digits(n)) == n
  {
    if n < 10 {
      assert Digits(n)[..0] == "";
    } else {
      DigitsOnly(n / 10);
      ValueOfDigits(n / 10);
      assert Digits(n)[..|Digits(n)| - 1] == Digits(n / 10);
    }
  }

  lemma {:induction false} CountAll(s: string)
    requires forall i :: 0 <= i < |s| ==> IsDigit(s[i])
    ensures Count(s) == |s|
  {
    if s != "" {
      CountAll(s[1..]);
    }
  }

  lemma ReadDecimal(neg: bool, n: nat)
    ensures Read((if neg then "-" else "") + Digits(n)) == Reading(neg, n, "")
  {
    hide Digits, Count, ValueOf, Trim;
    var ds := Digits(n);
    var t := (if neg then "-" else "") + ds;
    DigitsOnly(n);
    ValueOfDigits(n);
    CountAll(ds);
    TrimNothing(neg, ds);
    assert ds[..|ds|] == ds && ds[|ds|..] == "";
    if neg {
      assert t[1..] == ds;
    } else {
      assert t == ds;
    }
  }

  lemma TrimNothing(neg: bool, ds: string)
    requires ds != "" && IsDigit(ds[0])
    ensures var t := (if neg then "-" else "") + ds; Trim(t) == t && t[0] == if neg then '-' else ds[0]
  {
    var t := (if neg then "-" else "") + ds;
    assert t[0] == if neg then '-' else ds[0];
  }

  /** Every unsigned 64-bit number is read back, and a negative one is taken for its complement. */
  lemma U64RoundTrip(i: int)
    requires -TWO_64 < i < TWO_64
    ensures StrToU64(Decimal(i)) == Some(i % TWO_64)
  {
    hide Read, Unit, Scale, Digits;
    DecimalRead(i);
    if i < 0 {
      assert TWO_64 - -i == i + TWO_64;
      assert 0 < i + TWO_64 < TWO_64;
    }
  }

  lemma DecimalRead(i: int)
    ensures Read(Decimal(i)) == Reading(i < 0, if i < 0 then -i else i, "")
  {
    hide Read, Digits;
    if i < 0 {
      ReadDecimal(true, -i);
    } else {
      ReadDecimal(false, i);
      assert "" + Digits(i) == Digits(i);
    }
  }

  lemma I64RoundTrip(i: int)
    requires -TWO_63 <= i < TWO_63
    ensures StrToI64(Decimal(i)) == Some(i)
  {
    hide Read, Unit, Scale, Digits;
    DecimalRead(i);
  }

  function Pow10(k: nat): nat { if k == 0 then 1 else 10 * Pow10(k - 1) }

  lemma {:induction false} DigitsLength(n: nat, k: nat)
    requires k > 0 && n < Pow10(k)
    ensures |Digits(n)| <= k
  {
    if n >= 10 {
      assert Pow10(1) == 10;
      DigitsLength(n / 10, k - 1);
    }
  }

  /** No 64-bit number has more than 20 characters. */
  lemma DecimalLength(i: int)
    requires -TWO_63 <= i < TWO_64
    ensures |Decimal(i)| <= 20
  {
    assert Pow10(10) == 10000000000 && Pow10(19) == 10000000000000000000 && Pow10(20) == 100000000000000000000 by {
      assert Pow10(5) == 100000;
      assert Pow10(10) == 10000000000;
      assert Pow10(15) == 1000000000000000;
    }
    if i < 0 {
      DigitsLength(-i, 19);
    } else {
      DigitsLength(i, 20);
    }
  }

  // ----- units -----

  /** What a number before a unit letter is multiplied by. */
  function Factor(c: char): nat {
    if c in "bB" then 1
    else if c in "kK" then 0x400
    else if c in "mM" then 0x10_0000
    else if c in "gG" then 0x4000_0000
    else if c in "tT" then 0x100_0000_0000
    else if c in "pP" then 0x4_0000_0000_0000
    else if c in "eE" then 0x1000_0000_0000_0000
    else 0
  }

  lemma ScaleUp(v: nat, k: nat)
    requires k <= 6
    ensures var m := if k == 0 then 1 else if k == 1 then 0x400 else if k == 2 then 0x10_0000
                     else if k == 3 then 0x4000_0000 else if k == 4 then 0x100_0000_0000
                     else if k == 5 then 0x4_0000_0000_0000 else 0x1000_0000_0000_0000;
      v < TWO_64 ==> Scale(v, k, TWO_54 - 1) == if v * m < TWO_64 then Some(v * m) else None
    decreases k
  {
    if k > 0 {
      ScaleUp(v * 1024, k - 1);
    }
  }

  /** A number with one letter behind it: 0 and the largest one are refused, and so is what is no unit or does not fit
    * 64 bits once it is multiplied. */
  lemma UnitMeans(n: nat, c: char)
    requires n < TWO_64 && !IsDigit(c)
    ensures StrToU64(Digits(n) + [c]) ==
      if n == 0 || n == TWO_64 - 1 || Factor(c) == 0 || n * Factor(c) >= TWO_64 then None else Some(n * Factor(c))
  {
    hide Digits, Scale, Read;
    ReadUnit(n, c);
    match Unit(c)
    case None =>
    case Some(k) => ScaleUp(n, k);
  }

  lemma ReadUnit(n: nat, c: char)
    requires !IsDigit(c)
    ensures Read(Digits(n) + [c]) == Reading(false, n, [c])
  {
    hide Digits, Count, ValueOf, Trim;
    var ds := Digits(n);
    var t := ds + [c];
    DigitsOnly(n);
    ValueOfDigits(n);
    CountSome(ds, c);
    assert t[0] == ds[0] && IsDigit(ds[0]);
    TrimNone(t);
    assert t[..|ds|] == ds && t[|ds|..] == [c];
  }

  lemma TrimNone(t: string)
    requires t != "" && !IsSpace(t[0])
    ensures Trim(t) == t
  {
  }

  lemma {:induction false} CountSome(s: string, c: char)
    requires !IsDigit(c) && forall i :: 0 <= i < |s| ==> IsDigit(s[i])
    ensures Count(s + [c]) == |s|
  {
    if s != "" {
      CountSome(s[1..], c);
      assert (s + [c])[1..] == s[1..] + [c];
    } else {
      assert (s + [c])[0] == c;
    }
  }
}
