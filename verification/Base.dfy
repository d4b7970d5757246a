/** Small vocabulary shared by every component model. */
module Base {
  const TWO_63 := 0x8000_0000_0000_0000
  const TWO_64 := 0x1_0000_0000_0000_0000

  datatype Option<+T> = None | Some(value: T)

  /** No element occurs twice. */
  ghost predicate Distinct<T>(s: seq<T>) {
    forall i, j :: 0 <= i < j < |s| ==> s[i] != s[j]
  }

  function Digits(n: nat): (s: string)
    ensures s != "" && forall c :: c in s ==> '0' <= c <= '9'
  {
    if n < 10 then [('0' as int + n) as char] else Digits(n / 10) + [('0' as int + n % 10) as char]
  }

  /** Every number is written with its last digit behind what the others are written as, and no leading zero. */
  lemma DigitsLast(n: nat, d: nat)
    requires d < 10
    ensures Digits(10 * n + d) == (if n == 0 then "" else Digits(n)) + ["0123456789"[d]]
  {
    assert (10 * n + d) / 10 == n && (10 * n + d) % 10 == d;
  }

  /** printf's %d. */
  function Decimal(i: int): (s: string)
    ensures s != "" && '.' !in s
  {
    if i < 0 then "-" + Digits(-i) else Digits(i)
  }

  lemma DecimalSign(i: int)
    ensures Decimal(i) == if i < 0 then "-" + Digits(-i) else Digits(i)
  {
  }

  /** x stands in s at i. */
  ghost predicate Stands<T>(s: seq<T>, i: nat, x: seq<T>) { i + |x| <= |s| && s[i..i + |x|] == x }

  lemma StandsAt<T>(s: seq<T>, i: nat, x: seq<T>, j: nat)
    requires Stands(s, i, x) && j < |x|
    ensures s[i + j] == x[j]
  {
    assert s[i..i + |x|][j] == x[j];
  }

  lemma StandsSplit<T>(s: seq<T>, i: nat, x: seq<T>, y: seq<T>)
    requires Stands(s, i, x + y)
    ensures Stands(s, i, x) && Stands(s, i + |x|, y)
  {
    assert (x + y)[..|x|] == x && (x + y)[|x|..] == y;
    assert s[i..i + |x|] == s[i..i + |x + y|][..|x|];
    assert s[i + |x|..i + |x| + |y|] == s[i..i + |x + y|][|x|..];
  }
}
