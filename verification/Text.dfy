/** Strings as the program sees them (one char per byte): searching and decimal printing. */
module Text {
  import opened Options

  /** sub stands in s at position i. */
  predicate At(s: string, sub: string, i: nat) {
    i + |sub| <= |s| && s[i..i + |sub|] == sub
  }

  /** The first position at or after from where sub stands in s. */
  function Index(s: string, sub: string, from: nat): (r: Option<nat>)
    ensures r.Some? ==> from <= r.value <= |s| - |sub|
    decreases |s| - from
  {
    if from + |sub| > |s| then None
    else if At(s, sub, from) then Some(from)
    else Index(s, sub, from + 1)
  }

  /** Index finds the first place at or after from, if there is one. */
  lemma {:induction false} IndexIsFirst(s: string, sub: string, from: nat)
    ensures match Index(s, sub, from)
            case Some(i) => At(s, sub, i) && forall j :: from <= j < i ==> !At(s, sub, j)
            case None => forall j :: from <= j ==> !At(s, sub, j)
    decreases |s| - from
  {
    if from + |sub| <= |s| && !At(s, sub, from) {
      IndexIsFirst(s, sub, from + 1);
    }
  }

  predicate Contains(s: string, sub: string) {
    Index(s, sub, 0).Some?
  }

  lemma Shown(s: string, sub: string, i: nat)
    requires At(s, sub, i)
    ensures Contains(s, sub)
  {
    IndexIsFirst(s, sub, 0);
  }

  predicate HasPrefix(s: string, p: string) {
    At(s, p, 0)
  }

  predicate IsDigit(c: char) {
    '0' <= c <= '9'
  }

  predicate Digits(s: string) {
    forall i :: 0 <= i < |s| ==> IsDigit(s[i])
  }

  function DigitChar(d: nat): (c: char)
    requires d < 10
    ensures IsDigit(c)
  {
    '0' + d as char
  }

  function DigitValue(c: char): (d: nat)
    requires IsDigit(c)
    ensures d < 10
  {
    (c - '0') as nat
  }

  /** The %d rendering of a natural number. */
  function Dec(n: nat): (s: string)
    ensures |s| > 0 && Digits(s)
  {
    if n < 10 then [DigitChar(n)] else Dec(n / 10) + [DigitChar(n % 10)]
  }

  /** The number a string of digits denotes. */
  function Val(s: string): nat
    requires Digits(s)
  {
    if s == "" then 0 else Val(s[..|s| - 1]) * 10 + DigitValue(s[|s| - 1])
  }

  lemma {:induction false} ValDec(n: nat)
    ensures Val(Dec(n)) == n
  {
    if n >= 10 {
      var s := Dec(n);
      assert s[..|s| - 1] == Dec(n / 10);
      ValDec(n / 10);
    } else {
      assert Dec(n)[..0] == "";
    }
  }

  lemma DecInjective(m: nat, n: nat)
    requires Dec(m) == Dec(n)
    ensures m == n
  {
    ValDec(m);
    ValDec(n);
  }

  /** n followed by k zeros: n times the k-th power of ten. */
  function Shift(n: nat, k: nat): (r: nat)
    ensures r >= n && (n == 0 ==> r == 0)
  {
    if k == 0 then n else 10 * Shift(n, k - 1)
  }

  lemma {:induction false} ValAppend(s: string, t: string)
    requires Digits(s) && Digits(t)
    ensures Digits(s + t) && Val(s + t) == Shift(Val(s), |t|) + Val(t)
  {
    if t == "" {
      assert s + t == s;
    } else {
      var k := |t| - 1;
      assert (s + t)[..|s| + k] == s + t[..k];
      ValAppend(s, t[..k]);
    }
  }

  function Zeros(k: int): (s: string)
    ensures Digits(s) && |s| == if k > 0 then k else 0
  {
    if k <= 0 then "" else Zeros(k - 1) + "0"
  }

  lemma {:induction false} ZerosAreZero(k: int)
    ensures Val(Zeros(k)) == 0
  {
    if k > 0 {
      ZerosAreZero(k - 1);
      assert Zeros(k)[..|Zeros(k)| - 1] == Zeros(k - 1);
    }
  }

  /** The %0<width>d rendering of a natural number. */
  function Padded(n: nat, width: nat): string {
    Zeros(width - |Dec(n)|) + Dec(n)
  }

  lemma PaddingCountsNothing(zeros: int, digits: string)
    requires Digits(digits)
    ensures Digits(Zeros(zeros) + digits) && Val(Zeros(zeros) + digits) == Val(digits)
  {
    ZerosAreZero(zeros);
    ValAppend(Zeros(zeros), digits);
  }

  lemma PaddedDenotes(n: nat, width: nat)
    ensures Digits(Padded(n, width)) && Val(Padded(n, width)) == n
    ensures |Dec(n)| <= width ==> |Padded(n, width)| == width
  {
    PaddingCountsNothing(width - |Dec(n)|, Dec(n));
    ValDec(n);
  }
}
