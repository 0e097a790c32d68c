/** Facts about sequences that the proofs cite by name. */
module Sequences {
  lemma Assoc<T>(a: seq<T>, b: seq<T>, c: seq<T>)
    ensures (a + b) + c == a + (b + c)
  {
  }

  /** Parts come back out of their concatenation. */
  lemma Parts<T>(a: seq<T>, b: seq<T>, c: seq<T>)
    ensures var s := a + b + c;
            && s[|a|..] == b + c && s[..|a| + |b|] == a + b
            && s[|a|..|a| + |b|] == b && s[|a| + |b|..] == c
  {
  }

  /** A slice of a slice. */
  lemma Within<T>(s: seq<T>, i: nat, j: nat, a: nat, b: nat)
    requires i <= j <= |s| && a <= b <= j - i
    ensures s[i..j][a..b] == s[i + a..i + b]
  {
    forall k | 0 <= k < b - a ensures s[i..j][a..b][k] == s[i + a..i + b][k] {
      assert s[i..j][a + k] == s[i + (a + k)];
    }
  }
}
