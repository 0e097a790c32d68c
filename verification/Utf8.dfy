/** UTF-8 by the grammar of section 4 of RFC 3629, on bytes. */
module Utf8 {
  type Bytes = seq<bv8>

  predicate Tail(b: bv8) {
    0x80 <= b <= 0xBF
  }

  predicate TailsAt(s: Bytes, i: nat, n: nat) {
    i + n <= |s| && forall k :: i <= k < i + n ==> Tail(s[k])
  }

  /** The length of the character s starts with, or 0 when it starts with none. */
  function RuneLength(s: Bytes): (n: nat)
    ensures n <= 4 && n <= |s|
    ensures forall k :: 1 <= k < n ==> Tail(s[k])
    ensures n > 0 ==> !Tail(s[0])
  {
    if |s| == 0 then 0
    else if s[0] <= 0x7F then 1
    else if 0xC2 <= s[0] <= 0xDF && TailsAt(s, 1, 1) then 2
    else if s[0] == 0xE0 && TailsAt(s, 1, 2) && s[1] >= 0xA0 then 3
    else if (0xE1 <= s[0] <= 0xEC || 0xEE <= s[0] <= 0xEF) && TailsAt(s, 1, 2) then 3
    else if s[0] == 0xED && TailsAt(s, 1, 2) && s[1] <= 0x9F then 3
    else if s[0] == 0xF0 && TailsAt(s, 1, 3) && s[1] >= 0x90 then 4
    else if 0xF1 <= s[0] <= 0xF3 && TailsAt(s, 1, 3) then 4
    else if s[0] == 0xF4 && TailsAt(s, 1, 3) && s[1] <= 0x8F then 4
    else 0
  }

  predicate Valid(s: Bytes) {
    s == [] || (RuneLength(s) > 0 && Valid(s[RuneLength(s)..]))
  }

  lemma TailsLocal(s: Bytes, c: nat, i: nat, n: nat)
    requires i + n <= c <= |s|
    ensures TailsAt(s[..c], i, n) == TailsAt(s, i, n)
  {
    forall k | i <= k < i + n ensures s[..c][k] == s[k] {
    }
  }

  /** A character is recognised from its own bytes alone. */
  lemma RuneIsLocal(s: Bytes, c: nat)
    requires RuneLength(s) <= c <= |s|
    requires RuneLength(s) > 0
    ensures RuneLength(s[..c]) == RuneLength(s)
  {
    var n := RuneLength(s);
    assert s[..c][0] == s[0] && (n > 1 ==> s[..c][1] == s[1]);
    TailsLocal(s, c, 1, n - 1);
  }

  lemma Slices(s: Bytes, n: nat, c: nat)
    requires n <= c <= |s|
    ensures s[..c][n..] == s[n..][..c - n] && s[c..] == s[n..][c - n..]
  {
  }

  /** Cutting a valid text anywhere but before a continuation byte leaves two valid texts. */
  lemma {:induction false} CutsAtStarts(s: Bytes, c: nat)
    requires Valid(s) && c <= |s| && (c < |s| ==> !Tail(s[c]))
    ensures Valid(s[..c]) && Valid(s[c..])
    decreases |s|
  {
    if c == 0 {
      assert s[0..] == s;
    } else {
      var n := RuneLength(s);
      assert c >= n;
      CutsAtStarts(s[n..], c - n);
      RuneIsLocal(s, c);
      Slices(s, n, c);
    }
  }
}
