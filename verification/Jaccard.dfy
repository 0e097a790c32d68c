/** Token-set similarity, shared by anchoring, dead-topic dropping and finding deduplication. */
module Jaccard {
  /** |a ∩ b| / |a ∪ b|, and 0 when both sets are empty. */
  function Score(a: set<string>, b: set<string>): (r: real)
    ensures 0.0 <= r <= 1.0
    ensures r == 1.0 <==> a == b && a != {}
  {
    Sizes(a, b);
    if a + b == {} then 0.0 else |a * b| as real / |a + b| as real
  }

  lemma Sizes(a: set<string>, b: set<string>)
    ensures |a * b| <= |a + b|
    ensures a + b != {} ==> |a + b| > 0
    ensures a + b != {} ==> (|a * b| == |a + b| <==> a == b)
  {
    var only := (a + b) - (a * b);
    assert a + b == only + a * b;
    if a == b {
      assert a * b == a + b;
    }
  }

  /** A score is at least t iff the common elements are at least that part of all; all are those of both, the common ones
      counted once. */
  lemma AtLeastIff(a: set<string>, b: set<string>, t: real)
    requires a + b != {}
    ensures Score(a, b) >= t <==> |a * b| as real >= t * |a + b| as real
    ensures |a + b| == |a| + |b| - |a * b|
  {
    Sizes(a, b);
    Share(|a * b| as real, |a + b| as real, t);
  }

  lemma Share(x: real, y: real, t: real)
    requires y > 0.0
    ensures x / y >= t <==> x >= t * y
  {
    assert x == (x / y) * y;
    if x / y >= t {
      assert (x / y - t) * y >= 0.0;
    } else {
      assert (t - x / y) * y > 0.0;
    }
  }

  lemma Symmetric(a: set<string>, b: set<string>)
    ensures Score(a, b) == Score(b, a)
  {
    assert a * b == b * a && a + b == b + a;
  }
}
