/** Order-preserving selection, as the scanning loops of the program perform it. */
module Filtering {
  function Filter<T>(s: seq<T>, p: T -> bool): seq<T> {
    if s == [] then []
    else Filter(s[..|s| - 1], p) + if p(s[|s| - 1]) then [s[|s| - 1]] else []
  }

  /** Where the selected elements stood. */
  function Positions<T>(s: seq<T>, p: T -> bool): (r: seq<nat>)
    ensures forall k :: 0 <= k < |r| ==> r[k] < |s|
  {
    if s == [] then []
    else Positions(s[..|s| - 1], p) + if p(s[|s| - 1]) then [|s| - 1] else []
  }

  lemma Step<T>(s: seq<T>, p: T -> bool, i: nat)
    requires i < |s|
    ensures Filter(s[..i + 1], p) == if p(s[i]) then Filter(s[..i], p) + [s[i]] else Filter(s[..i], p)
    ensures Positions(s[..i + 1], p) == if p(s[i]) then Positions(s[..i], p) + [i] else Positions(s[..i], p)
  {
    assert s[..i + 1][..i] == s[..i];
  }

  /** A selection keeps the order and drops nothing it should keep. */
  lemma {:induction false} Selects<T>(s: seq<T>, p: T -> bool)
    ensures var at := Positions(s, p);
            && |at| == |Filter(s, p)|
            && (forall k :: 0 <= k < |at| ==> Filter(s, p)[k] == s[at[k]] && p(s[at[k]]))
            && (forall j, k :: 0 <= j < k < |at| ==> at[j] < at[k])
            && (forall i :: 0 <= i < |s| && p(s[i]) ==> i in at)
  {
    if s != [] {
      Selects(s[..|s| - 1], p);
    }
  }

  function Not<T>(p: T -> bool): T -> bool {
    x => !p(x)
  }

  lemma {:induction false} Splits<T>(s: seq<T>, p: T -> bool)
    ensures multiset(s) == multiset(Filter(s, p)) + multiset(Filter(s, Not(p)))
    ensures |s| == |Filter(s, p)| + |Filter(s, Not(p))|
  {
    if s != [] {
      var n := |s| - 1;
      var yes, no := Filter(s[..n], p), Filter(s[..n], Not(p));
      Splits(s[..n], p);
      assert s == s[..n] + [s[n]];
      assert multiset(s) == multiset(yes) + multiset(no) + multiset{s[n]};
      if p(s[n]) {
        assert Filter(s, p) == yes + [s[n]] && Filter(s, Not(p)) == no;
      } else {
        assert Filter(s, p) == yes && Filter(s, Not(p)) == no + [s[n]];
      }
    }
  }

  lemma {:induction false} Distributes<T>(s: seq<T>, t: seq<T>, p: T -> bool)
    ensures Filter(s + t, p) == Filter(s, p) + Filter(t, p)
  {
    if t == [] {
      assert s + t == s;
    } else {
      var n := |t| - 1;
      assert (s + t)[..|s| + n] == s + t[..n];
      Distributes(s, t[..n], p);
    }
  }

  lemma {:induction false} Uniform<T>(s: seq<T>, p: T -> bool, all: bool)
    requires forall i :: 0 <= i < |s| ==> p(s[i]) == all
    ensures Filter(s, p) == if all then s else []
    ensures !all ==> Positions(s, p) == []
  {
    if s != [] {
      Uniform(s[..|s| - 1], p, all);
      assert s == s[..|s| - 1] + [s[|s| - 1]];
    }
  }

  /** A list made of what p selects and then of what it rejects separates into the two again. */
  lemma Separates<T>(yes: seq<T>, no: seq<T>, p: T -> bool)
    requires forall i :: 0 <= i < |yes| ==> p(yes[i])
    requires forall i :: 0 <= i < |no| ==> !p(no[i])
    ensures Filter(yes + no, p) == yes
    ensures Filter(yes + no, Not(p)) == no
  {
    Chooses(yes, no, p, true);
    Chooses(yes, no, Not(p), false);
  }

  lemma Chooses<T>(s: seq<T>, t: seq<T>, p: T -> bool, first: bool)
    requires forall i :: 0 <= i < |s| ==> p(s[i]) == first
    requires forall i :: 0 <= i < |t| ==> p(t[i]) != first
    ensures Filter(s + t, p) == if first then s else t
  {
    Distributes(s, t, p);
    Uniform(s, p, first);
    Uniform(t, p, !first);
  }

  lemma {:induction false} DropsHead<T>(s: seq<T>, p: T -> bool)
    requires s != [] && !p(s[0]) && forall i :: 1 <= i < |s| ==> p(s[i])
    ensures Filter(s, p) == s[1..]
  {
    var n := |s| - 1;
    if n > 0 {
      DropsHead(s[..n], p);
      assert s[1..] == s[..n][1..] + [s[n]];
    }
  }
}
