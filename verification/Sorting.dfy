/** The library's stable sort, and why sorting makes a list independent of its order. */
module Sorting {
  function Insert<T>(s: seq<T>, x: T, le: (T, T) -> bool): seq<T> {
    if s == [] || le(s[|s| - 1], x) then s + [x]
    else Insert(s[..|s| - 1], x, le) + [s[|s| - 1]]
  }

  /** Stable: an element goes after those it is not below. */
  function Sort<T>(s: seq<T>, le: (T, T) -> bool): seq<T> {
    if s == [] then [] else Insert(Sort(s[..|s| - 1], le), s[|s| - 1], le)
  }

  predicate Sorted<T>(s: seq<T>, le: (T, T) -> bool) {
    forall i, j :: 0 <= i <= j < |s| ==> le(s[i], s[j])
  }

  ghost predicate Ordering<T(!new)>(le: (T, T) -> bool) {
    && (forall x, y :: le(x, y) || le(y, x))
    && (forall x, y, z :: le(x, y) && le(y, z) ==> le(x, z))
  }

  lemma {:induction false} InsertKeeps<T(!new)>(s: seq<T>, x: T, le: (T, T) -> bool)
    ensures multiset(Insert(s, x, le)) == multiset(s) + multiset{x}
    ensures Ordering(le) && Sorted(s, le) ==> Sorted(Insert(s, x, le), le)
  {
    if !(s == [] || le(s[|s| - 1], x)) {
      var k := |s| - 1;
      InsertKeeps(s[..k], x, le);
      assert s == s[..k] + [s[k]];
      if Ordering(le) && Sorted(s, le) {
        var r := Insert(s[..k], x, le);
        forall i | 0 <= i < |r| ensures le(r[i], s[k]) {
          assert r[i] in multiset(r);
          if r[i] != x {
            assert r[i] in s[..k];
          }
        }
      }
    }
  }

  lemma {:induction false} SortKeeps<T(!new)>(s: seq<T>, le: (T, T) -> bool)
    ensures multiset(Sort(s, le)) == multiset(s)
    ensures Ordering(le) ==> Sorted(Sort(s, le), le)
  {
    if s != [] {
      var k := |s| - 1;
      SortKeeps(s[..k], le);
      InsertKeeps(Sort(s[..k], le), s[k], le);
      assert s == s[..k] + [s[k]];
    }
  }

  lemma WithoutLast<T>(s: seq<T>)
    requires s != []
    ensures s == s[..|s| - 1] + [s[|s| - 1]]
    ensures multiset(s[..|s| - 1]) == multiset(s) - multiset{s[|s| - 1]}
  {
    assert s == s[..|s| - 1] + [s[|s| - 1]];
  }

  lemma LastIsGreatest<T(!new)>(s: seq<T>, t: seq<T>, le: (T, T) -> bool)
    requires Sorted(t, le) && multiset(s) == multiset(t) && |s| == |t| > 0
    ensures le(s[|s| - 1], t[|t| - 1])
  {
    assert s[|s| - 1] in multiset(t);
    var i :| 0 <= i < |t| && t[i] == s[|s| - 1];
  }

  /** Two sorted lists of the same elements are equal when the order is antisymmetric. */
  lemma {:induction false} SortedUnique<T(!new)>(s: seq<T>, t: seq<T>, le: (T, T) -> bool)
    requires Ordering(le) && forall x, y :: le(x, y) && le(y, x) ==> x == y
    requires Sorted(s, le) && Sorted(t, le) && multiset(s) == multiset(t)
    ensures s == t
  {
    assert |s| == |multiset(s)| == |multiset(t)| == |t|;
    if s != [] {
      var k := |s| - 1;
      LastIsGreatest(s, t, le);
      LastIsGreatest(t, s, le);
      WithoutLast(s);
      WithoutLast(t);
      SortedUnique(s[..k], t[..k], le);
    }
  }

  lemma SortCanonical<T(!new)>(s: seq<T>, t: seq<T>, le: (T, T) -> bool)
    requires Ordering(le) && forall x, y :: le(x, y) && le(y, x) ==> x == y
    ensures multiset(s) == multiset(t) <==> Sort(s, le) == Sort(t, le)
  {
    SortKeeps(s, le);
    SortKeeps(t, le);
    if multiset(s) == multiset(t) {
      SortedUnique(Sort(s, le), Sort(t, le), le);
    }
  }

  /** The byte-wise order of sort.Strings. */
  predicate StringLe(a: string, b: string) {
    a == "" || (b != "" && (a[0] < b[0] || (a[0] == b[0] && StringLe(a[1..], b[1..]))))
  }

  lemma {:induction false} StringLeTotal(a: string, b: string)
    ensures StringLe(a, b) || StringLe(b, a)
    ensures StringLe(a, b) && StringLe(b, a) ==> a == b
  {
    if a != "" && b != "" && a[0] == b[0] {
      StringLeTotal(a[1..], b[1..]);
      assert a == [a[0]] + a[1..] && b == [b[0]] + b[1..];
    }
  }

  lemma {:induction false} StringLeTransitive(a: string, b: string, c: string)
    requires StringLe(a, b) && StringLe(b, c)
    ensures StringLe(a, c)
  {
    if a != "" && a[0] == b[0] == c[0] {
      StringLeTransitive(a[1..], b[1..], c[1..]);
    }
  }

  lemma StringOrder()
    ensures Ordering(StringLe) && forall x, y :: StringLe(x, y) && StringLe(y, x) ==> x == y
  {
    forall x, y ensures (StringLe(x, y) || StringLe(y, x)) && (StringLe(x, y) && StringLe(y, x) ==> x == y) {
      StringLeTotal(x, y);
    }
    forall x, y, z | StringLe(x, y) && StringLe(y, z) ensures StringLe(x, z) {
      StringLeTransitive(x, y, z);
    }
  }

  predicate NatLe(a: nat, b: nat) {
    a <= b
  }
}
