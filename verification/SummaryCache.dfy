/** The per-session cache of tier summaries, and the content key that addresses it. */
module SummaryCache {
  import opened Options
  import opened Records
  import opened Sequences
  import opened Sorting
  import opened Text

  /** What a hash was fed: characters, or the digest of an inner hash. Reading a digest as the very
      input it was computed from is the assumption that SHA-256 does not collide. */
  datatype Symbol = Chr(c: char) | Sum(d: Digest)
  datatype Digest = Digest(pre: seq<Symbol>)

  /** Everything ComputeContentKey is given. */
  datatype Input = Input(
    records: seq<Record>, summarizerID: string, dead: seq<string>, anchors: seq<nat>, tier: string)

  /** The part of a record that reaches the key: time stamps are left out on purpose. */
  datatype Proj = Proj(role: Role, toolName: string, content: string)

  function ProjOf(r: Record): Proj {
    Proj(r.role, r.toolName, r.content)
  }

  function Projs(rs: seq<Record>): seq<Proj> {
    seq(|rs|, (i: nat) requires i < |rs| => ProjOf(rs[i]))
  }

  function RoleName(r: Role): string {
    match r
    case User => "user"
    case Assistant => "assistant"
    case Tool => "tool"
    case Report => "report"
    case Summary => "summary"
  }

  function Chars(s: string): seq<Symbol> {
    seq(|s|, (i: nat) requires i < |s| => Chr(s[i]))
  }

  function Hash(s: string): Digest {
    Digest(Chars(s))
  }

  /** Fields as they are fed to a hash: each one followed by a NUL. */
  function Join(fs: seq<string>): string {
    if fs == [] then "" else fs[0] + "\0" + Join(fs[1..])
  }

  function Fields(ps: seq<Proj>): seq<string> {
    if ps == [] then [] else [RoleName(ps[0].role), ps[0].toolName, ps[0].content] + Fields(ps[1..])
  }

  function Decs(ns: seq<nat>): seq<string> {
    if ns == [] then [] else [Dec(ns[0])] + Decs(ns[1..])
  }

  function RecordHash(rs: seq<Record>): Digest {
    Hash(Join(Fields(Projs(rs))))
  }

  function DeadHash(dead: seq<string>): Digest {
    Hash(Join(Sort(dead, StringLe)))
  }

  function AnchorHash(anchors: seq<nat>): Digest {
    Hash(Join(Decs(Sort(anchors, NatLe))))
  }

  function Outer(sid: string, inner: seq<Symbol>, tier: string): seq<Symbol> {
    Chars(sid + "|") + inner + Chars("|" + tier)
  }

  function Key(a: Input): Digest {
    Digest(Outer(a.summarizerID, [Sum(RecordHash(a.records)), Sum(DeadHash(a.dead)), Sum(AnchorHash(a.anchors))], a.tier))
  }

  lemma {:induction false} JoinAppend(a: seq<string>, b: seq<string>)
    ensures Join(a + b) == Join(a) + Join(b)
  {
    if a == [] {
      assert a + b == b;
    } else {
      JoinAppend(a[1..], b);
      assert (a + b)[1..] == a[1..] + b;
      Assoc(a[0] + "\0", Join(a[1..]), Join(b));
    }
  }

  lemma JoinOne(f: string)
    ensures Join([f]) == f + "\0"
  {
    assert [f][1..] == [];
  }

  lemma {:induction false} FieldsAppend(a: seq<Proj>, b: seq<Proj>)
    ensures Fields(a + b) == Fields(a) + Fields(b)
  {
    if a == [] {
      assert a + b == b;
    } else {
      FieldsAppend(a[1..], b);
      assert (a + b)[1..] == a[1..] + b;
      Assoc([RoleName(a[0].role), a[0].toolName, a[0].content], Fields(a[1..]), Fields(b));
    }
  }

  lemma {:induction false} DecsAppend(a: seq<nat>, b: seq<nat>)
    ensures Decs(a + b) == Decs(a) + Decs(b)
  {
    if a == [] {
      assert a + b == b;
    } else {
      DecsAppend(a[1..], b);
      assert (a + b)[1..] == a[1..] + b;
      Assoc([Dec(a[0])], Decs(a[1..]), Decs(b));
    }
  }

  lemma FeedRecord(rs: seq<Record>, i: nat)
    requires i < |rs|
    ensures Join(Fields(Projs(rs[..i + 1]))) ==
            Join(Fields(Projs(rs[..i]))) + (RoleName(rs[i].role) + "\0" + rs[i].toolName + "\0" + rs[i].content + "\0")
  {
    var p := ProjOf(rs[i]);
    assert Projs(rs[..i + 1]) == Projs(rs[..i]) + [p];
    FieldsAppend(Projs(rs[..i]), [p]);
    var three := [RoleName(p.role), p.toolName, p.content];
    assert [p][1..] == [] && Fields([p]) == three;
    JoinAppend(Fields(Projs(rs[..i])), three);
    assert three[1..] == [p.toolName, p.content] && three[1..][1..] == [p.content];
    JoinOne(p.content);
  }

  lemma FeedString(fs: seq<string>, i: nat)
    requires i < |fs|
    ensures Join(fs[..i + 1]) == Join(fs[..i]) + (fs[i] + "\0")
  {
    assert fs[..i + 1] == fs[..i] + [fs[i]];
    JoinAppend(fs[..i], [fs[i]]);
    JoinOne(fs[i]);
  }

  lemma FeedIndex(ns: seq<nat>, i: nat)
    requires i < |ns|
    ensures Join(Decs(ns[..i + 1])) == Join(Decs(ns[..i])) + (Dec(ns[i]) + "\0")
  {
    assert ns[..i + 1] == ns[..i] + [ns[i]];
    DecsAppend(ns[..i], [ns[i]]);
    assert [ns[i]][1..] == [] && Decs([ns[i]]) == [Dec(ns[i])];
    JoinAppend(Decs(ns[..i]), [Dec(ns[i])]);
    JoinOne(Dec(ns[i]));
  }

  /** Feeds the inner hashes field by field, the dead facts and the anchors sorted first. */
  method ComputeContentKey(rs: seq<Record>, sid: string, dead: seq<string>, anchors: seq<nat>, tier: string)
    returns (key: Digest)
    ensures key == Key(Input(rs, sid, dead, anchors, tier))
  {
    var recFed := "";
    for i := 0 to |rs|
      invariant recFed == Join(Fields(Projs(rs[..i])))
    {
      FeedRecord(rs, i);
      recFed := recFed + (RoleName(rs[i].role) + "\0" + rs[i].toolName + "\0" + rs[i].content + "\0");
    }
    assert rs[..|rs|] == rs;
    var deadSorted := Sort(dead, StringLe);
    var deadFed := "";
    for i := 0 to |deadSorted|
      invariant deadFed == Join(deadSorted[..i])
    {
      FeedString(deadSorted, i);
      deadFed := deadFed + (deadSorted[i] + "\0");
    }
    assert deadSorted[..|deadSorted|] == deadSorted;
    var anchorSorted := Sort(anchors, NatLe);
    var anchorFed := "";
    for i := 0 to |anchorSorted|
      invariant anchorFed == Join(Decs(anchorSorted[..i]))
    {
      FeedIndex(anchorSorted, i);
      anchorFed := anchorFed + (Dec(anchorSorted[i]) + "\0");
    }
    assert anchorSorted[..|anchorSorted|] == anchorSorted;
    key := Digest(Outer(sid, [Sum(Hash(recFed)), Sum(Hash(deadFed)), Sum(Hash(anchorFed))], tier));
  }

  // ---- what equal keys say ----

  predicate NoNul(s: string) {
    '\0' !in s
  }

  predicate NoNuls(fs: seq<string>) {
    forall i :: 0 <= i < |fs| ==> NoNul(fs[i])
  }

  lemma FirstNul(f: string, g: string, s: string, t: string)
    requires NoNul(f) && NoNul(g) && f + "\0" + s == g + "\0" + t
    ensures f == g && s == t
  {
    var x := f + "\0" + s;
    assert x[|f|] == '\0' && x[|g|] == '\0';
    assert f == x[..|f|] && g == x[..|g|];
    assert |f| == |g|;
    assert s == x[|f| + 1..] == t;
  }

  lemma {:induction false} JoinDecodes(a: seq<string>, b: seq<string>)
    requires NoNuls(a) && NoNuls(b) && Join(a) == Join(b)
    ensures a == b
  {
    if a != [] && b != [] {
      FirstNul(a[0], b[0], Join(a[1..]), Join(b[1..]));
      JoinDecodes(a[1..], b[1..]);
      assert a == [a[0]] + a[1..] && b == [b[0]] + b[1..];
    }
  }

  predicate Clean(p: Proj) {
    NoNul(p.toolName) && NoNul(p.content)
  }

  lemma RoleNames(r: Role, s: Role)
    ensures NoNul(RoleName(r)) && (RoleName(r) == RoleName(s) ==> r == s)
  {
    assert RoleName(r)[0] == (match r case User => 'u' case Assistant => 'a' case Tool => 't' case Report => 'r' case Summary => 's');
  }

  lemma {:induction false} FieldsFaithful(a: seq<Proj>, b: seq<Proj>)
    ensures |Fields(a)| == 3 * |a|
    ensures (forall i :: 0 <= i < |a| ==> Clean(a[i])) ==> NoNuls(Fields(a))
    ensures Fields(a) == Fields(b) ==> a == b
  {
    if a != [] {
      RoleNames(a[0].role, a[0].role);
      if b != [] {
        FieldsFaithful(a[1..], b[1..]);
        RoleNames(a[0].role, b[0].role);
        var fa, fb := Fields(a), Fields(b);
        assert fa[3..] == Fields(a[1..]) && fb[3..] == Fields(b[1..]);
        assert fa[0] == RoleName(a[0].role) && fa[1] == a[0].toolName && fa[2] == a[0].content;
        assert fb[0] == RoleName(b[0].role) && fb[1] == b[0].toolName && fb[2] == b[0].content;
        assert a == [a[0]] + a[1..] && b == [b[0]] + b[1..];
      } else {
        FieldsFaithful(a[1..], []);
      }
    }
  }

  lemma {:induction false} DecsFaithful(a: seq<nat>, b: seq<nat>)
    ensures NoNuls(Decs(a))
    ensures Decs(a) == Decs(b) ==> a == b
  {
    if a != [] && b != [] {
      DecsFaithful(a[1..], b[1..]);
      var da, db := Decs(a), Decs(b);
      assert da[1..] == Decs(a[1..]) && db[1..] == Decs(b[1..]);
      if da == db {
        assert da[0] == Dec(a[0]) && db[0] == Dec(b[0]);
        DecInjective(a[0], b[0]);
        assert a == [a[0]] + a[1..] && b == [b[0]] + b[1..];
      }
    } else if a != [] {
      DecsFaithful(a[1..], []);
    }
  }

  lemma CharsInjective(s: string, t: string)
    requires Chars(s) == Chars(t)
    ensures s == t
  {
    assert |s| == |Chars(s)| == |Chars(t)| == |t|;
    forall i | 0 <= i < |s| ensures s[i] == t[i] {
      assert Chars(s)[i] == Chr(s[i]) && Chars(t)[i] == Chr(t[i]);
    }
  }

  predicate Sums(inner: seq<Symbol>) {
    |inner| == 3 && forall i :: 0 <= i < 3 ==> inner[i].Sum?
  }

  lemma OuterPrefix(s: string, x: seq<Symbol>, u: string, t: string, y: seq<Symbol>, v: string)
    requires Sums(x) && Sums(y) && Outer(s, x, u) == Outer(t, y, v)
    ensures |s| >= |t|
  {
    var o := Outer(s, x, u);
    assert o[|s| + 1] == x[0];
    assert forall i :: 0 <= i <= |t| ==> o[i] == Chars(t + "|")[i];
  }

  lemma OuterDecodes(s: string, x: seq<Symbol>, u: string, t: string, y: seq<Symbol>, v: string)
    requires Sums(x) && Sums(y) && Outer(s, x, u) == Outer(t, y, v)
    ensures s == t && x == y && u == v
  {
    OuterPrefix(s, x, u, t, y, v);
    OuterPrefix(t, y, v, s, x, u);
    var n, o := |s|, Outer(s, x, u);
    assert Chars(s + "|") == o[..n + 1] == Chars(t + "|");
    CharsInjective(s + "|", t + "|");
    assert s == (s + "|")[..n] && t == (t + "|")[..n];
    assert x == o[n + 1..n + 4] == y;
    assert Chars("|" + u) == o[n + 4..] == Chars("|" + v);
    CharsInjective("|" + u, "|" + v);
    assert u == ("|" + u)[1..] && v == ("|" + v)[1..];
  }

  lemma RecordHashAgrees(a: seq<Record>, b: seq<Record>)
    requires forall i :: 0 <= i < |a| ==> Clean(ProjOf(a[i]))
    requires forall i :: 0 <= i < |b| ==> Clean(ProjOf(b[i]))
    ensures RecordHash(a) == RecordHash(b) <==> Projs(a) == Projs(b)
  {
    FieldsFaithful(Projs(a), Projs(b));
    FieldsFaithful(Projs(b), Projs(a));
    if RecordHash(a) == RecordHash(b) {
      CharsInjective(Join(Fields(Projs(a))), Join(Fields(Projs(b))));
      JoinDecodes(Fields(Projs(a)), Fields(Projs(b)));
    }
  }

  lemma SortedNoNuls(dead: seq<string>)
    requires NoNuls(dead)
    ensures NoNuls(Sort(dead, StringLe))
  {
    SortKeeps(dead, StringLe);
    var s := Sort(dead, StringLe);
    forall i | 0 <= i < |s| ensures NoNul(s[i]) {
      assert s[i] in multiset(dead);
    }
  }

  lemma DeadHashAgrees(a: seq<string>, b: seq<string>)
    requires NoNuls(a) && NoNuls(b)
    ensures DeadHash(a) == DeadHash(b) <==> multiset(a) == multiset(b)
  {
    StringOrder();
    SortCanonical(a, b, StringLe);
    SortedNoNuls(a);
    SortedNoNuls(b);
    if DeadHash(a) == DeadHash(b) {
      CharsInjective(Join(Sort(a, StringLe)), Join(Sort(b, StringLe)));
      JoinDecodes(Sort(a, StringLe), Sort(b, StringLe));
    }
  }

  lemma AnchorHashAgrees(a: seq<nat>, b: seq<nat>)
    ensures AnchorHash(a) == AnchorHash(b) <==> multiset(a) == multiset(b)
  {
    SortCanonical(a, b, NatLe);
    var s, t := Sort(a, NatLe), Sort(b, NatLe);
    DecsFaithful(s, t);
    DecsFaithful(t, s);
    if AnchorHash(a) == AnchorHash(b) {
      CharsInjective(Join(Decs(s)), Join(Decs(t)));
      JoinDecodes(Decs(s), Decs(t));
    }
  }

  predicate NulFree(a: Input) {
    && (forall i :: 0 <= i < |a.records| ==> Clean(ProjOf(a.records[i])))
    && NoNuls(a.dead)
  }

  /** The same input up to time stamps and to the order of the dead facts and anchors. */
  ghost predicate SameInput(a: Input, b: Input) {
    && Projs(a.records) == Projs(b.records)
    && a.summarizerID == b.summarizerID
    && multiset(a.dead) == multiset(b.dead)
    && multiset(a.anchors) == multiset(b.anchors)
    && a.tier == b.tier
  }

  /** The key changes exactly when one of the inputs it lists does. */
  lemma KeyAgrees(a: Input, b: Input)
    requires NulFree(a) && NulFree(b)
    ensures Key(a) == Key(b) <==> SameInput(a, b)
  {
    RecordHashAgrees(a.records, b.records);
    DeadHashAgrees(a.dead, b.dead);
    AnchorHashAgrees(a.anchors, b.anchors);
    if Key(a) == Key(b) {
      var x := [Sum(RecordHash(a.records)), Sum(DeadHash(a.dead)), Sum(AnchorHash(a.anchors))];
      var y := [Sum(RecordHash(b.records)), Sum(DeadHash(b.dead)), Sum(AnchorHash(b.anchors))];
      OuterDecodes(a.summarizerID, x, a.tier, b.summarizerID, y, b.tier);
      assert x[0] == y[0] && x[1] == y[1] && x[2] == y[2];
    }
  }

  // ---- what a NUL inside a field does ----

  function Nuls(s: string): nat {
    multiset(s)['\0']
  }

  lemma {:induction false} JoinCounts(fs: seq<string>)
    ensures Nuls(Join(fs)) >= |fs|
    ensures Nuls(Join(fs)) == |fs| <==> NoNuls(fs)
  {
    if fs != [] {
      JoinCounts(fs[1..]);
      assert multiset(Join(fs)) == multiset(fs[0]) + multiset("\0") + multiset(Join(fs[1..]));
      assert NoNul(fs[0]) <==> multiset(fs[0])['\0'] == 0;
      assert NoNuls(fs) <==> NoNul(fs[0]) && NoNuls(fs[1..]) by {
        assert fs == [fs[0]] + fs[1..];
      }
    }
  }

  lemma CutAtNul(s: string) returns (x: string, y: string)
    requires !NoNul(s)
    ensures s == x + "\0" + y
  {
    var i :| 0 <= i < |s| && s[i] == '\0';
    x, y := s[..i], s[i + 1..];
  }

  /** Shifting the NUL of a field over the field boundary gives another record with the same feed. */
  lemma Shifted(p: Proj) returns (q: Proj)
    requires !Clean(p)
    ensures q != p && Join(Fields([q])) == Join(Fields([p]))
  {
    if !NoNul(p.toolName) {
      var x, y := CutAtNul(p.toolName);
      q := Proj(p.role, x, y + "\0" + p.content);
      assert |q.toolName| < |p.toolName|;
    } else {
      var x, y := CutAtNul(p.content);
      q := Proj(p.role, p.toolName + "\0" + x, y);
      assert |q.content| < |p.content|;
    }
    OneRecord(p);
    OneRecord(q);
    assert p.toolName + "\0" + p.content == q.toolName + "\0" + q.content;
    Regroup(RoleName(p.role), p.toolName, p.content);
    Regroup(RoleName(q.role), q.toolName, q.content);
  }

  lemma OneRecord(p: Proj)
    ensures Join(Fields([p])) == RoleName(p.role) + "\0" + (p.toolName + "\0" + (p.content + "\0"))
  {
    var three := [RoleName(p.role), p.toolName, p.content];
    assert [p][1..] == [] && Fields([p]) == three;
    assert three[1..] == [p.toolName, p.content] && three[1..][1..] == [p.content];
    JoinOne(p.content);
  }

  lemma Regroup(a: string, b: string, c: string)
    ensures a + "\0" + (b + "\0" + (c + "\0")) == a + "\0" + ((b + "\0" + c) + "\0")
  {
  }

  lemma Feeds(a: seq<Proj>, p: Proj, b: seq<Proj>)
    ensures Join(Fields(a + [p] + b)) == Join(Fields(a)) + Join(Fields([p])) + Join(Fields(b))
  {
    FieldsAppend(a + [p], b);
    FieldsAppend(a, [p]);
    JoinAppend(Fields(a + [p]), Fields(b));
    JoinAppend(Fields(a), Fields([p]));
  }

  /** Two lists of the same length feed the record hash alike while being different exactly when some
      tool name or content holds a NUL: field boundaries are lost there and nowhere else. */
  lemma CollidesIffNul(a: seq<Proj>)
    ensures (exists b :: Collides(a, b)) <==> exists i :: 0 <= i < |a| && !Clean(a[i])
  {
    if i :| 0 <= i < |a| && !Clean(a[i]) {
      var b := NulCollides(a, i);
    } else {
      forall b ensures !Collides(a, b) {
        CleanStandsAlone(a, b);
      }
    }
  }

  ghost predicate Collides(a: seq<Proj>, b: seq<Proj>) {
    |b| == |a| && b != a && Join(Fields(b)) == Join(Fields(a))
  }

  lemma NulCollides(a: seq<Proj>, i: nat) returns (b: seq<Proj>)
    requires i < |a| && !Clean(a[i])
    ensures Collides(a, b)
  {
    var q := Shifted(a[i]);
    b := a[..i] + [q] + a[i + 1..];
    assert a == a[..i] + [a[i]] + a[i + 1..];
    Feeds(a[..i], a[i], a[i + 1..]);
    Feeds(a[..i], q, a[i + 1..]);
    assert b[i] != a[i];
  }

  lemma CleanStandsAlone(a: seq<Proj>, b: seq<Proj>)
    requires forall i :: 0 <= i < |a| ==> Clean(a[i])
    ensures !Collides(a, b)
  {
    if |b| == |a| && Join(Fields(b)) == Join(Fields(a)) {
      FieldsFaithful(a, b);
      FieldsFaithful(b, a);
      JoinCounts(Fields(a));
      JoinCounts(Fields(b));
      JoinDecodes(Fields(a), Fields(b));
    }
  }

  /** Another list, of whatever length, with the same feed. */
  ghost predicate FedAlike(a: seq<Proj>, b: seq<Proj>) {
    b != a && Join(Fields(b)) == Join(Fields(a))
  }

  function MergedContent(p: Proj, q: Proj): string {
    p.content + "\0" + (RoleName(q.role) + "\0" + (q.toolName + "\0" + q.content))
  }

  lemma MergedText(a: string, b: string, c: string, d: string, e: string, f: string)
    ensures a + "\0" + (b + "\0" + ((c + "\0" + (d + "\0" + (e + "\0" + f))) + "\0")) ==
            (a + "\0" + (b + "\0" + (c + "\0"))) + (d + "\0" + (e + "\0" + (f + "\0")))
  {
  }

  lemma FeedsFirst(p: Proj, rest: seq<Proj>)
    ensures Join(Fields([p] + rest)) == Join(Fields([p])) + Join(Fields(rest))
  {
    FieldsAppend([p], rest);
    JoinAppend(Fields([p]), Fields(rest));
  }

  /** Two records feed the hash as one does whose content holds what stands between them. */
  lemma TwoAsOne(p: Proj, q: Proj, rest: seq<Proj>)
    ensures var one := Proj(p.role, p.toolName, MergedContent(p, q));
            Join(Fields([one] + rest)) == Join(Fields([p, q] + rest))
  {
    var one := Proj(p.role, p.toolName, MergedContent(p, q));
    FeedsFirst(one, rest);
    FeedsFirst(q, rest);
    FeedsFirst(p, [q] + rest);
    Assoc(Join(Fields([p])), Join(Fields([q])), Join(Fields(rest)));
    OneRecord(one);
    OneRecord(p);
    OneRecord(q);
    MergedText(RoleName(p.role), p.toolName, p.content, RoleName(q.role), q.toolName, q.content);
    assert [p] + ([q] + rest) == [p, q] + rest;
  }

  lemma ShortStandsAlone(a: seq<Proj>, b: seq<Proj>)
    requires |a| <= 1 && forall i :: 0 <= i < |a| ==> Clean(a[i])
    ensures !FedAlike(a, b)
  {
    if Join(Fields(b)) == Join(Fields(a)) {
      FieldsFaithful(a, b);
      FieldsFaithful(b, a);
      JoinCounts(Fields(a));
      JoinCounts(Fields(b));
      CleanStandsAlone(a, b);
    }
  }

  lemma LongerMerges(a: seq<Proj>) returns (b: seq<Proj>)
    requires |a| >= 2
    ensures FedAlike(a, b)
  {
    b := [Proj(a[0].role, a[0].toolName, MergedContent(a[0], a[1]))] + a[2..];
    TwoAsOne(a[0], a[1], a[2..]);
    assert a == [a[0], a[1]] + a[2..];
  }

  /** A list of two records or more always feeds the hash as some shorter list does; a shorter one is told from all
      others exactly when no field holds a NUL. */
  lemma FedAlikeIff(a: seq<Proj>)
    ensures (exists b :: FedAlike(a, b)) <==> |a| >= 2 || exists i :: 0 <= i < |a| && !Clean(a[i])
  {
    if |a| >= 2 {
      var b := LongerMerges(a);
    } else if i :| 0 <= i < |a| && !Clean(a[i]) {
      var b := NulCollides(a, i);
      assert FedAlike(a, b);
    } else {
      forall b ensures !FedAlike(a, b) {
        ShortStandsAlone(a, b);
      }
    }
  }

  // ---- the cache ----

  const CONTENT_V2 := "content_v2"
  const DEFAULT_MAX_ITEMS := 64

  datatype Entry = Entry(
    rangeKey: Digest, kind: string, tier: string, summarizerID: string,
    from: int, to: int, count: nat, summary: string, createdAt: int)

  predicate SameSlot(x: Entry, y: Entry) {
    x.rangeKey == y.rangeKey && x.kind == y.kind
  }

  function FindAt(es: seq<Entry>, key: Digest, kind: string, from: nat): (r: Option<nat>)
    ensures r.Some? ==> from <= r.value < |es| && es[r.value].rangeKey == key && es[r.value].kind == kind
    ensures r.None? ==> forall i :: from <= i < |es| ==> !(es[i].rangeKey == key && es[i].kind == kind)
    decreases |es| - from
  {
    if from >= |es| then None
    else if es[from].rangeKey == key && es[from].kind == kind then Some(from)
    else FindAt(es, key, kind, from + 1)
  }

  /** The entry a lookup serves: only entries of the current kind count. */
  function Lookup(es: seq<Entry>, key: Digest): Option<Entry> {
    match FindAt(es, key, CONTENT_V2, 0)
    case Some(i) => Some(es[i])
    case None => None
  }

  predicate Older(x: Entry, y: Entry) {
    x.createdAt <= y.createdAt
  }

  function LimitOf(maxItems: int): (n: nat)
    ensures n > 0
  {
    if maxItems <= 0 then DEFAULT_MAX_ITEMS else maxItems
  }

  function Newest(es: seq<Entry>, limit: nat): seq<Entry> {
    var s := Sort(es, Older);
    if |es| > limit && |s| > limit then s[|s| - limit..] else es
  }

  /** The entries after a Put of a stamped entry. */
  function Stored(es: seq<Entry>, e: Entry, maxItems: int): seq<Entry> {
    match FindAt(es, e.rangeKey, e.kind, 0)
    case Some(i) => es[i := e]
    case None => Newest(es + [e], LimitOf(maxItems))
  }

  function Stamped(e: Entry, wall: int): Entry {
    var dated := if e.createdAt == 0 then e.(createdAt := wall) else e;
    if dated.kind == "" then dated.(kind := CONTENT_V2) else dated
  }

  class Cache {
    var entries: seq<Entry>
    var maxItems: int

    constructor ()
      ensures entries == [] && maxItems == 0
    {
      entries, maxItems := [], 0;
    }

    method Get(key: Digest) returns (e: Option<Entry>)
      ensures e == Lookup(entries, key)
    {
      var i := 0;
      while i < |entries|
        invariant 0 <= i <= |entries|
        invariant FindAt(entries, key, CONTENT_V2, 0) == FindAt(entries, key, CONTENT_V2, i)
      {
        if entries[i].kind == CONTENT_V2 && entries[i].rangeKey == key {
          return Some(entries[i]);
        }
        i := i + 1;
      }
      return None;
    }

    method Put(e: Entry, wall: int)
      modifies this`entries
      ensures entries == Stored(old(entries), Stamped(e, wall), maxItems)
    {
      var x := Stamped(e, wall);
      var i := 0;
      while i < |entries|
        invariant 0 <= i <= |entries|
        invariant entries == old(entries)
        invariant FindAt(entries, x.rangeKey, x.kind, 0) == FindAt(entries, x.rangeKey, x.kind, i)
      {
        if entries[i].rangeKey == x.rangeKey && entries[i].kind == x.kind {
          entries := entries[i := x];
          return;
        }
        i := i + 1;
      }
      entries := entries + [x];
      var limit := LimitOf(maxItems);
      if |entries| > limit {
        SortLength(entries);
        var sorted := Sort(entries, Older);
        entries := sorted[|sorted| - limit..];
      }
    }
  }

  lemma SortLength(es: seq<Entry>)
    ensures multiset(Sort(es, Older)) == multiset(es) && |Sort(es, Older)| == |es|
    ensures Sorted(Sort(es, Older), Older)
  {
    SortKeeps(es, Older);
    assert |multiset(Sort(es, Older))| == |multiset(es)|;
  }

  lemma NewestKeeps(es: seq<Entry>, limit: nat)
    ensures multiset(Newest(es, limit)) <= multiset(es)
    ensures |Newest(es, limit)| == if |es| > limit then limit else |es|
    ensures forall x, y :: x in Newest(es, limit) && y in multiset(es) - multiset(Newest(es, limit)) ==> Older(y, x)
  {
    if |es| > limit {
      SortLength(es);
      var s := Sort(es, Older);
      var k := |s| - limit;
      assert s == s[..k] + s[k..];
      assert multiset(es) - multiset(s[k..]) == multiset(s[..k]);
      forall x, y | x in s[k..] && y in multiset(s[..k]) ensures Older(y, x) {
        assert y in s[..k];
      }
    } else {
      assert multiset(es) - multiset(es) == multiset{};
    }
  }

  /** No two entries share a key and a kind. */
  ghost predicate OnePerSlot(es: seq<Entry>) {
    && (forall x :: multiset(es)[x] <= 1)
    && (forall x, y :: x in multiset(es) && y in multiset(es) && SameSlot(x, y) ==> x == y)
  }

  lemma StoredWithin(es: seq<Entry>, e: Entry, maxItems: int)
    ensures forall x :: x in Stored(es, e, maxItems) ==> x == e || x in es
  {
    var r := Stored(es, e, maxItems);
    forall x | x in r ensures x == e || x in es {
      match FindAt(es, e.rangeKey, e.kind, 0)
      case Some(i) =>
      case None =>
        NewestKeeps(es + [e], LimitOf(maxItems));
        assert x in multiset(r) && x in multiset(es + [e]);
    }
  }

  lemma SlotsAfterReplace(es: seq<Entry>, i: nat, e: Entry)
    requires OnePerSlot(es) && i < |es| && SameSlot(es[i], e)
    ensures OnePerSlot(es[i := e])
  {
    var ms := multiset(es);
    assert multiset(es[i := e]) == ms - multiset{es[i]} + multiset{e};
    assert es[i] in ms;
    forall x | x in ms && SameSlot(x, e) ensures x == es[i] {
    }
    assert es[i] !in ms - multiset{es[i]};
    forall x | x in ms - multiset{es[i]} ensures !SameSlot(x, e) {
    }
  }

  lemma SlotsAfterAppend(es: seq<Entry>, e: Entry, limit: nat)
    requires OnePerSlot(es) && FindAt(es, e.rangeKey, e.kind, 0).None?
    ensures OnePerSlot(Newest(es + [e], limit))
  {
    NewestKeeps(es + [e], limit);
    forall x | x in multiset(es) ensures !SameSlot(x, e) {
      assert x in es;
    }
    assert multiset(es + [e]) == multiset(es) + multiset{e};
    assert e !in multiset(es);
    assert OnePerSlot(es + [e]);
  }

  /** Put keeps one entry per key and kind, never more entries than the limit or than there were. */
  lemma StoredSlots(es: seq<Entry>, e: Entry, maxItems: int)
    requires OnePerSlot(es)
    ensures OnePerSlot(Stored(es, e, maxItems))
    ensures |es| <= LimitOf(maxItems) ==> |Stored(es, e, maxItems)| <= LimitOf(maxItems)
  {
    match FindAt(es, e.rangeKey, e.kind, 0)
    case Some(i) =>
      SlotsAfterReplace(es, i, e);
    case None =>
      SlotsAfterAppend(es, e, LimitOf(maxItems));
      NewestKeeps(es + [e], LimitOf(maxItems));
  }

  lemma SlotServed(es: seq<Entry>, x: Entry)
    requires OnePerSlot(es) && x in es && x.kind == CONTENT_V2
    ensures Lookup(es, x.rangeKey) == Some(x)
  {
    var i := FindAt(es, x.rangeKey, CONTENT_V2, 0);
    assert es[i.value] in multiset(es) && x in multiset(es);
  }

  /** A Put never redirects a key: the new key serves the new entry or nothing, every other key what it
      served before or nothing. */
  lemma PutRedirectsNothing(es: seq<Entry>, e: Entry, maxItems: int, key: Digest)
    requires OnePerSlot(es) && e.kind == CONTENT_V2
    ensures var found := Lookup(Stored(es, e, maxItems), key);
            found == None || found == if key == e.rangeKey then Some(e) else Lookup(es, key)
  {
    var r := Stored(es, e, maxItems);
    var found := Lookup(r, key);
    if found.Some? {
      StoredSlots(es, e, maxItems);
      StoredWithin(es, e, maxItems);
      var x := found.value;
      if x == e {
      } else if key == e.rangeKey {
        var at := FindAt(es, e.rangeKey, e.kind, 0);
        assert x in es;
        ReplacedIsGone(es, x, e, maxItems);
      } else {
        SlotServed(es, x);
      }
    }
  }

  lemma ReplacedIsGone(es: seq<Entry>, x: Entry, e: Entry, maxItems: int)
    requires OnePerSlot(es) && x in es && SameSlot(x, e) && x != e
    ensures x !in Stored(es, e, maxItems)
  {
    var at := FindAt(es, e.rangeKey, e.kind, 0);
    assert es[at.value] in multiset(es) && x in multiset(es);
    var r := es[at.value := e];
    assert multiset(r) == multiset(es) - multiset{x} + multiset{e};
    assert x !in multiset(r);
  }

  lemma GreatestGoesLast(es: seq<Entry>, e: Entry)
    requires forall x :: x in es ==> Older(x, e)
    ensures Sort(es + [e], Older) == Sort(es, Older) + [e]
  {
    SortLength(es);
    var sorted := Sort(es, Older);
    assert (es + [e])[..|es|] == es;
    if sorted != [] {
      assert sorted[|sorted| - 1] in multiset(es);
    }
  }

  /** An entry no older than the stored ones is served right after its Put. */
  lemma PutThenGet(es: seq<Entry>, e: Entry, maxItems: int)
    requires OnePerSlot(es) && e.kind == CONTENT_V2
    requires forall x :: x in es ==> Older(x, e)
    ensures Lookup(Stored(es, e, maxItems), e.rangeKey) == Some(e)
  {
    StoredSlots(es, e, maxItems);
    var r := Stored(es, e, maxItems);
    var at := FindAt(es, e.rangeKey, e.kind, 0);
    if at.Some? {
      assert r[at.value] == e;
    } else {
      GreatestGoesLast(es, e);
      SortLength(es);
      assert r[|r| - 1] == e;
    }
    SlotServed(r, e);
  }
}
