/** The per-session store of findings: three layers of deduplication, FIFO eviction, and a prompt budget. */
module Findings {
  import opened Options
  import opened Text
  import F = Filtering
  import J = Jaccard

  const DEFAULT_MAX_FINDINGS := 100
  const DEDUP_THRESHOLD := 0.5
  const FORMAT_BUDGET := 16 * 1024

  /** The id carries the calendar day and a number; dated is the label the prompt shows. */
  datatype Finding = Finding(id: string, content: string, dated: string)

  /** Lower-casing with runs of other characters collapsed, tokenising, the blank test, and the prompt's sanitising. */
  datatype Hooks = Hooks(
    normal: string -> string, tokens: string -> set<string>, blank: string -> bool, clean: string -> string)

  // ---- duplicates ----

  /** Exactly equal, equal after normalising, or sharing at least half of their tokens. */
  predicate Duplicate(h: Hooks, a: string, b: string) {
    a == b || h.normal(a) == h.normal(b) || J.Score(h.tokens(a), h.tokens(b)) >= DEDUP_THRESHOLD
  }

  lemma DuplicateSymmetric(h: Hooks, a: string, b: string)
    ensures Duplicate(h, a, b) == Duplicate(h, b, a)
  {
    J.Symmetric(h.tokens(a), h.tokens(b));
  }

  predicate Known(h: Hooks, fs: seq<Finding>, content: string) {
    !h.blank(content) && exists i :: 0 <= i < |fs| && Duplicate(h, fs[i].content, content)
  }

  // ---- ids ----

  function DayPrefix(day: string): string {
    "f-" + day + "-"
  }

  function CountForDay(fs: seq<Finding>, day: string): nat {
    |F.Filter(fs, OnDay(day))|
  }

  function OnDay(day: string): Finding -> bool {
    (f: Finding) => HasPrefix(f.id, DayPrefix(day))
  }

  /** hex is the random suffix drawn once a day has run past 999. */
  function NumberPart(n: nat, hex: string): string {
    if n > 999 then Padded(n, 6) + "-" + hex else Padded(n, 3)
  }

  function IdFor(day: string, n: nat, hex: string): string {
    DayPrefix(day) + NumberPart(n, hex)
  }

  // ---- the store ----

  function Cap(maxFindings: int): (n: nat)
    ensures n > 0
  {
    if maxFindings <= 0 then DEFAULT_MAX_FINDINGS else maxFindings
  }

  function Made(fs: seq<Finding>, content: string, day: string, dated: string, hex: string): Finding {
    Finding(IdFor(day, CountForDay(fs, day) + 1, hex), content, dated)
  }

  function Added(h: Hooks, fs: seq<Finding>, f: Finding, maxFindings: int): seq<Finding> {
    if Known(h, fs, f.content) then fs
    else
      var grown := fs + [f];
      if |grown| > Cap(maxFindings) then grown[1..] else grown
  }

  function NotIn(ids: seq<string>): Finding -> bool {
    (f: Finding) => f.id !in ids
  }

  class Store {
    const h: Hooks
    const maxFindings: int
    var findings: seq<Finding>

    constructor (h: Hooks, maxFindings: int)
      ensures this.h == h && this.maxFindings == maxFindings && findings == []
    {
      this.h, this.maxFindings, findings := h, maxFindings, [];
    }

    method IsDuplicate(content: string) returns (known: bool)
      ensures known == Known(h, findings, content)
    {
      if h.blank(content) {
        return false;
      }
      var norm, toks := h.normal(content), h.tokens(content);
      for i := 0 to |findings|
        invariant forall k :: 0 <= k < i ==> !Duplicate(h, findings[k].content, content)
      {
        var existing := findings[i].content;
        DuplicateSymmetric(h, existing, content);
        if existing == content || h.normal(existing) == norm || J.Score(toks, h.tokens(existing)) >= DEDUP_THRESHOLD {
          return true;
        }
      }
      return false;
    }

    method CountDay(day: string) returns (count: nat)
      ensures count == CountForDay(findings, day)
    {
      count := 0;
      for i := 0 to |findings|
        invariant count == CountForDay(findings[..i], day)
      {
        F.Step(findings, OnDay(day), i);
        if HasPrefix(findings[i].id, DayPrefix(day)) {
          count := count + 1;
        }
      }
      assert findings[..|findings|] == findings;
    }

    method Add(content: string, day: string, dated: string, hex: string) returns (r: Option<Finding>)
      modifies this`findings
      ensures findings == Added(h, old(findings), Made(old(findings), content, day, dated, hex), maxFindings)
      ensures r == if Known(h, old(findings), content) then None else Some(Made(old(findings), content, day, dated, hex))
    {
      var known := IsDuplicate(content);
      if known {
        return None;
      }
      var count := CountDay(day);
      var f := Finding(IdFor(day, count + 1, hex), content, dated);
      findings := findings + [f];
      if |findings| > Cap(maxFindings) {
        findings := findings[1..];
      }
      r := Some(f);
    }

    method DeleteByIDs(ids: seq<string>) returns (deleted: nat)
      modifies this`findings
      ensures findings == F.Filter(old(findings), NotIn(ids))
      ensures deleted + |findings| == |old(findings)|
    {
      if |ids| == 0 {
        F.Uniform(findings, NotIn(ids), true);
        return 0;
      }
      var kept: seq<Finding> := [];
      deleted := 0;
      for i := 0 to |findings|
        invariant findings == old(findings)
        invariant kept == F.Filter(findings[..i], NotIn(ids)) && deleted + |kept| == i
      {
        F.Step(findings, NotIn(ids), i);
        if findings[i].id in ids {
          deleted := deleted + 1;
          continue;
        }
        kept := kept + [findings[i]];
      }
      assert findings[..|findings|] == findings;
      findings := kept;
    }

    method FormatForPrompt() returns (text: string)
      ensures text == Formatted(h, findings)
    {
      if |findings| == 0 {
        return "";
      }
      var lines := LinesOf(h, findings);
      var included, used, i := [], 0, |lines|;
      while i > 0
        invariant 0 <= i <= |lines| && included == lines[i..] && used >= 0
        invariant Start(lines, |lines|, 0) == Start(lines, i, used)
      {
        if used + |lines[i - 1]| > FORMAT_BUDGET {
          break;
        }
        i := i - 1;
        included, used := [lines[i]] + included, used + |lines[i]|;
      }
      text := if i > 0 then "(" + Dec(i) + " earlier findings elided to fit budget)\n" else "";
      var body := Concat(included);
      text := text + body;
    }
  }

  // ---- the prompt ----

  function LinesOf(h: Hooks, fs: seq<Finding>): seq<string> {
    seq(|fs|, (i: nat) requires i < |fs| => "- [derived] [" + fs[i].dated + "] " + h.clean(fs[i].content) + "\n")
  }

  function Concat(ls: seq<string>): string {
    if ls == [] then "" else ls[0] + Concat(ls[1..])
  }

  function Size(ls: seq<string>): nat {
    if ls == [] then 0 else |ls[0]| + Size(ls[1..])
  }

  /** The first included line, walking from the newest back. */
  function Start(ls: seq<string>, i: nat, used: nat): (start: nat)
    requires i <= |ls|
    ensures start <= i
  {
    if i == 0 || used + |ls[i - 1]| > FORMAT_BUDGET then i else Start(ls, i - 1, used + |ls[i - 1]|)
  }

  function Elision(count: nat): string {
    if count > 0 then "(" + Dec(count) + " earlier findings elided to fit budget)\n" else ""
  }

  function Formatted(h: Hooks, fs: seq<Finding>): string {
    if fs == [] then ""
    else
      var ls := LinesOf(h, fs);
      var start := Start(ls, |ls|, 0);
      Elision(start) + Concat(ls[start..])
  }

  lemma {:induction false} StartIsLongest(ls: seq<string>, i: nat, used: nat)
    requires i <= |ls| && used == Size(ls[i..]) <= FORMAT_BUDGET
    ensures var start := Start(ls, i, used);
            Size(ls[start..]) <= FORMAT_BUDGET && (start > 0 ==> Size(ls[start - 1..]) > FORMAT_BUDGET)
  {
    if i > 0 {
      assert ls[i - 1..][1..] == ls[i..];
      if used + |ls[i - 1]| <= FORMAT_BUDGET {
        StartIsLongest(ls, i - 1, used + |ls[i - 1]|);
      }
    }
  }

  lemma {:induction false} SizeShrinks(ls: seq<string>, i: nat, j: nat)
    requires i <= j <= |ls|
    ensures Size(ls[i..]) >= Size(ls[j..])
    decreases j - i
  {
    if i < j {
      assert ls[i..][1..] == ls[i + 1..];
      SizeShrinks(ls, i + 1, j);
    }
  }

  lemma {:induction false} ConcatSize(ls: seq<string>)
    ensures |Concat(ls)| == Size(ls)
  {
    if ls != [] {
      ConcatSize(ls[1..]);
    }
  }

  lemma TailFits(ls: seq<string>, i: nat)
    requires i <= |ls|
    ensures var start := Start(ls, |ls|, 0);
            |Concat(ls[start..])| <= FORMAT_BUDGET && (start <= i <==> |Concat(ls[i..])| <= FORMAT_BUDGET)
  {
    var start := Start(ls, |ls|, 0);
    assert ls[|ls|..] == [];
    StartIsLongest(ls, |ls|, 0);
    ConcatSize(ls[start..]);
    ConcatSize(ls[i..]);
    if start <= i {
      SizeShrinks(ls, start, i);
    } else {
      SizeShrinks(ls, i, start - 1);
    }
  }

  /** The prompt shows the longest run of newest lines that fits the budget, and says how many it left out. */
  lemma PromptIsLongestTail(h: Hooks, fs: seq<Finding>, i: nat)
    requires i <= |fs|
    ensures var ls := LinesOf(h, fs);
            var start := Start(ls, |ls|, 0);
            && start + |ls[start..]| == |fs|
            && (i < |fs| ==> ls[i] == "- [derived] [" + fs[i].dated + "] " + h.clean(fs[i].content) + "\n")
            && |Concat(ls[start..])| <= FORMAT_BUDGET
            && (start <= i <==> |Concat(ls[i..])| <= FORMAT_BUDGET)
            && (fs != [] ==> Formatted(h, fs) == Elision(start) + Concat(ls[start..]))
  {
    TailFits(LinesOf(h, fs), i);
  }

  // ---- what every run keeps ----

  /** No two stored findings are duplicates, unless one of them is blank. */
  predicate Deduplicated(h: Hooks, fs: seq<Finding>) {
    forall i, j :: 0 <= i < j < |fs| && !h.blank(fs[i].content) && !h.blank(fs[j].content) ==>
                     Differ(h, fs[i].content, fs[j].content)
  }

  /** Neither the same text, nor the same once normalised, nor alike in half of their tokens. */
  predicate Differ(h: Hooks, a: string, b: string) {
    a != b && h.normal(a) != h.normal(b) && J.Score(h.tokens(a), h.tokens(b)) < 0.5
  }

  datatype Op = AddOp(content: string, day: string, dated: string, hex: string) | DeleteOp(ids: seq<string>)

  function After(h: Hooks, fs: seq<Finding>, op: Op, maxFindings: int): seq<Finding> {
    match op
    case AddOp(content, day, dated, hex) => Added(h, fs, Made(fs, content, day, dated, hex), maxFindings)
    case DeleteOp(ids) => F.Filter(fs, NotIn(ids))
  }

  function Run(h: Hooks, ops: seq<Op>, maxFindings: int): seq<Finding> {
    if ops == [] then [] else After(h, Run(h, ops[..|ops| - 1], maxFindings), ops[|ops| - 1], maxFindings)
  }

  lemma FilterKeeps(h: Hooks, fs: seq<Finding>, p: Finding -> bool)
    requires Deduplicated(h, fs)
    ensures Deduplicated(h, F.Filter(fs, p)) && |F.Filter(fs, p)| <= |fs|
  {
    F.Selects(fs, p);
    F.Splits(fs, p);
    var kept, at := F.Filter(fs, p), F.Positions(fs, p);
    forall i, j | 0 <= i < j < |kept| && !h.blank(kept[i].content) && !h.blank(kept[j].content)
      ensures !Duplicate(h, kept[i].content, kept[j].content)
    {
      assert kept[i] == fs[at[i]] && kept[j] == fs[at[j]];
    }
  }

  lemma AddKeeps(h: Hooks, fs: seq<Finding>, f: Finding, maxFindings: int)
    requires Deduplicated(h, fs) && |fs| <= Cap(maxFindings)
    ensures Deduplicated(h, Added(h, fs, f, maxFindings)) && |Added(h, fs, f, maxFindings)| <= Cap(maxFindings)
  {
    if !Known(h, fs, f.content) {
      var grown := fs + [f];
      assert Deduplicated(h, grown);
      forall i, j | 0 <= i < j < |grown| - 1 && !h.blank(grown[1..][i].content) && !h.blank(grown[1..][j].content)
        ensures !Duplicate(h, grown[1..][i].content, grown[1..][j].content)
      {
        assert grown[1..][i] == grown[i + 1] && grown[1..][j] == grown[j + 1];
      }
    }
  }

  /** Over any run of adds and deletes from the empty store: no two non-blank findings are duplicates under any of the
      three layers, in either order, and the store never outgrows its cap. */
  lemma {:induction false} RunStaysDeduplicated(h: Hooks, ops: seq<Op>, maxFindings: int)
    ensures var fs := Run(h, ops, maxFindings);
            Deduplicated(h, fs) && |fs| <= Cap(maxFindings)
  {
    if ops != [] {
      var before := Run(h, ops[..|ops| - 1], maxFindings);
      RunStaysDeduplicated(h, ops[..|ops| - 1], maxFindings);
      match ops[|ops| - 1]
      case AddOp(content, day, dated, hex) =>
        AddKeeps(h, before, Made(before, content, day, dated, hex), maxFindings);
      case DeleteOp(ids) =>
        FilterKeeps(h, before, NotIn(ids));
    }
  }

  // ---- ids over a run ----

  lemma SplitsAtDash(a: string, b: string, s: string, t: string)
    requires Digits(a) && Digits(b) && a + "-" + s == b + "-" + t
    ensures a == b && s == t
  {
    var x := a + "-" + s;
    assert x[|a|] == '-' && x[|b|] == '-';
    assert a == x[..|a|] && b == x[..|b|];
    assert forall i :: 0 <= i < |a| ==> IsDigit(x[i]);
    assert forall i :: 0 <= i < |b| ==> IsDigit(x[i]);
    assert |a| == |b|;
    assert s == x[|a| + 1..] && t == x[|b| + 1..];
  }

  lemma NumberPartInjective(m: nat, n: nat, hex: string, other: string)
    ensures NumberPart(m, hex) == NumberPart(n, other) <==> m == n && (m > 999 ==> hex == other)
  {
    PaddedDenotes(m, if m > 999 then 6 else 3);
    PaddedDenotes(n, if n > 999 then 6 else 3);
    DashIffLong(m, hex);
    DashIffLong(n, other);
    if NumberPart(m, hex) == NumberPart(n, other) && m > 999 {
      SplitsAtDash(Padded(m, 6), Padded(n, 6), hex, other);
    }
  }

  lemma DashIffLong(n: nat, hex: string)
    ensures Digits(NumberPart(n, hex)) <==> n <= 999
  {
    PaddedDenotes(n, if n > 999 then 6 else 3);
    if n > 999 {
      assert NumberPart(n, hex)[|Padded(n, 6)|] == '-';
    }
  }

  lemma IdInjective(day: string, m: nat, n: nat, hex: string, other: string)
    ensures IdFor(day, m, hex) == IdFor(day, n, other) <==> m == n && (m > 999 ==> hex == other)
  {
    SamePrefix(DayPrefix(day), NumberPart(m, hex), NumberPart(n, other));
    NumberPartInjective(m, n, hex, other);
  }

  lemma SamePrefix(p: string, a: string, b: string)
    ensures p + a == p + b <==> a == b
  {
    assert (p + a)[|p|..] == a && (p + b)[|p|..] == b;
  }

  /** An id tells its day, days being written with equally many characters. */
  lemma IdOnDay(day: string, other: string, n: nat, hex: string, f: Finding)
    requires |day| == |other| && f.id == IdFor(other, n, hex)
    ensures OnDay(day)(f) <==> day == other
  {
    var k := |DayPrefix(day)|;
    assert f.id[0..k] == f.id[..k] == DayPrefix(other);
    assert DayPrefix(day)[2..k - 1] == day && DayPrefix(other)[2..k - 1] == other;
  }

  /** Numbers and random suffixes of a day's findings, in order. */
  predicate NumbersOf(fs: seq<Finding>, day: string, ns: seq<nat>, hexes: seq<string>) {
    |ns| == |hexes| == |fs| && forall i :: 0 <= i < |fs| ==> fs[i].id == IdFor(day, ns[i], hexes[i])
  }

  /** The id that Add hands out next is new exactly when no finding of that day holds the number one above their
      count (past 999, with the same random suffix). */
  lemma NextIdIsNewIff(fs: seq<Finding>, day: string, ns: seq<nat>, hexes: seq<string>, hex: string)
    requires NumbersOf(fs, day, ns, hexes)
    ensures var next := |fs| + 1;
            (forall i :: 0 <= i < |fs| ==> fs[i].id != IdFor(day, next, hex)) <==>
            (forall i :: 0 <= i < |fs| && ns[i] == next ==> next > 999 && hexes[i] != hex)
  {
    forall i | 0 <= i < |fs|
      ensures fs[i].id == IdFor(day, |fs| + 1, hex) <==> ns[i] == |fs| + 1 && (ns[i] > 999 ==> hexes[i] == hex)
    {
      IdInjective(day, ns[i], |fs| + 1, hexes[i], hex);
    }
  }

  /** The operation would delete or evict a finding of the day. */
  predicate Loses(h: Hooks, fs: seq<Finding>, op: Op, maxFindings: int, day: string) {
    match op
    case AddOp(content, _, _, _) => !Known(h, fs, content) && |fs| >= Cap(maxFindings) && OnDay(day)(fs[0])
    case DeleteOp(ids) => exists i :: 0 <= i < |fs| && OnDay(day)(fs[i]) && fs[i].id in ids
  }

  function DayOf(fs: seq<Finding>, day: string): seq<Finding> {
    F.Filter(fs, OnDay(day))
  }

  /** Findings numbered 1, 2, 3, … in order. */
  ghost predicate CountedUp(fs: seq<Finding>, day: string) {
    forall i :: 0 <= i < |fs| ==> NumberedAs(fs[i], day, i + 1)
  }

  ghost predicate Consecutive(fs: seq<Finding>, day: string) {
    CountedUp(DayOf(fs, day), day)
  }

  ghost predicate NumberedAs(f: Finding, day: string, n: nat) {
    exists hex :: f.id == IdFor(day, n, hex)
  }

  lemma DayOfGrown(fs: seq<Finding>, f: Finding, day: string)
    ensures DayOf(fs + [f], day) == if OnDay(day)(f) then DayOf(fs, day) + [f] else DayOf(fs, day)
  {
    var all := fs + [f];
    F.Step(all, OnDay(day), |fs|);
    assert all[..|fs|] == fs && all[..|all|] == all;
  }

  lemma {:induction false} KeepsTheDay(fs: seq<Finding>, day: string, p: Finding -> bool)
    requires forall i :: 0 <= i < |fs| && OnDay(day)(fs[i]) ==> p(fs[i])
    ensures DayOf(F.Filter(fs, p), day) == DayOf(fs, day)
  {
    if fs != [] {
      var n := |fs| - 1;
      var kept := F.Filter(fs[..n], p);
      KeepsTheDay(fs[..n], day, p);
      assert fs == fs[..n] + [fs[n]];
      DayOfGrown(fs[..n], fs[n], day);
      DayOfGrown(kept, fs[n], day);
      assert F.Filter(fs, p) == if p(fs[n]) then kept + [fs[n]] else kept;
    }
  }

  lemma DropsAnotherDay(fs: seq<Finding>, day: string)
    requires fs != [] && !OnDay(day)(fs[0])
    ensures DayOf(fs[1..], day) == DayOf(fs, day)
  {
    assert fs == [fs[0]] + fs[1..];
    F.Distributes([fs[0]], fs[1..], OnDay(day));
    F.Uniform([fs[0]], OnDay(day), false);
  }

  lemma AddedOnDay(h: Hooks, fs: seq<Finding>, f: Finding, maxFindings: int, day: string)
    requires !Known(h, fs, f.content) && !(|fs| >= Cap(maxFindings) && OnDay(day)(fs[0]))
    ensures DayOf(Added(h, fs, f, maxFindings), day) == if OnDay(day)(f) then DayOf(fs, day) + [f] else DayOf(fs, day)
  {
    var grown := fs + [f];
    DayOfGrown(fs, f, day);
    if |grown| > Cap(maxFindings) {
      DropsAnotherDay(grown, day);
    }
  }

  lemma CountsOn(fs: seq<Finding>, f: Finding, day: string)
    requires CountedUp(fs, day) && NumberedAs(f, day, |fs| + 1)
    ensures CountedUp(fs + [f], day)
  {
  }

  lemma MadeIsNumbered(fs: seq<Finding>, op: Op)
    requires op.AddOp?
    ensures NumberedAs(Made(fs, op.content, op.day, op.dated, op.hex), op.day, |DayOf(fs, op.day)| + 1)
  {
  }

  lemma AddedNumbersOn(h: Hooks, fs: seq<Finding>, f: Finding, maxFindings: int, day: string)
    requires !Known(h, fs, f.content) && !(|fs| >= Cap(maxFindings) && OnDay(day)(fs[0]))
    requires Consecutive(fs, day) && (OnDay(day)(f) ==> NumberedAs(f, day, |DayOf(fs, day)| + 1))
    ensures Consecutive(Added(h, fs, f, maxFindings), day)
  {
    AddedOnDay(h, fs, f, maxFindings, day);
    if OnDay(day)(f) {
      CountsOn(DayOf(fs, day), f, day);
    }
  }

  lemma AddNumbersOn(h: Hooks, fs: seq<Finding>, op: Op, maxFindings: int, day: string)
    requires op.AddOp? && |op.day| == |day| && !Loses(h, fs, op, maxFindings, day) && Consecutive(fs, day)
    ensures Consecutive(After(h, fs, op, maxFindings), day)
  {
    if !Known(h, fs, op.content) {
      var f := Made(fs, op.content, op.day, op.dated, op.hex);
      IdOnDay(day, op.day, CountForDay(fs, op.day) + 1, op.hex, f);
      MadeIsNumbered(fs, op);
      AddedNumbersOn(h, fs, f, maxFindings, day);
    }
  }

  lemma DeleteNumbersOn(h: Hooks, fs: seq<Finding>, op: Op, maxFindings: int, day: string)
    requires op.DeleteOp? && !Loses(h, fs, op, maxFindings, day) && Consecutive(fs, day)
    ensures Consecutive(After(h, fs, op, maxFindings), day)
  {
    KeepsTheDay(fs, day, NotIn(op.ids));
  }

  /** No operation of the run deletes or evicts a finding of the day; days are written with equally many characters. */
  predicate NeverLoses(h: Hooks, ops: seq<Op>, maxFindings: int, day: string) {
    ops == [] ||
    (var n := |ops| - 1;
     && NeverLoses(h, ops[..n], maxFindings, day)
     && !Loses(h, Run(h, ops[..n], maxFindings), ops[n], maxFindings, day)
     && (ops[n].AddOp? ==> |ops[n].day| == |day|))
  }

  lemma StepNumbersOn(h: Hooks, fs: seq<Finding>, op: Op, maxFindings: int, day: string)
    requires !Loses(h, fs, op, maxFindings, day) && Consecutive(fs, day) && (op.AddOp? ==> |op.day| == |day|)
    ensures Consecutive(After(h, fs, op, maxFindings), day)
  {
    if op.AddOp? {
      AddNumbersOn(h, fs, op, maxFindings, day);
    } else {
      DeleteNumbersOn(h, fs, op, maxFindings, day);
    }
  }

  lemma {:induction false} RunNumbersOn(h: Hooks, ops: seq<Op>, maxFindings: int, day: string)
    requires NeverLoses(h, ops, maxFindings, day)
    ensures Consecutive(Run(h, ops, maxFindings), day)
  {
    if ops != [] {
      var n := |ops| - 1;
      RunNumbersOn(h, ops[..n], maxFindings, day);
      StepNumbersOn(h, Run(h, ops[..n], maxFindings), ops[n], maxFindings, day);
    }
  }

  /** As long as no finding of a day is deleted or evicted, the day's ids are pairwise different. */
  lemma IdsStayUnique(h: Hooks, ops: seq<Op>, maxFindings: int, day: string)
    requires NeverLoses(h, ops, maxFindings, day)
    ensures Distinct(DayOf(Run(h, ops, maxFindings), day))
  {
    RunNumbersOn(h, ops, maxFindings, day);
    CountedUpDiffer(DayOf(Run(h, ops, maxFindings), day), day);
  }

  lemma NumbersDiffer(f: Finding, g: Finding, day: string, m: nat, n: nat)
    requires NumberedAs(f, day, m) && NumberedAs(g, day, n) && m != n
    ensures f.id != g.id
  {
    var x :| f.id == IdFor(day, m, x);
    var y :| g.id == IdFor(day, n, y);
    IdInjective(day, m, n, x, y);
  }

  predicate Distinct(fs: seq<Finding>) {
    forall i, j :: 0 <= i < j < |fs| ==> fs[i].id != fs[j].id
  }

  lemma NumberedApart(fs: seq<Finding>, has: (Finding, nat) -> bool)
    requires forall i :: 0 <= i < |fs| ==> has(fs[i], i + 1)
    requires forall f, g, m, n :: has(f, m) && has(g, n) && m != n ==> f.id != g.id
    ensures Distinct(fs)
  {
  }

  lemma CountedUpDiffer(fs: seq<Finding>, day: string)
    requires CountedUp(fs, day)
    ensures Distinct(fs)
  {
    forall f, g, m: nat, n: nat | NumberedAs(f, day, m) && NumberedAs(g, day, n) && m != n ensures f.id != g.id {
      NumbersDiffer(f, g, day, m, n);
    }
    NumberedApart(fs, (f: Finding, n: nat) => NumberedAs(f, day, n));
  }

  /** Once a day's findings 1 to n are stored, deleting the first makes the next one take the id of the last: two stored
      findings then share it. */
  lemma DeletionReusesAnId(h: Hooks, fs: seq<Finding>, day: string, content: string, dated: string, hex: string, maxFindings: int)
    requires 2 <= |fs| <= Cap(maxFindings) && !Known(h, fs[1..], content)
    requires forall i :: 0 <= i < |fs| ==> OnDay(day)(fs[i]) && fs[i].id == IdFor(day, i + 1, hex)
    ensures var left := After(h, fs, DeleteOp([fs[0].id]), maxFindings);
            var reused := After(h, left, AddOp(content, day, dated, hex), maxFindings);
            && reused == fs[1..] + [Finding(fs[|fs| - 1].id, content, dated)]
            && reused[|fs| - 2].id == reused[|fs| - 1].id
  {
    forall i | 1 <= i < |fs| ensures fs[i].id != fs[0].id {
      IdInjective(day, i + 1, 1, hex, hex);
    }
    F.DropsHead(fs, NotIn([fs[0].id]));
    F.Uniform(fs[1..], OnDay(day), true);
    assert |fs[1..] + [Finding(fs[|fs| - 1].id, content, dated)]| <= Cap(maxFindings);
  }
}
