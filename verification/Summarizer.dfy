/** The sliding window over data rows, and the bounded list of findings it accumulates. */
module Summarizer {
  import opened Options
  import F = Filtering

  datatype Finding = Finding(description: string, severity: string, evidence: string)

  /** maxFindings is not negative and a window is not of negative size: the program panics on either. */
  datatype Config = Config(maxRecords: nat, overlapRatio: real, maxFindings: nat)

  /** What one window's answer parses to; None is a failed call. */
  datatype Reply = Reply(summary: string, newFindings: seq<Finding>)

  /** The model, given the running summary, the findings so far, the window's rows and its index; and the
      lower-casing and trimming applied to a severity. */
  datatype Hooks = Hooks(chat: (string, seq<Finding>, seq<string>, nat) -> Option<Reply>, fold: string -> string)

  datatype AnalyzeResult = AnalyzeResult(summary: string, findings: seq<Finding>, windows: nat)

  function Truncate(x: real): int {
    if x >= 0.0 then x.Floor else -((-x).Floor)
  }

  function StepOf(cfg: Config): (step: nat)
    ensures step >= 1
  {
    var step := cfg.maxRecords - Truncate(cfg.maxRecords as real * cfg.overlapRatio);
    if step < 1 then 1 else step
  }

  function TotalWindows(n: nat, step: nat): nat
    requires step >= 1
  {
    (n + step - 1) / step
  }

  // ---- findings ----

  predicate Important(h: Hooks, f: Finding) {
    h.fold(f.severity) in ["critical", "high", "medium"]
  }

  function IsHigh(h: Hooks): Finding -> bool {
    (f: Finding) => Important(h, f)
  }

  function Highs(h: Hooks, fs: seq<Finding>): seq<Finding> {
    F.Filter(fs, IsHigh(h))
  }

  function Lows(h: Hooks, fs: seq<Finding>): seq<Finding> {
    F.Filter(fs, F.Not(IsHigh(h)))
  }

  function Last<T>(s: seq<T>, k: nat): seq<T> {
    if |s| <= k then s else s[|s| - k..]
  }

  function Evicted(h: Hooks, fs: seq<Finding>, max: nat): seq<Finding> {
    if |fs| <= max then fs
    else
      var high, low := Highs(h, fs), Lows(h, fs);
      if |high| > max then Last(high, max) else high + Last(low, max - |high|)
  }

  method BySeverity(h: Hooks, fs: seq<Finding>) returns (high: seq<Finding>, low: seq<Finding>)
    ensures high == Highs(h, fs) && low == Lows(h, fs)
  {
    high, low := [], [];
    for i := 0 to |fs|
      invariant high == Highs(h, fs[..i]) && low == Lows(h, fs[..i])
    {
      F.Step(fs, IsHigh(h), i);
      F.Step(fs, F.Not(IsHigh(h)), i);
      if Important(h, fs[i]) {
        high := high + [fs[i]];
      } else {
        low := low + [fs[i]];
      }
    }
    assert fs[..|fs|] == fs;
  }

  method EvictFindings(h: Hooks, fs: seq<Finding>, max: nat) returns (kept: seq<Finding>)
    ensures kept == Evicted(h, fs, max)
  {
    if |fs| <= max {
      return fs;
    }
    var high, low := BySeverity(h, fs);
    var remaining := max - |high|;
    if remaining < 0 {
      return high[|high| - max..];
    }
    if remaining < |low| {
      low := low[|low| - remaining..];
    }
    kept := high + low;
  }

  /** kept holds the newest high findings of all, at most max, and in the room they leave the newest low ones. */
  predicate NewestOf(h: Hooks, all: seq<Finding>, kept: seq<Finding>, max: nat) {
    && |kept| <= max && |Highs(h, kept)| <= max
    && Highs(h, kept) == Last(Highs(h, all), max)
    && Lows(h, kept) == Last(Lows(h, all), max - |Highs(h, kept)|)
  }

  lemma RoomForAll(h: Hooks, fs: seq<Finding>, max: nat)
    requires |fs| <= max
    ensures NewestOf(h, fs, fs, max)
  {
    F.Splits(fs, IsHigh(h));
  }

  lemma RoomForHighs(h: Hooks, fs: seq<Finding>, max: nat)
    requires |fs| > max >= |Highs(h, fs)|
    ensures NewestOf(h, fs, Evicted(h, fs, max), max)
  {
    F.Splits(fs, IsHigh(h));
    F.Selects(fs, IsHigh(h));
    F.Selects(fs, F.Not(IsHigh(h)));
    F.Separates(Highs(h, fs), Last(Lows(h, fs), max - |Highs(h, fs)|), IsHigh(h));
  }

  lemma RoomForSome(h: Hooks, fs: seq<Finding>, max: nat)
    requires |Highs(h, fs)| > max
    ensures NewestOf(h, fs, Last(Highs(h, fs), max), max)
  {
    F.Selects(fs, IsHigh(h));
    var newest := Last(Highs(h, fs), max);
    F.Separates(newest, [], IsHigh(h));
    assert newest + [] == newest;
  }

  lemma EvictsOldest(h: Hooks, fs: seq<Finding>, max: nat)
    ensures NewestOf(h, fs, Evicted(h, fs, max), max)
  {
    F.Splits(fs, IsHigh(h));
    if |fs| <= max {
      RoomForAll(h, fs, max);
    } else if |Highs(h, fs)| > max {
      RoomForSome(h, fs, max);
    } else {
      RoomForHighs(h, fs, max);
    }
  }

  predicate Ranked(h: Hooks, f: Finding) {
    var severity := h.fold(f.severity);
    severity == "critical" || severity == "high" || severity == "medium"
  }

  predicate NoneHigh(h: Hooks, fs: seq<Finding>) {
    forall i :: 0 <= i < |fs| ==> !Ranked(h, fs[i])
  }

  predicate AllHigh(h: Hooks, fs: seq<Finding>) {
    forall i :: 0 <= i < |fs| ==> Ranked(h, fs[i])
  }

  lemma RankedIff(h: Hooks, f: Finding)
    ensures Ranked(h, f) <==> Important(h, f)
  {
  }

  lemma Kinds(h: Hooks, fs: seq<Finding>)
    ensures AllHigh(h, Highs(h, fs)) && NoneHigh(h, Lows(h, fs)) && |fs| == |Highs(h, fs)| + |Lows(h, fs)|
  {
    F.Selects(fs, IsHigh(h));
    F.Selects(fs, F.Not(IsHigh(h)));
    F.Splits(fs, IsHigh(h));
    forall f: Finding ensures Ranked(h, f) <==> IsHigh(h)(f) {
      RankedIff(h, f);
    }
  }

  lemma HighsThenOthers(h: Hooks, high: seq<Finding>, low: seq<Finding>, a: nat, b: nat)
    requires AllHigh(h, high) && NoneHigh(h, low)
    ensures var kept := Last(high, a) + Last(low, b);
            && AllHigh(h, kept[..|Last(high, a)|]) && NoneHigh(h, kept[|Last(high, a)|..])
            && |kept| == (if |high| < a then |high| else a) + (if |low| < b then |low| else b)
  {
    var kept := Last(high, a) + Last(low, b);
    assert kept[..|Last(high, a)|] == Last(high, a) && kept[|Last(high, a)|..] == Last(low, b);
  }

  /** Within the cap nothing moves; beyond it the high findings stand in front of the others. */
  lemma EvictedOrder(h: Hooks, fs: seq<Finding>, max: nat) returns (k: nat)
    ensures |fs| <= max ==> Evicted(h, fs, max) == fs
    ensures |fs| > max ==>
              var kept := Evicted(h, fs, max);
              k <= |kept| == max && AllHigh(h, kept[..k]) && NoneHigh(h, kept[k..])
  {
    var high, low := Highs(h, fs), Lows(h, fs);
    k := |Last(high, max)|;
    if |fs| > max {
      Kinds(h, fs);
      var room := if |high| > max then 0 else max - |high|;
      HighsThenOthers(h, high, low, max, room);
      assert Last(high, max) + [] == Last(high, max);
      assert Evicted(h, fs, max) == Last(high, max) + Last(low, room);
    }
  }

  lemma LastOfLast<T>(s: seq<T>, t: seq<T>, j: nat, k: nat)
    requires k <= j
    ensures Last(Last(s, j) + t, k) == Last(s + t, k)
  {
  }

  /** The findings kept after each window reported a batch. */
  function Accumulated(h: Hooks, batches: seq<seq<Finding>>, max: nat): seq<Finding> {
    if batches == [] then []
    else Evicted(h, Accumulated(h, batches[..|batches| - 1], max) + batches[|batches| - 1], max)
  }

  function Flat(batches: seq<seq<Finding>>): seq<Finding> {
    if batches == [] then [] else Flat(batches[..|batches| - 1]) + batches[|batches| - 1]
  }

  /** Evicting after every window comes to the same as evicting once at the end: what survives a run are the
      newest high findings of the whole run and, in the room left, the newest low ones. */
  lemma {:induction false} KeepsTheNewest(h: Hooks, batches: seq<seq<Finding>>, max: nat)
    ensures NewestOf(h, Flat(batches), Accumulated(h, batches, max), max)
  {
    if batches != [] {
      var n := |batches| - 1;
      KeepsTheNewest(h, batches[..n], max);
      OneMoreBatch(h, Accumulated(h, batches[..n], max), Flat(batches[..n]), batches[n], max);
    }
  }

  lemma OneMoreBatch(h: Hooks, before: seq<Finding>, all: seq<Finding>, batch: seq<Finding>, max: nat)
    requires NewestOf(h, all, before, max)
    ensures NewestOf(h, all + batch, Evicted(h, before + batch, max), max)
  {
    EvictsOldest(h, before + batch, max);
    F.Distributes(before, batch, IsHigh(h));
    F.Distributes(all, batch, IsHigh(h));
    F.Distributes(before, batch, F.Not(IsHigh(h)));
    F.Distributes(all, batch, F.Not(IsHigh(h)));
    LastOfLast(Highs(h, all), Highs(h, batch), max, max);
    var kept := Evicted(h, before + batch, max);
    assert |Highs(h, before)| <= |Highs(h, kept)|;
    LastOfLast(Lows(h, all), Lows(h, batch), max - |Highs(h, before)|, max - |Highs(h, kept)|);
  }

  /** No high finding is lost in a run that reports at most maxFindings of them. */
  lemma NoHighLost(h: Hooks, batches: seq<seq<Finding>>, max: nat)
    ensures |Highs(h, Flat(batches))| <= max <==> Highs(h, Accumulated(h, batches, max)) == Highs(h, Flat(batches))
  {
    KeepsTheNewest(h, batches, max);
    F.Splits(Accumulated(h, batches, max), IsHigh(h));
  }

  // ---- windows ----

  /** The first row after window k. */
  function EndOf(cfg: Config, n: nat, offset: nat): nat {
    if offset + cfg.maxRecords > n then n else offset + cfg.maxRecords
  }

  predicate InSpan(cfg: Config, n: nat, offset: nat, i: nat) {
    offset <= i < EndOf(cfg, n, offset)
  }

  predicate InWindow(cfg: Config, n: nat, k: nat, i: nat) {
    InSpan(cfg, n, k * StepOf(cfg), i)
  }

  ghost predicate Covered(cfg: Config, n: nat, i: nat) {
    exists k: nat :: k < TotalWindows(n, StepOf(cfg)) && InWindow(cfg, n, k, i)
  }

  lemma Quotient(i: nat, step: nat)
    requires step >= 1
    ensures (i / step) * step <= i < (i / step) * step + step
  {
  }

  lemma {:induction false} Product(k: nat, j: nat, step: nat)
    requires k < j
    ensures k * step + step <= j * step
    decreases j
  {
    assert j * step == (j - 1) * step + step;
    if k < j - 1 {
      Product(k, j - 1, step);
    }
  }

  /** The announced number of windows is the number of multiples of the step below n. */
  lemma WindowCount(n: nat, step: nat, k: nat)
    requires step >= 1
    ensures k < TotalWindows(n, step) <==> k * step < n
  {
    var total := TotalWindows(n, step);
    Quotient(n + step - 1, step);
    if k < total {
      Product(k, total, step);
    } else if k > total {
      Product(total, k, step);
    }
  }

  /** Every row is in some window exactly when windows are at least as long as the step, or one window is enough. */
  lemma CoverageIff(cfg: Config, n: nat)
    ensures (forall i :: 0 <= i < n ==> Covered(cfg, n, i)) <==> StepOf(cfg) <= cfg.maxRecords || n <= cfg.maxRecords
  {
    var step := StepOf(cfg);
    if step <= cfg.maxRecords {
      forall i | 0 <= i < n ensures Covered(cfg, n, i) {
        var k := i / step;
        Quotient(i, step);
        WindowCount(n, step, k);
        assert InWindow(cfg, n, k, i);
      }
    } else if n <= cfg.maxRecords {
      forall i | 0 <= i < n ensures Covered(cfg, n, i) {
        WindowCount(n, step, 0);
        assert InWindow(cfg, n, 0, i);
      }
    } else {
      var i := cfg.maxRecords;
      forall k: nat ensures !InWindow(cfg, n, k, i) {
        if k > 0 {
          Product(0, k, step);
        }
      }
      assert !Covered(cfg, n, i);
    }
  }

  /** With a window of at least one row and a ratio in [0, 1) the step never outruns the window. */
  lemma SaneStep(cfg: Config)
    requires cfg.maxRecords >= 1 && 0.0 <= cfg.overlapRatio < 1.0
    ensures 1 <= StepOf(cfg) <= cfg.maxRecords
    ensures StepOf(cfg) == cfg.maxRecords - Truncate(cfg.maxRecords as real * cfg.overlapRatio)
  {
    var x := cfg.maxRecords as real * cfg.overlapRatio;
    assert 0.0 <= x < cfg.maxRecords as real;
  }

  lemma FullSpansShare(cfg: Config, n: nat, offset: nat, step: nat, i: nat)
    requires step <= cfg.maxRecords && offset + step + cfg.maxRecords <= n
    ensures EndOf(cfg, n, offset) == offset + cfg.maxRecords
    ensures InSpan(cfg, n, offset, i) && InSpan(cfg, n, offset + step, i) <==> offset + step <= i < offset + cfg.maxRecords
  {
  }

  /** Two neighbouring full windows share exactly maxRecords - step rows: the first ones of the later window. */
  lemma FullNeighboursShare(cfg: Config, n: nat, k: nat, i: nat)
    requires StepOf(cfg) <= cfg.maxRecords && (k + 1) * StepOf(cfg) + cfg.maxRecords <= n
    ensures var offset := (k + 1) * StepOf(cfg);
            InWindow(cfg, n, k, i) && InWindow(cfg, n, k + 1, i) <==> offset <= i < offset + (cfg.maxRecords - StepOf(cfg))
  {
    var step := StepOf(cfg);
    assert (k + 1) * step == k * step + step;
    FullSpansShare(cfg, n, k * step, step, i);
  }

  /** The run after its first k windows: what it holds, and the batches reported, or None after a failed call. */
  datatype State = State(summary: string, findings: seq<Finding>, batches: seq<seq<Finding>>)

  function RowsOf(cfg: Config, rows: seq<string>, k: nat): seq<string> {
    var from := k * StepOf(cfg);
    if from <= |rows| then rows[from..EndOf(cfg, |rows|, from)] else []
  }

  function After(h: Hooks, cfg: Config, rows: seq<string>, k: nat): Option<State> {
    if k == 0 then Some(State("", [], []))
    else match After(h, cfg, rows, k - 1)
      case None => None
      case Some(s) =>
        match h.chat(s.summary, s.findings, RowsOf(cfg, rows, k - 1), k - 1)
        case None => None
        case Some(r) =>
          Some(State(r.summary, Evicted(h, s.findings + r.newFindings, cfg.maxFindings), s.batches + [r.newFindings]))
  }

  function Analyzed(h: Hooks, cfg: Config, rows: seq<string>): Option<AnalyzeResult> {
    if rows == [] then Some(AnalyzeResult("No data to analyze.", [], 0))
    else
      var total := TotalWindows(|rows|, StepOf(cfg));
      match After(h, cfg, rows, total)
      case None => None
      case Some(s) => Some(AnalyzeResult(s.summary, s.findings, total))
  }

  lemma {:induction false} FailsForGood(h: Hooks, cfg: Config, rows: seq<string>, k: nat, total: nat)
    requires k <= total && After(h, cfg, rows, k).None?
    ensures After(h, cfg, rows, total).None?
    decreases total - k
  {
    if k < total {
      FailsForGood(h, cfg, rows, k + 1, total);
    }
  }

  method NextWindow(h: Hooks, cfg: Config, rows: seq<string>, k: nat, offset: nat, summary: string, findings: seq<Finding>,
                    ghost batches: seq<seq<Finding>>) returns (reply: Option<Reply>, kept: seq<Finding>)
    requires offset == k * StepOf(cfg) < |rows|
    requires After(h, cfg, rows, k) == Some(State(summary, findings, batches))
    ensures reply.None? ==> After(h, cfg, rows, k + 1).None?
    ensures reply.Some? ==>
              After(h, cfg, rows, k + 1) == Some(State(reply.value.summary, kept, batches + [reply.value.newFindings]))
  {
    var end := offset + cfg.maxRecords;
    if end > |rows| {
      end := |rows|;
    }
    assert rows[offset..end] == RowsOf(cfg, rows, k);
    reply := h.chat(summary, findings, rows[offset..end], k);
    kept := [];
    if reply.Some? {
      kept := EvictFindings(h, findings + reply.value.newFindings, cfg.maxFindings);
    }
  }

  /** The loop before the window at offset: what the run so far holds. */
  ghost predicate AtWindow(h: Hooks, cfg: Config, rows: seq<string>, index: nat, offset: nat, summary: string,
                           findings: seq<Finding>, batches: seq<seq<Finding>>)
  {
    && offset == index * StepOf(cfg) && index <= TotalWindows(|rows|, StepOf(cfg))
    && After(h, cfg, rows, index) == Some(State(summary, findings, batches))
  }

  lemma OneStepOn(index: nat, step: nat)
    ensures (index + 1) * step == index * step + step
  {
  }

  /** One turn of the loop; done tells that the model failed, and then the analysis fails. */
  method TakeWindow(h: Hooks, cfg: Config, rows: seq<string>, index: nat, offset: nat, step: nat, summary: string,
                    findings: seq<Finding>, ghost batches: seq<seq<Finding>>)
    returns (failed: bool, newSummary: string, kept: seq<Finding>, ghost more: seq<seq<Finding>>)
    requires step == StepOf(cfg) && offset < |rows| && AtWindow(h, cfg, rows, index, offset, summary, findings, batches)
    ensures failed ==> Analyzed(h, cfg, rows).None?
    ensures !failed ==> AtWindow(h, cfg, rows, index + 1, offset + step, newSummary, kept, more)
    ensures index < TotalWindows(|rows|, step)
  {
    WindowCount(|rows|, step, index);
    var reply;
    reply, kept := NextWindow(h, cfg, rows, index, offset, summary, findings, batches);
    failed, newSummary, more := reply.None?, "", [];
    if failed {
      FailsForGood(h, cfg, rows, index + 1, TotalWindows(|rows|, step));
    } else {
      newSummary, more := reply.value.summary, batches + [reply.value.newFindings];
      OneStepOn(index, step);
    }
  }

  lemma WindowsEnd(h: Hooks, cfg: Config, rows: seq<string>, index: nat, offset: nat, summary: string,
                   findings: seq<Finding>, batches: seq<seq<Finding>>)
    requires rows != [] && offset >= |rows| && AtWindow(h, cfg, rows, index, offset, summary, findings, batches)
    ensures Analyzed(h, cfg, rows) == Some(AnalyzeResult(summary, findings, index))
  {
    WindowCount(|rows|, StepOf(cfg), index);
  }

  method Analyze(h: Hooks, cfg: Config, rows: seq<string>) returns (res: Option<AnalyzeResult>)
    ensures res == Analyzed(h, cfg, rows)
    ensures rows == [] ==> res == Some(AnalyzeResult("No data to analyze.", [], 0))
  {
    if |rows| == 0 {
      return Some(AnalyzeResult("No data to analyze.", [], 0));
    }
    var step := StepOf(cfg);
    var summary, findings, index, offset := "", [], 0, 0;
    ghost var batches := [];
    while offset < |rows|
      invariant 0 <= index && 0 <= offset && AtWindow(h, cfg, rows, index, offset, summary, findings, batches)
      decreases TotalWindows(|rows|, step) - index
    {
      var failed, newSummary, kept;
      ghost var more;
      failed, newSummary, kept, more := TakeWindow(h, cfg, rows, index, offset, step, summary, findings, batches);
      if failed {
        return None;
      }
      summary, findings, batches := newSummary, kept, more;
      index, offset := index + 1, offset + step;
    }
    WindowsEnd(h, cfg, rows, index, offset, summary, findings, batches);
    res := Some(AnalyzeResult(summary, findings, index));
  }

  lemma {:induction false} BatchesAccumulate(h: Hooks, cfg: Config, rows: seq<string>, k: nat)
    requires After(h, cfg, rows, k).Some?
    ensures var s := After(h, cfg, rows, k).value;
            |s.batches| == k && s.findings == Accumulated(h, s.batches, cfg.maxFindings)
  {
    if k > 0 {
      BatchesAccumulate(h, cfg, rows, k - 1);
      var s := After(h, cfg, rows, k).value;
      assert s.batches[..k - 1] == After(h, cfg, rows, k - 1).value.batches;
    }
  }

  /** A finished analysis went through exactly the announced windows and kept the newest important findings of all
      that its windows reported, within the cap. */
  lemma AnalysisKeepsTheNewest(h: Hooks, cfg: Config, rows: seq<string>)
    requires rows != [] && Analyzed(h, cfg, rows).Some?
    ensures var res := Analyzed(h, cfg, rows).value;
            var reported := Flat(After(h, cfg, rows, res.windows).value.batches);
            && res.windows == TotalWindows(|rows|, StepOf(cfg))
            && |After(h, cfg, rows, res.windows).value.batches| == res.windows
            && NewestOf(h, reported, res.findings, cfg.maxFindings)
  {
    var total := TotalWindows(|rows|, StepOf(cfg));
    BatchesAccumulate(h, cfg, rows, total);
    KeepsTheNewest(h, After(h, cfg, rows, total).value.batches, cfg.maxFindings);
  }

  // ---- what the model is shown

  /** The rows a window is given are exactly the rows in it, in order. */
  lemma WindowShowsItsRows(cfg: Config, rows: seq<string>, k: nat)
    requires k < TotalWindows(|rows|, StepOf(cfg))
    ensures var w, from := RowsOf(cfg, rows, k), k * StepOf(cfg);
            && (forall i: nat :: InWindow(cfg, |rows|, k, i) <==> from <= i < from + |w|)
            && (forall i: nat :: InWindow(cfg, |rows|, k, i) ==> w[i - from] == rows[i])
  {
    WindowCount(|rows|, StepOf(cfg), k);
  }

  function SummaryOf(replies: seq<Reply>): string {
    if replies == [] then "" else replies[|replies| - 1].summary
  }

  function FindingsOf(h: Hooks, cfg: Config, replies: seq<Reply>): seq<Finding> {
    Accumulated(h, Batches(replies), cfg.maxFindings)
  }

  function Batches(replies: seq<Reply>): seq<seq<Finding>> {
    seq(|replies|, (i: nat) requires i < |replies| => replies[i].newFindings)
  }

  /** What window |replies| is answered when these were the answers before: it is shown the summary of the last of them,
      the findings kept from all of them, and its own rows. */
  function Answer(h: Hooks, cfg: Config, rows: seq<string>, replies: seq<Reply>): Option<Reply> {
    h.chat(SummaryOf(replies), FindingsOf(h, cfg, replies), RowsOf(cfg, rows, |replies|), |replies|)
  }

  /** Each was the answer to the ones before it. */
  predicate InTurn(answer: seq<Reply> -> Option<Reply>, replies: seq<Reply>) {
    forall k :: 0 <= k < |replies| ==> answer(replies[..k]) == Some(replies[k])
  }

  lemma OneMoreTurn(answer: seq<Reply> -> Option<Reply>, before: seq<Reply>, reply: Reply)
    ensures InTurn(answer, before + [reply]) <==> InTurn(answer, before) && answer(before) == Some(reply)
  {
    var all := before + [reply];
    assert forall k :: 0 <= k < |before| ==> all[..k] == before[..k] && all[k] == before[k];
    assert all[..|before|] == before && all[|before|] == reply;
    if InTurn(answer, all) {
      forall k | 0 <= k < |before| ensures answer(before[..k]) == Some(before[k]) {
        assert answer(all[..k]) == Some(all[k]);
      }
    }
  }

  function Asking(h: Hooks, cfg: Config, rows: seq<string>): seq<Reply> -> Option<Reply> {
    (replies: seq<Reply>) => Answer(h, cfg, rows, replies)
  }

  predicate Answers(h: Hooks, cfg: Config, rows: seq<string>, replies: seq<Reply>) {
    InTurn(Asking(h, cfg, rows), replies)
  }

  function StateOf(h: Hooks, cfg: Config, replies: seq<Reply>): State {
    State(SummaryOf(replies), FindingsOf(h, cfg, replies), Batches(replies))
  }

  lemma OneMoreAnswer(h: Hooks, cfg: Config, before: seq<Reply>, reply: Reply)
    ensures StateOf(h, cfg, before + [reply]) ==
            State(reply.summary, Evicted(h, FindingsOf(h, cfg, before) + reply.newFindings, cfg.maxFindings),
                  Batches(before) + [reply.newFindings])
  {
    var bs := Batches(before) + [reply.newFindings];
    assert Batches(before + [reply]) == bs;
    assert bs[..|before|] == Batches(before);
  }

  lemma RunGoesOn(h: Hooks, cfg: Config, rows: seq<string>, before: seq<Reply>)
    requires After(h, cfg, rows, |before|) == Some(StateOf(h, cfg, before))
    ensures var reply := Answer(h, cfg, rows, before);
            After(h, cfg, rows, |before| + 1) ==
            if reply.None? then None else Some(StateOf(h, cfg, before + [reply.value]))
  {
    var reply := Answer(h, cfg, rows, before);
    if reply.Some? {
      OneMoreAnswer(h, cfg, before, reply.value);
    }
  }

  /** What holds of no answers, and goes on holding with each answer, holds of all. */
  lemma {:induction false} AnswerByAnswer(answer: seq<Reply> -> Option<Reply>, holds: seq<Reply> -> bool, replies: seq<Reply>)
    requires holds([]) && InTurn(answer, replies)
    requires forall before, r :: holds(before) && answer(before) == Some(r) ==> holds(before + [r])
    ensures holds(replies)
  {
    if replies != [] {
      var before, last := replies[..|replies| - 1], replies[|replies| - 1];
      assert replies == before + [last];
      OneMoreTurn(answer, before, last);
      AnswerByAnswer(answer, holds, before);
    } else {
      assert replies == [];
    }
  }

  predicate Reached(h: Hooks, cfg: Config, rows: seq<string>, replies: seq<Reply>) {
    After(h, cfg, rows, |replies|) == Some(StateOf(h, cfg, replies))
  }

  lemma ReachesNext(h: Hooks, cfg: Config, rows: seq<string>, before: seq<Reply>, r: Reply)
    requires Reached(h, cfg, rows, before) && Answer(h, cfg, rows, before) == Some(r)
    ensures Reached(h, cfg, rows, before + [r])
  {
    RunGoesOn(h, cfg, rows, before);
  }

  lemma AnswersAreTheRun(h: Hooks, cfg: Config, rows: seq<string>, replies: seq<Reply>)
    requires Answers(h, cfg, rows, replies)
    ensures Reached(h, cfg, rows, replies)
  {
    var holds := (rs: seq<Reply>) => Reached(h, cfg, rows, rs);
    forall before, r | holds(before) && Asking(h, cfg, rows)(before) == Some(r) ensures holds(before + [r]) {
      ReachesNext(h, cfg, rows, before, r);
    }
    AnswerByAnswer(Asking(h, cfg, rows), holds, replies);
  }

  /** The answers up to window k, or up to the first that is not answered. */
  predicate AnsweredUpTo(h: Hooks, cfg: Config, rows: seq<string>, k: nat, replies: seq<Reply>) {
    && Answers(h, cfg, rows, replies) && |replies| <= k
    && (|replies| == k <==> After(h, cfg, rows, k).Some?)
    && (|replies| < k ==> Answer(h, cfg, rows, replies).None?)
  }

  lemma StopsForGood(h: Hooks, cfg: Config, rows: seq<string>, k: nat, replies: seq<Reply>)
    requires AnsweredUpTo(h, cfg, rows, k, replies) && |replies| < k
    ensures AnsweredUpTo(h, cfg, rows, k + 1, replies)
  {
    FailsForGood(h, cfg, rows, k, k + 1);
  }

  lemma OneMoreWindow(h: Hooks, cfg: Config, rows: seq<string>, before: seq<Reply>) returns (replies: seq<Reply>)
    requires Answers(h, cfg, rows, before)
    ensures AnsweredUpTo(h, cfg, rows, |before| + 1, replies)
  {
    AnswersAreTheRun(h, cfg, rows, before);
    RunGoesOn(h, cfg, rows, before);
    replies := before;
    var reply := Answer(h, cfg, rows, before);
    if reply.Some? {
      OneMoreTurn(Asking(h, cfg, rows), before, reply.value);
      replies := before + [reply.value];
    }
  }

  lemma NextAnswer(h: Hooks, cfg: Config, rows: seq<string>, k: nat, before: seq<Reply>) returns (replies: seq<Reply>)
    requires AnsweredUpTo(h, cfg, rows, k, before)
    ensures AnsweredUpTo(h, cfg, rows, k + 1, replies)
  {
    if |before| == k {
      replies := OneMoreWindow(h, cfg, rows, before);
    } else {
      StopsForGood(h, cfg, rows, k, before);
      replies := before;
    }
  }

  lemma NoAnswerYet(h: Hooks, cfg: Config, rows: seq<string>)
    ensures AnsweredUpTo(h, cfg, rows, 0, [])
  {
  }

  /** The run got through its first k windows exactly if all of them were answered. */
  lemma {:induction false} RunIsAnswered(h: Hooks, cfg: Config, rows: seq<string>, k: nat) returns (replies: seq<Reply>)
    ensures AnsweredUpTo(h, cfg, rows, k, replies)
  {
    if k == 0 {
      NoAnswerYet(h, cfg, rows);
      replies := [];
    } else {
      var before := RunIsAnswered(h, cfg, rows, k - 1);
      replies := NextAnswer(h, cfg, rows, k - 1, before);
    }
  }

  /** An analysis succeeds exactly if every announced window, shown what the windows before it left and its own rows, is
      answered; what it returns is the last summary and the findings kept from all answers. */
  lemma AnalyzedIff(h: Hooks, cfg: Config, rows: seq<string>, res: AnalyzeResult)
    requires rows != []
    ensures Analyzed(h, cfg, rows) == Some(res) <==>
            exists replies :: Answers(h, cfg, rows, replies) && |replies| == TotalWindows(|rows|, StepOf(cfg)) &&
                              res == AnalyzeResult(SummaryOf(replies), FindingsOf(h, cfg, replies), |replies|)
  {
    var total := TotalWindows(|rows|, StepOf(cfg));
    forall replies | Answers(h, cfg, rows, replies) && |replies| == total
      ensures Analyzed(h, cfg, rows) == Some(AnalyzeResult(SummaryOf(replies), FindingsOf(h, cfg, replies), total))
    {
      AnswersAreTheRun(h, cfg, rows, replies);
    }
    if Analyzed(h, cfg, rows).Some? {
      var replies := RunIsAnswered(h, cfg, rows, total);
      AnswersAreTheRun(h, cfg, rows, replies);
    }
  }
}
