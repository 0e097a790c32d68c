/** Assembling the message list for one model call from a session's records. */
module ContextBuild {
  import opened Options
  import opened Records
  import opened SummaryCache
  import opened Text
  import F = Filtering
  import J = Jaccard
  import opened Sorting

  /** A token estimate; the empty string costs nothing. */
  type Estimator = f: string -> nat | f("") == 0 witness (s: string) => |s|

  /** The callbacks and library functions a build calls. A wrap or summary of None is an error. */
  datatype Hooks = Hooks(
    tok: Estimator,
    tokenSet: string -> set<string>,
    stamp: int -> string,
    prefix: Option<int -> string>,
    wrap: Option<string -> Option<string>>,
    anchorLine: Option<string -> Option<string>>,
    blank: string -> bool,
    summarize: (string, seq<Proj>) -> Option<string>)

  datatype Settings = Settings(
    systemPrompt: string, maxContext: int, reserve: int, maxTool: int, farShare: real, nearShare: real,
    anchorThreshold: real, deadThreshold: real, anchorFacts: seq<string>, deadFacts: seq<string>,
    liveFacts: seq<string>, summarizerID: string)

  datatype Speaker = System | Of(role: Role)

  datatype Message = Message(
    speaker: Speaker, content: string, toolName: string, toolCallID: string, calls: seq<ToolCall>,
    objectIDs: seq<string>)

  datatype Result = Result(
    messages: seq<Message>, totalTokens: nat, includedRaw: nat, summarizedSpan: nat, usedCache: bool,
    nearSpan: nat, farSpan: nat, nearHit: bool, farHit: bool, anchored: nat, dropped: nat)

  const RECENT_GAP := 30 * 60 * 1_000_000_000

  function Or(x: real, fallback: real): real {
    if x <= 0.0 then fallback else x
  }

  function Resolved(o: Settings): (r: Settings)
    ensures r.farShare > 0.0 && r.nearShare > 0.0 && r.anchorThreshold > 0.0 && r.deadThreshold > 0.0
  {
    o.(farShare := Or(o.farShare, 0.05), nearShare := Or(o.nearShare, 0.15),
       anchorThreshold := Or(o.anchorThreshold, 0.4), deadThreshold := Or(o.deadThreshold, 0.4))
  }

  // ---- rendering one record ----

  function Truncated(h: Hooks, text: string, max: int): (r: string)
    ensures r == text || (|r| == 4 * max < |text| && h.tok(text) > max > 0)
  {
    if max <= 0 || h.tok(text) <= max || max * 4 >= |text| then text
    else
      var suffix := "\n... [truncated, " + Dec(|text|) + " bytes total]";
      if max * 4 <= |suffix| then text[..max * 4] else text[..max * 4 - |suffix|] + suffix
  }

  predicate ShouldAnnotate(rs: seq<Record>, i: nat)
    requires i < |rs|
  {
    rs[i].role.Tool? || rs[i].role.Report? || (i > 0 && rs[i].ts - rs[i - 1].ts > RECENT_GAP)
  }

  function AnchorLines(lookup: string -> Option<string>, ids: seq<string>): string {
    if ids == [] then ""
    else (match lookup(ids[0]) case Some(line) => line + "\n" case None => "") + AnchorLines(lookup, ids[1..])
  }

  /** What the model reads for record i, or None when the guard fails. */
  function Rendered(h: Hooks, o: Settings, rs: seq<Record>, i: nat): Option<string>
    requires i < |rs|
  {
    var r := rs[i];
    var cut := if r.role.Tool? then Truncated(h, r.content, o.maxTool) else r.content;
    var wrapped := if h.wrap.Some? && (r.role.User? || r.role.Tool?) then h.wrap.value(cut) else Some(cut);
    match wrapped
    case None => None
    case Some(body) =>
      var dated := if r.role.User? && h.prefix.Some? && r.ts != 0 then h.prefix.value(r.ts) + "\n\n" + body else body;
      var marked := if ShouldAnnotate(rs, i) then "[" + h.stamp(r.ts) + "]\n" + dated else dated;
      Some(if r.role.User? && h.anchorLine.Some? then AnchorLines(h.anchorLine.value, r.documentIDs) + marked else marked)
  }

  function ToMessage(r: Record, content: string): Message {
    Message(Of(r.role), content, r.toolName, r.toolCallID, r.calls, r.objectIDs)
  }

  function Tokens(h: Hooks, ms: seq<Message>): nat {
    if ms == [] then 0 else h.tok(ms[0].content) + Tokens(h, ms[1..])
  }

  // ---- choosing what goes where ----

  predicate IsLegacy(r: Record) {
    r.role.Summary?
  }

  predicate IsRaw(r: Record) {
    !r.role.Summary? && !(r.role.Assistant? && HasPrefix(r.content, "[Calling:")) && !r.role.Report?
  }

  function Available(h: Hooks, o: Settings): nat {
    var a := o.maxContext - h.tok(o.systemPrompt) - o.reserve;
    if a < 0 then 0 else a
  }

  function RawBudget(h: Hooks, o: Settings): int {
    var a := Available(h, o);
    if o.maxContext > 0 then a - (a as real * o.farShare).Floor - (a as real * o.nearShare).Floor else a
  }

  datatype Window = Window(start: nat, messages: seq<Message>, used: nat)

  /** The walk from the newest record to the oldest: the records before w.start are still ahead. */
  function Walk(h: Hooks, o: Settings, raw: seq<Record>, w: Window): (r: Option<Window>)
    requires w.start <= |raw|
    ensures r.Some? ==> r.value.start <= w.start
    decreases w.start
  {
    if w.start == 0 then Some(w)
    else
      var i := w.start - 1;
      match Rendered(h, o, raw, i)
      case None => None
      case Some(text) =>
        var used := w.used + h.tok(text);
        if o.maxContext > 0 && used > RawBudget(h, o) && w.messages != [] then Some(w)
        else Walk(h, o, raw, Window(i, [ToMessage(raw[i], text)] + w.messages, used))
  }

  function RawWindow(h: Hooks, o: Settings, raw: seq<Record>): (r: Option<Window>)
    ensures r.Some? ==> r.value.start <= |raw|
  {
    Walk(h, o, raw, Window(|raw|, [], 0))
  }

  /** Some fact's tokens overlap the content's at least as much as the threshold asks. */
  predicate Matches(h: Hooks, content: string, facts: seq<string>, threshold: real) {
    && content != "" && threshold > 0.0 && h.tokenSet(content) != {}
    && exists j :: 0 <= j < |facts| && Match(h, content, facts[j], threshold)
  }

  predicate Match(h: Hooks, content: string, fact: string, threshold: real) {
    h.tokenSet(fact) != {} && J.Score(h.tokenSet(content), h.tokenSet(fact)) >= threshold
  }

  function IsAnchor(h: Hooks, o: Settings): Record -> bool {
    (r: Record) => Matches(h, r.content, o.anchorFacts, o.anchorThreshold)
  }

  function IsDead(h: Hooks, o: Settings): Record -> bool {
    (r: Record) => Matches(h, r.content, o.deadFacts, o.deadThreshold) && !Matches(h, r.content, o.liveFacts, o.deadThreshold)
  }

  /** The dead facts a dropped record matches. */
  function FactHits(h: Hooks, content: string, facts: seq<string>, threshold: real): set<string> {
    set j | 0 <= j < |facts| && J.Score(h.tokenSet(content), h.tokenSet(facts[j])) >= threshold :: facts[j]
  }

  function Hits(h: Hooks, o: Settings, rs: seq<Record>): set<string> {
    if rs == [] then {}
    else
      var r := rs[|rs| - 1];
      Hits(h, o, rs[..|rs| - 1]) + if IsDead(h, o)(r) then FactHits(h, r.content, o.deadFacts, o.deadThreshold) else {}
  }

  /** One order of a set's elements; ranging over a Go map may produce any other. */
  ghost function Listed(s: set<string>): (r: seq<string>)
    ensures multiset(r) == multiset(s)
  {
    if s == {} then [] else
      var x :| x in s;
      [x] + Listed(s - {x})
  }

  method FilterRecords(records: seq<Record>) returns (raw: seq<Record>, legacy: seq<Record>)
    ensures raw == F.Filter(records, IsRaw) && legacy == F.Filter(records, IsLegacy)
  {
    raw, legacy := [], [];
    for i := 0 to |records|
      invariant raw == F.Filter(records[..i], IsRaw) && legacy == F.Filter(records[..i], IsLegacy)
    {
      var r := records[i];
      F.Step(records, IsRaw, i);
      F.Step(records, IsLegacy, i);
      if r.role.Summary? {
        legacy := legacy + [r];
        continue;
      }
      if r.role.Assistant? && HasPrefix(r.content, "[Calling:") {
        continue;
      }
      if r.role.Report? {
        continue;
      }
      raw := raw + [r];
    }
    assert records[..|records|] == records;
  }

  method WalkWindow(h: Hooks, o: Settings, raw: seq<Record>) returns (w: Option<Window>)
    ensures w == RawWindow(h, o, raw)
  {
    var budget := RawBudget(h, o);
    var acc := Window(|raw|, [], 0);
    while acc.start > 0
      invariant acc.start <= |raw|
      invariant RawWindow(h, o, raw) == Walk(h, o, raw, acc)
      decreases acc.start
    {
      var i := acc.start - 1;
      var text := Rendered(h, o, raw, i);
      if text.None? {
        return None;
      }
      var used := acc.used + h.tok(text.value);
      if o.maxContext > 0 && used > budget && |acc.messages| > 0 {
        break;
      }
      acc := Window(i, [ToMessage(raw[i], text.value)] + acc.messages, used);
    }
    w := Some(acc);
  }

  method LiftAnchors(h: Hooks, o: Settings, candidates: seq<Record>)
    returns (anchors: seq<Record>, at: seq<nat>, remaining: seq<Record>)
    ensures anchors == F.Filter(candidates, IsAnchor(h, o))
    ensures at == F.Positions(candidates, IsAnchor(h, o))
    ensures remaining == F.Filter(candidates, F.Not(IsAnchor(h, o)))
  {
    var p := IsAnchor(h, o);
    if |o.anchorFacts| == 0 || o.anchorThreshold <= 0.0 {
      F.Uniform(candidates, p, false);
      F.Uniform(candidates, F.Not(p), true);
      return [], [], candidates;
    }
    anchors, at, remaining := [], [], [];
    for i := 0 to |candidates|
      invariant anchors == F.Filter(candidates[..i], p)
      invariant at == F.Positions(candidates[..i], p)
      invariant remaining == F.Filter(candidates[..i], F.Not(p))
    {
      F.Step(candidates, p, i);
      F.Step(candidates, F.Not(p), i);
      if p(candidates[i]) {
        anchors, at := anchors + [candidates[i]], at + [i];
      } else {
        remaining := remaining + [candidates[i]];
      }
    }
    assert candidates[..|candidates|] == candidates;
  }

  method ListOf(s: set<string>) returns (r: seq<string>)
    ensures multiset(r) == multiset(s)
  {
    r := [];
    var left := s;
    while left != {}
      invariant multiset(r) + multiset(left) == multiset(s)
      decreases |left|
    {
      var x :| x in left;
      assert multiset(left) == multiset(left - {x}) + multiset{x};
      r, left := r + [x], left - {x};
    }
  }

  lemma NoHits(h: Hooks, o: Settings, rs: seq<Record>)
    requires forall i :: 0 <= i < |rs| ==> !IsDead(h, o)(rs[i])
    ensures Hits(h, o, rs) == {}
  {
    if rs != [] {
      NoHits(h, o, rs[..|rs| - 1]);
    }
  }

  lemma HitsStep(h: Hooks, o: Settings, rs: seq<Record>, i: nat)
    requires i < |rs|
    ensures IsDead(h, o)(rs[i]) ==>
              Hits(h, o, rs[..i + 1]) == Hits(h, o, rs[..i]) + FactHits(h, rs[i].content, o.deadFacts, o.deadThreshold)
    ensures !IsDead(h, o)(rs[i]) ==> Hits(h, o, rs[..i + 1]) == Hits(h, o, rs[..i])
  {
    assert rs[..i + 1][..i] == rs[..i];
  }

  lemma DropStep(h: Hooks, o: Settings, rs: seq<Record>, i: nat)
    requires i < |rs|
    ensures var p := IsDead(h, o);
            && (p(rs[i]) ==> F.Filter(rs[..i + 1], F.Not(p)) == F.Filter(rs[..i], F.Not(p)) &&
                             |F.Filter(rs[..i + 1], p)| == |F.Filter(rs[..i], p)| + 1)
            && (!p(rs[i]) ==> F.Filter(rs[..i + 1], F.Not(p)) == F.Filter(rs[..i], F.Not(p)) + [rs[i]] &&
                              |F.Filter(rs[..i + 1], p)| == |F.Filter(rs[..i], p)|)
  {
    F.Step(rs, IsDead(h, o), i);
    F.Step(rs, F.Not(IsDead(h, o)), i);
  }

  lemma NothingDead(h: Hooks, o: Settings, rs: seq<Record>)
    requires |o.deadFacts| == 0 || o.deadThreshold <= 0.0
    ensures F.Filter(rs, F.Not(IsDead(h, o))) == rs && F.Filter(rs, IsDead(h, o)) == [] && Hits(h, o, rs) == {}
  {
    F.Uniform(rs, IsDead(h, o), false);
    F.Uniform(rs, F.Not(IsDead(h, o)), true);
    NoHits(h, o, rs);
  }

  method DropDeadTopics(h: Hooks, o: Settings, candidates: seq<Record>)
    returns (kept: seq<Record>, dropped: nat, fingerprints: seq<string>)
    ensures kept == F.Filter(candidates, F.Not(IsDead(h, o)))
    ensures dropped == |F.Filter(candidates, IsDead(h, o))|
    ensures multiset(fingerprints) == multiset(Hits(h, o, candidates))
  {
    if |o.deadFacts| == 0 || o.deadThreshold <= 0.0 {
      NothingDead(h, o, candidates);
      return candidates, 0, [];
    }
    var p := IsDead(h, o);
    var hit: set<string>;
    kept, dropped, hit := [], 0, {};
    for i := 0 to |candidates|
      invariant kept == F.Filter(candidates[..i], F.Not(p))
      invariant dropped == |F.Filter(candidates[..i], p)|
      invariant hit == Hits(h, o, candidates[..i])
    {
      DropStep(h, o, candidates, i);
      HitsStep(h, o, candidates, i);
      if !p(candidates[i]) {
        kept := kept + [candidates[i]];
      } else {
        dropped := dropped + 1;
        hit := hit + FactHits(h, candidates[i].content, o.deadFacts, o.deadThreshold);
      }
    }
    assert candidates[..|candidates|] == candidates;
    fingerprints := ListOf(hit);
  }

  // ---- the summary tiers ----

  function SummaryHeader(h: Hooks, from: int, to: int, count: nat): string {
    "[Summary of " + Dec(count) + " earlier turn(s) \U{2014} from " + h.stamp(from) + " to " + h.stamp(to) + "]"
  }

  function TierBlock(h: Hooks, tier: string, input: seq<Record>, dropped: nat, summary: string): string {
    var n := |input|;
    var head := if n > 0 then "[tier=" + tier + "] " + SummaryHeader(h, input[0].ts, input[n - 1].ts, n) + "\n"
                else "[tier=" + tier + "]\n";
    var body := head + if summary != "" then summary
                       else if n > 0 then "[summary unavailable \U{2014} " + Dec(n) + " records elided]" else "";
    if dropped == 0 then body
    else body + (if body[|body| - 1] != '\n' then "\n" else "") + "[" + Dec(dropped) + " dead-topic turns suppressed]"
  }

  /** A summary worth keeping: one that was produced and is not blank. */
  function Usable(h: Hooks, s: Option<string>): Option<string> {
    if s.Some? && !h.blank(s.value) then s else None
  }

  datatype Store = Store(entries: seq<Entry>, maxItems: int)

  datatype Tier = Tier(block: string, hit: bool, store: Option<Store>)

  function Fresh(a: Input, summary: string, now: int): Entry
    requires a.records != []
  {
    var n := |a.records|;
    Stamped(Entry(Key(a), CONTENT_V2, a.tier, a.summarizerID, a.records[0].ts, a.records[n - 1].ts, n, summary, now), now)
  }

  function TierOf(h: Hooks, a: Input, dropped: nat, store: Option<Store>, now: int): Tier {
    if a.records == [] && dropped == 0 then Tier("", false, store)
    else
      var found := if store.Some? then Lookup(store.value.entries, Key(a)) else None;
      if found.Some? then Tier(TierBlock(h, a.tier, a.records, dropped, found.value.summary), true, store)
      else if a.records == [] then Tier(TierBlock(h, a.tier, a.records, dropped, ""), false, store)
      else match Usable(h, h.summarize(a.summarizerID, Projs(a.records)))
        case None => Tier(TierBlock(h, a.tier, a.records, dropped, ""), false, store)
        case Some(text) =>
          var after := if store.None? then None else
            var m := store.value.maxItems;
            Some(Store(Stored(store.value.entries, Fresh(a, text, now), m), m));
          Tier(TierBlock(h, a.tier, a.records, dropped, text), false, after)
  }

  ghost function StoreOf(cache: Cache?): Option<Store>
    reads cache
  {
    if cache == null then None else Some(Store(cache.entries, cache.maxItems))
  }

  method AssembleTier(h: Hooks, a: Input, dropped: nat, cache: Cache?, now: int)
    returns (block: string, hit: bool, span: nat)
    modifies if cache == null then {} else {cache}
    ensures span == |a.records|
    ensures Tier(block, hit, StoreOf(cache)) == TierOf(h, a, dropped, old(StoreOf(cache)), now)
  {
    var n := |a.records|;
    if n == 0 && dropped == 0 {
      return "", false, 0;
    }
    var key := ComputeContentKey(a.records, a.summarizerID, a.dead, a.anchors, a.tier);
    var entry: Option<Entry> := None;
    if cache != null {
      entry := cache.Get(key);
    }
    var summary := "";
    if entry.Some? {
      summary, hit := entry.value.summary, true;
    } else {
      hit := false;
      if n > 0 {
        var out := h.summarize(a.summarizerID, Projs(a.records));
        if out.Some? && !h.blank(out.value) {
          summary := out.value;
          if cache != null {
            cache.Put(Entry(key, CONTENT_V2, a.tier, a.summarizerID, a.records[0].ts, a.records[n - 1].ts, n, summary, now), now);
          }
        }
      }
    }
    block, span := TierBlock(h, a.tier, a.records, dropped, summary), n;
  }

  // ---- the whole build ----

  /** Where every raw record goes. */
  datatype Plan = Plan(
    legacy: seq<Record>, raw: seq<Record>, window: Window, anchors: seq<Record>, anchorAt: seq<nat>,
    dropped: nat, far: seq<Record>, near: seq<Record>)

  function Unanchored(h: Hooks, o: Settings, raw: seq<Record>, start: nat): seq<Record>
    requires start <= |raw|
  {
    F.Filter(raw[..start], F.Not(IsAnchor(h, o)))
  }

  function PlanOf(h: Hooks, o: Settings, records: seq<Record>): (r: Option<Plan>)
    ensures r.Some? ==> r.value.window.start <= |r.value.raw|
  {
    var raw := F.Filter(records, IsRaw);
    match RawWindow(h, o, raw)
    case None => None
    case Some(w) =>
      var rest := Unanchored(h, o, raw, w.start);
      var kept := F.Filter(rest, F.Not(IsDead(h, o)));
      Some(Plan(F.Filter(records, IsLegacy), raw, w, F.Filter(raw[..w.start], IsAnchor(h, o)),
                F.Positions(raw[..w.start], IsAnchor(h, o)), |F.Filter(rest, IsDead(h, o))|,
                kept[..|kept| / 2], kept[|kept| / 2..]))
  }

  ghost function Fingerprints(h: Hooks, o: Settings, p: Plan): seq<string>
    requires p.window.start <= |p.raw|
  {
    Listed(Hits(h, o, Unanchored(h, o, p.raw, p.window.start)))
  }

  ghost function InputOf(h: Hooks, o: Settings, p: Plan, tier: string): Input
    requires p.window.start <= |p.raw|
  {
    Input(if tier == "far" then p.far else p.near, o.summarizerID, Fingerprints(h, o, p), p.anchorAt, tier)
  }

  function SystemMessages(o: Settings): seq<Message> {
    if o.systemPrompt == "" then [] else [Message(System, o.systemPrompt, "", "", [], [])]
  }

  function SummaryMessage(text: string): Message {
    Message(Of(Summary), text, "", "", [], [])
  }

  function LegacyMessages(h: Hooks, rs: seq<Record>): seq<Message> {
    if rs == [] then []
    else
      var r := rs[|rs| - 1];
      LegacyMessages(h, rs[..|rs| - 1]) + [SummaryMessage(SummaryHeader(h, r.ts, r.ts, 1) + "\n" + r.content)]
  }

  function BlockMessages(block: string): seq<Message> {
    if block == "" then [] else [SummaryMessage(block)]
  }

  /** Records rendered one after the other, each against its neighbour in rs. */
  function Verbatim(h: Hooks, o: Settings, rs: seq<Record>, n: nat): Option<seq<Message>>
    requires n <= |rs|
  {
    if n == 0 then Some([])
    else match (Verbatim(h, o, rs, n - 1), Rendered(h, o, rs, n - 1))
      case (Some(ms), Some(text)) => Some(ms + [ToMessage(rs[n - 1], text)])
      case _ => None
  }

  ghost function FarTier(h: Hooks, o: Settings, p: Plan, store: Option<Store>, now: int): Tier
    requires p.window.start <= |p.raw|
  {
    TierOf(h, InputOf(h, o, p, "far"), p.dropped, store, now)
  }

  ghost function NearTier(h: Hooks, o: Settings, p: Plan, store: Option<Store>, now: int): Tier
    requires p.window.start <= |p.raw|
  {
    TierOf(h, InputOf(h, o, p, "near"), 0, store, now)
  }

  /** Everything between the system prompt and the raw window. */
  function History(h: Hooks, p: Plan, far: string, near: string, anchors: seq<Message>): seq<Message> {
    LegacyMessages(h, p.legacy) + BlockMessages(far) + BlockMessages(near) + anchors
  }

  datatype Blocks = Blocks(far: string, farHit: bool, near: string, nearHit: bool)

  function Composed(h: Hooks, o: Settings, p: Plan, b: Blocks, anchors: seq<Message>): Result {
    var older := History(h, p, b.far, b.near, anchors);
    Result(
      SystemMessages(o) + older + p.window.messages,
      p.window.used + Tokens(h, older) + h.tok(o.systemPrompt),
      |p.window.messages|, |p.near| + |p.far|, (|p.near| == 0 || b.nearHit) && (|p.far| == 0 || b.farHit),
      |p.near|, |p.far|, b.nearHit, b.farHit, |p.anchors|, p.dropped)
  }

  function Finished(h: Hooks, o: Settings, p: Plan, b: Blocks): Option<Result> {
    match Verbatim(h, o, p.anchors, |p.anchors|)
    case None => None
    case Some(anchors) => Some(Composed(h, o, p, b, anchors))
  }

  datatype Outcome = Outcome(result: Option<Result>, store: Option<Store>)

  ghost function BuiltFrom(h: Hooks, o: Settings, p: Plan, store: Option<Store>, now: int): Outcome
    requires p.window.start <= |p.raw|
  {
    var far := FarTier(h, o, p, store, now);
    var near := NearTier(h, o, p, far.store, now);
    Outcome(Finished(h, o, p, Blocks(far.block, far.hit, near.block, near.hit)), near.store)
  }

  ghost function Built(h: Hooks, settings: Settings, records: seq<Record>, store: Option<Store>, now: int): Outcome {
    var o := Resolved(settings);
    if records == [] then
      Outcome(Some(Result(SystemMessages(o), h.tok(o.systemPrompt), 0, 0, false, 0, 0, false, false, 0, 0)), store)
    else match PlanOf(h, o, records)
      case None => Outcome(None, store)
      case Some(p) => BuiltFrom(h, o, p, store, now)
  }

  lemma {:induction false} TokensAppend(h: Hooks, a: seq<Message>, b: seq<Message>)
    ensures Tokens(h, a + b) == Tokens(h, a) + Tokens(h, b)
  {
    if a == [] {
      assert a + b == b;
    } else {
      TokensAppend(h, a[1..], b);
      assert (a + b)[1..] == a[1..] + b;
    }
  }

  lemma TokensOne(h: Hooks, m: Message)
    ensures Tokens(h, [m]) == h.tok(m.content)
  {
    assert [m][1..] == [];
  }

  method AppendLegacy(h: Hooks, rs: seq<Record>) returns (ms: seq<Message>, used: nat)
    ensures ms == LegacyMessages(h, rs) && used == Tokens(h, ms)
  {
    ms, used := [], 0;
    for i := 0 to |rs|
      invariant ms == LegacyMessages(h, rs[..i]) && used == Tokens(h, ms)
    {
      var m := SummaryMessage(SummaryHeader(h, rs[i].ts, rs[i].ts, 1) + "\n" + rs[i].content);
      assert rs[..i + 1][..i] == rs[..i];
      TokensAppend(h, ms, [m]);
      TokensOne(h, m);
      ms, used := ms + [m], used + h.tok(m.content);
    }
    assert rs[..|rs|] == rs;
  }

  method AppendAnchors(h: Hooks, o: Settings, rs: seq<Record>) returns (ms: Option<seq<Message>>, used: nat)
    ensures ms == Verbatim(h, o, rs, |rs|) && (ms.Some? ==> used == Tokens(h, ms.value))
  {
    var acc: seq<Message> := [];
    used := 0;
    for i := 0 to |rs|
      invariant Verbatim(h, o, rs, i) == Some(acc) && used == Tokens(h, acc)
    {
      var text := Rendered(h, o, rs, i);
      if text.None? {
        VerbatimFails(h, o, rs, i + 1, |rs|);
        return None, used;
      }
      var m := ToMessage(rs[i], text.value);
      TokensAppend(h, acc, [m]);
      TokensOne(h, m);
      acc, used := acc + [m], used + h.tok(m.content);
    }
    ms := Some(acc);
  }

  lemma {:induction false} VerbatimFails(h: Hooks, o: Settings, rs: seq<Record>, i: nat, n: nat)
    requires i <= n <= |rs| && Verbatim(h, o, rs, i).None?
    ensures Verbatim(h, o, rs, n).None?
    decreases n - i
  {
    if i < n {
      VerbatimFails(h, o, rs, i + 1, n);
    }
  }

  /** The order in which the dead facts are listed does not reach the tier. */
  lemma TierIgnoresOrder(h: Hooks, a: Input, b: Input, dropped: nat, store: Option<Store>, now: int)
    requires multiset(a.dead) == multiset(b.dead) && a.(dead := b.dead) == b
    ensures TierOf(h, a, dropped, store, now) == TierOf(h, b, dropped, store, now)
  {
    StringOrder();
    SortCanonical(a.dead, b.dead, StringLe);
    assert Key(a) == Key(b);
  }

  method PlanRecords(h: Hooks, o: Settings, records: seq<Record>) returns (plan: Option<Plan>, fingerprints: seq<string>)
    ensures plan == PlanOf(h, o, records)
    ensures plan.Some? ==> multiset(fingerprints) == multiset(Fingerprints(h, o, plan.value))
  {
    var raw, legacy := FilterRecords(records);
    var w := WalkWindow(h, o, raw);
    if w.None? {
      return None, [];
    }
    var anchors, anchorAt, rest := LiftAnchors(h, o, raw[..w.value.start]);
    var kept, dropped, fps := DropDeadTopics(h, o, rest);
    plan := Some(Plan(legacy, raw, w.value, anchors, anchorAt, dropped, kept[..|kept| / 2], kept[|kept| / 2..]));
    fingerprints := fps;
  }

  method AssembleOlder(h: Hooks, legacy: seq<Record>, far: string, near: string) returns (ms: seq<Message>, used: nat)
    ensures ms == LegacyMessages(h, legacy) + BlockMessages(far) + BlockMessages(near) && used == Tokens(h, ms)
  {
    ms, used := AppendLegacy(h, legacy);
    if far != "" {
      var m := SummaryMessage(far);
      TokensAppend(h, ms, [m]);
      TokensOne(h, m);
      ms, used := ms + [m], used + h.tok(far);
    }
    if near != "" {
      var m := SummaryMessage(near);
      TokensAppend(h, ms, [m]);
      TokensOne(h, m);
      ms, used := ms + [m], used + h.tok(near);
    }
  }

  method AssembleTiers(h: Hooks, o: Settings, p: Plan, fingerprints: seq<string>, cache: Cache?, now: int)
    returns (b: Blocks)
    requires p.window.start <= |p.raw|
    requires multiset(fingerprints) == multiset(Fingerprints(h, o, p))
    modifies if cache == null then {} else {cache}
    ensures var far := FarTier(h, o, p, old(StoreOf(cache)), now);
            var near := NearTier(h, o, p, far.store, now);
            b == Blocks(far.block, far.hit, near.block, near.hit) && StoreOf(cache) == near.store
  {
    var farInput := Input(p.far, o.summarizerID, fingerprints, p.anchorAt, "far");
    TierIgnoresOrder(h, farInput, InputOf(h, o, p, "far"), p.dropped, StoreOf(cache), now);
    var farBlock, farHit, _ := AssembleTier(h, farInput, p.dropped, cache, now);
    var nearInput := Input(p.near, o.summarizerID, fingerprints, p.anchorAt, "near");
    TierIgnoresOrder(h, nearInput, InputOf(h, o, p, "near"), 0, StoreOf(cache), now);
    var nearBlock, nearHit, _ := AssembleTier(h, nearInput, 0, cache, now);
    b := Blocks(farBlock, farHit, nearBlock, nearHit);
  }

  method Assemble(h: Hooks, o: Settings, p: Plan, b: Blocks) returns (res: Option<Result>)
    ensures res == Finished(h, o, p, b)
  {
    var older, used := AssembleOlder(h, p.legacy, b.far, b.near);
    var lifted, anchorTokens := AppendAnchors(h, o, p.anchors);
    if lifted.None? {
      return None;
    }
    TokensAppend(h, older, lifted.value);
    var msgs := SystemMessages(o) + (older + lifted.value) + p.window.messages;
    res := Some(Result(
      msgs, p.window.used + (used + anchorTokens) + h.tok(o.systemPrompt), |p.window.messages|,
      |p.near| + |p.far|, (|p.near| == 0 || b.nearHit) && (|p.far| == 0 || b.farHit),
      |p.near|, |p.far|, b.nearHit, b.farHit, |p.anchors|, p.dropped));
  }

  method BuildFrom(h: Hooks, o: Settings, p: Plan, fingerprints: seq<string>, cache: Cache?, now: int)
    returns (res: Option<Result>)
    requires p.window.start <= |p.raw|
    requires multiset(fingerprints) == multiset(Fingerprints(h, o, p))
    modifies if cache == null then {} else {cache}
    ensures Outcome(res, StoreOf(cache)) == BuiltFrom(h, o, p, old(StoreOf(cache)), now)
  {
    var b := AssembleTiers(h, o, p, fingerprints, cache, now);
    res := Assemble(h, o, p, b);
  }

  method Build(h: Hooks, settings: Settings, records: seq<Record>, cache: Cache?, now: int) returns (res: Option<Result>)
    modifies if cache == null then {} else {cache}
    ensures Outcome(res, StoreOf(cache)) == Built(h, settings, records, old(StoreOf(cache)), now)
  {
    var o := Resolved(settings);
    if |records| == 0 {
      return Some(Result(SystemMessages(o), h.tok(o.systemPrompt), 0, 0, false, 0, 0, false, false, 0, 0));
    }
    var plan, fingerprints := PlanRecords(h, o, records);
    if plan.None? {
      return None;
    }
    res := BuildFrom(h, o, plan.value, fingerprints, cache, now);
  }
}
