/** The order in which a build emits its messages, and what each of them stands for. */
module ContextOrder {
  import opened ContextBuild
  import opened ContextGuarantees
  import opened ContextTexts
  import opened Options
  import opened Records
  import opened SummaryCache
  import F = Filtering

  predicate IsSummary(m: Message, content: string) {
    m == Message(Of(Summary), content, "", "", [], [])
  }

  /** One message, the prompt, exactly if there is one. */
  predicate PromptPart(prompt: string, part: seq<Message>) {
    |part| == CountOf(prompt != "") && (prompt != "" ==> part[0] == Message(System, prompt, "", "", [], []))
  }

  /** One message per legacy summary record, in their order. */
  predicate LegacyPart(h: Hooks, legacy: seq<Record>, part: seq<Message>) {
    |part| == |legacy| && forall k :: 0 <= k < |part| ==>
      IsSummary(part[k], SummaryHeader(h, legacy[k].ts, legacy[k].ts, 1) + "\n" + legacy[k].content)
  }

  /** One message telling of these records, in this text, and of the dropped ones, exactly if there are any of either. */
  predicate TierPart(h: Hooks, tier: string, rs: seq<Record>, dropped: nat, text: string, part: seq<Message>) {
    && |part| == CountOf(|rs| + dropped > 0)
    && (part != [] ==> IsSummary(part[0], TierBlock(h, tier, rs, dropped, text)))
  }

  /** One message per record of rs from start on, in their order. */
  predicate VerbatimPart(h: Hooks, o: Settings, rs: seq<Record>, start: nat, part: seq<Message>) {
    && start <= |rs| && |part| == |rs| - start
    && forall k :: 0 <= k < |part| ==> Shows(h, o, rs, start + k, part[k]) && CarriesOver(rs[start + k], part[k])
  }

  /** Besides the text a message takes over role, tool name, call id, calls and objects. */
  predicate CarriesOver(r: Record, m: Message) {
    && m.speaker == Of(r.role) && m.toolName == r.toolName && m.toolCallID == r.toolCallID && m.calls == r.calls
    && m.objectIDs == r.objectIDs
  }

  /** The records ahead of the raw window that are neither anchors nor dropped. */
  function Kept(h: Hooks, o: Settings, older: seq<Record>): seq<Record> {
    F.Filter(F.Filter(older, F.Not(IsAnchor(h, o))), F.Not(IsDead(h, o)))
  }

  function DroppedOf(h: Hooks, o: Settings, older: seq<Record>): nat {
    |F.Filter(F.Filter(older, F.Not(IsAnchor(h, o))), IsDead(h, o))|
  }

  /** Where the parts of the messages end: prompt, legacy summaries, far tier, near tier, anchors; the raw window is
      the rest. And the texts the two tiers tell. */
  datatype Cuts = Cuts(prompt: nat, legacy: nat, far: nat, near: nat, anchors: nat, farText: string, nearText: string)

  /** The messages are those six parts, in this order, the tiers telling of the older and the newer half of what is
      kept of the records ahead of the window. */
  predicate InOrder(h: Hooks, o: Settings, records: seq<Record>, window: nat, ms: seq<Message>, c: Cuts) {
    var raw := F.Filter(records, IsRaw);
    && window <= |raw| && 0 <= c.prompt <= c.legacy <= c.far <= c.near <= c.anchors <= |ms|
    && var older := raw[..|raw| - window];
       var kept := Kept(h, o, older);
       && PromptPart(o.systemPrompt, ms[..c.prompt])
       && LegacyPart(h, F.Filter(records, IsLegacy), ms[c.prompt..c.legacy])
       && TierPart(h, "far", kept[..|kept| / 2], DroppedOf(h, o, older), c.farText, ms[c.legacy..c.far])
       && TierPart(h, "near", kept[|kept| / 2..], 0, c.nearText, ms[c.far..c.near])
       && VerbatimPart(h, o, F.Filter(older, IsAnchor(h, o)), 0, ms[c.near..c.anchors])
       && VerbatimPart(h, o, raw, |raw| - window, ms[c.anchors..])
  }

  lemma {:induction false} LegacyShown(h: Hooks, rs: seq<Record>)
    ensures LegacyPart(h, rs, LegacyMessages(h, rs))
  {
    if rs != [] {
      LegacyShown(h, rs[..|rs| - 1]);
    }
  }

  lemma {:induction false} VerbatimShown(h: Hooks, o: Settings, rs: seq<Record>, n: nat)
    requires n <= |rs| && Verbatim(h, o, rs, n).Some?
    ensures |Verbatim(h, o, rs, n).value| == n
    ensures forall k :: 0 <= k < n ==> Shows(h, o, rs, k, Verbatim(h, o, rs, n).value[k])
  {
    if n > 0 {
      VerbatimShown(h, o, rs, n - 1);
    }
  }

  lemma AnchorsShown(h: Hooks, o: Settings, rs: seq<Record>)
    requires Verbatim(h, o, rs, |rs|).Some?
    ensures VerbatimPart(h, o, rs, 0, Verbatim(h, o, rs, |rs|).value)
  {
    VerbatimShown(h, o, rs, |rs|);
    var part := Verbatim(h, o, rs, |rs|).value;
    forall k | 0 <= k < |part| ensures Shows(h, o, rs, 0 + k, part[k]) {
    }
  }

  lemma WindowShown(h: Hooks, o: Settings, raw: seq<Record>, w: Window)
    requires Holds(h, o, raw, w)
    ensures VerbatimPart(h, o, raw, w.start, w.messages)
  {
  }

  lemma TierShown(h: Hooks, a: Input, dropped: nat, store: Option<Store>, now: int) returns (text: string)
    ensures TierPart(h, a.tier, a.records, dropped, text, BlockMessages(TierOf(h, a, dropped, store, now).block))
    ensures store.None? ==> text == SummaryOf(h, a.summarizerID, a.records) && TierOf(h, a, dropped, store, now).store.None?
  {
    BlockShown(h, a, dropped, store, now);
    text := SummaryOf(h, a.summarizerID, a.records);
    if store.None? {
      if a.records != [] || dropped > 0 {
        TierTellsItsRecords(h, a, dropped, now);
      }
    } else if a.records != [] || dropped > 0 {
      text :| TierOf(h, a, dropped, store, now).block == TierBlock(h, a.tier, a.records, dropped, text);
    }
  }

  lemma PromptShown(o: Settings)
    ensures PromptPart(o.systemPrompt, SystemMessages(o))
  {
  }

  /** Six lists one after the other can be cut apart again. */
  lemma SixParts<T>(a: seq<T>, b: seq<T>, c: seq<T>, d: seq<T>, e: seq<T>, f: seq<T>, farText: string, nearText: string)
    returns (at: Cuts)
    ensures var all := a + (b + c + d + e) + f;
            && 0 <= at.prompt <= at.legacy <= at.far <= at.near <= at.anchors <= |all|
            && all[..at.prompt] == a && all[at.prompt..at.legacy] == b && all[at.legacy..at.far] == c
            && all[at.far..at.near] == d && all[at.near..at.anchors] == e && all[at.anchors..] == f
    ensures at.farText == farText && at.nearText == nearText
  {
    at := Cuts(|a|, |a| + |b|, |a| + |b| + |c|, |a| + |b| + |c| + |d|, |a| + |b| + |c| + |d| + |e|, farText, nearText);
  }

  lemma PartsInOrder(h: Hooks, o: Settings, records: seq<Record>, window: nat, a: seq<Message>, b: seq<Message>,
                     c: seq<Message>, d: seq<Message>, e: seq<Message>, f: seq<Message>, farText: string,
                     nearText: string) returns (at: Cuts)
    requires window <= |F.Filter(records, IsRaw)|
    requires var raw := F.Filter(records, IsRaw);
             var older := raw[..|raw| - window];
             var kept := Kept(h, o, older);
             && PromptPart(o.systemPrompt, a) && LegacyPart(h, F.Filter(records, IsLegacy), b)
             && TierPart(h, "far", kept[..|kept| / 2], DroppedOf(h, o, older), farText, c)
             && TierPart(h, "near", kept[|kept| / 2..], 0, nearText, d)
             && VerbatimPart(h, o, F.Filter(older, IsAnchor(h, o)), 0, e)
             && VerbatimPart(h, o, raw, |raw| - window, f)
    ensures InOrder(h, o, records, window, a + (b + c + d + e) + f, at)
    ensures at.farText == farText && at.nearText == nearText
  {
    at := SixParts(a, b, c, d, e, f, farText, nearText);
  }

  /** What the plan's groups are. */
  lemma PlanParts(h: Hooks, o: Settings, records: seq<Record>)
    requires PlanOf(h, o, records).Some?
    ensures var p := PlanOf(h, o, records).value;
            var older := p.raw[..p.window.start];
            && p.raw == F.Filter(records, IsRaw) && p.legacy == F.Filter(records, IsLegacy)
            && |p.window.messages| == |p.raw| - p.window.start
            && VerbatimPart(h, o, p.raw, p.window.start, p.window.messages)
            && p.anchors == F.Filter(older, IsAnchor(h, o)) && p.dropped == DroppedOf(h, o, older)
            && p.far == Kept(h, o, older)[..|Kept(h, o, older)| / 2]
            && p.near == Kept(h, o, older)[|Kept(h, o, older)| / 2..]
  {
    var p := PlanOf(h, o, records).value;
    WindowIsLongest(h, o, p.raw);
    WindowShown(h, o, p.raw, p.window);
  }

  /** The two tiers tell what the summarizer makes of exactly the records they stand for. */
  predicate TellsSummaries(h: Hooks, o: Settings, records: seq<Record>, window: nat, c: Cuts) {
    var raw := F.Filter(records, IsRaw);
    && window <= |raw|
    && var kept := Kept(h, o, raw[..|raw| - window]);
       && c.farText == SummaryOf(h, o.summarizerID, kept[..|kept| / 2])
       && c.nearText == SummaryOf(h, o.summarizerID, kept[|kept| / 2..])
  }

  lemma PlannedInOrder(h: Hooks, o: Settings, records: seq<Record>, store: Option<Store>, now: int) returns (c: Cuts)
    requires PlanOf(h, o, records).Some? && BuiltFrom(h, o, PlanOf(h, o, records).value, store, now).result.Some?
    ensures var res := BuiltFrom(h, o, PlanOf(h, o, records).value, store, now).result.value;
            && InOrder(h, o, records, res.includedRaw, res.messages, c)
            && (store.None? ==> TellsSummaries(h, o, records, res.includedRaw, c))
  {
    var p := PlanOf(h, o, records).value;
    var far := FarTier(h, o, p, store, now);
    var near := NearTier(h, o, p, far.store, now);
    PlanParts(h, o, records);
    PromptShown(o);
    LegacyShown(h, p.legacy);
    var farText := TierShown(h, InputOf(h, o, p, "far"), p.dropped, store, now);
    var nearText := TierShown(h, InputOf(h, o, p, "near"), 0, far.store, now);
    AnchorsShown(h, o, p.anchors);
    c := PartsInOrder(h, o, records, |p.window.messages|, SystemMessages(o), LegacyMessages(h, p.legacy),
                      BlockMessages(far.block), BlockMessages(near.block),
                      Verbatim(h, o, p.anchors, |p.anchors|).value, p.window.messages, farText, nearText);
  }

  /** What a build reports of the parts. */
  predicate Reports(h: Hooks, o: Settings, records: seq<Record>, res: Result) {
    var raw := F.Filter(records, IsRaw);
    && res.includedRaw <= |raw|
    && var older := raw[..|raw| - res.includedRaw];
       var kept := |Kept(h, o, older)|;
       && res.farSpan == kept / 2 && res.nearSpan == kept - kept / 2 && res.summarizedSpan == kept
       && res.anchored == |F.Filter(older, IsAnchor(h, o))| && res.dropped == DroppedOf(h, o, older)
       && (res.usedCache <==> (kept / 2 == 0 || res.farHit) && (kept - kept / 2 == 0 || res.nearHit))
  }

  lemma CountsOfThePlan(h: Hooks, o: Settings, p: Plan, store: Option<Store>, now: int)
    requires p.window.start <= |p.raw| && BuiltFrom(h, o, p, store, now).result.Some?
    ensures var res := BuiltFrom(h, o, p, store, now).result.value;
            && res.includedRaw == |p.window.messages| && res.farSpan == |p.far| && res.nearSpan == |p.near|
            && res.summarizedSpan == |p.near| + |p.far| && res.anchored == |p.anchors| && res.dropped == p.dropped
            && (res.usedCache <==> (|p.near| == 0 || res.nearHit) && (|p.far| == 0 || res.farHit))
  {
  }

  /** The counts of the parts that the records ahead of row start make for. */
  lemma CountsReport(h: Hooks, o: Settings, records: seq<Record>, start: nat, res: Result)
    requires start <= |F.Filter(records, IsRaw)| && res.includedRaw == |F.Filter(records, IsRaw)| - start
    requires var older := F.Filter(records, IsRaw)[..start];
             var kept := |Kept(h, o, older)|;
             && res.farSpan == kept / 2 && res.nearSpan == kept - kept / 2 && res.summarizedSpan == kept
             && res.anchored == |F.Filter(older, IsAnchor(h, o))| && res.dropped == DroppedOf(h, o, older)
             && (res.usedCache <==> (kept / 2 == 0 || res.farHit) && (kept - kept / 2 == 0 || res.nearHit))
    ensures Reports(h, o, records, res)
  {
    assert |F.Filter(records, IsRaw)| - res.includedRaw == start;
  }

  lemma PlannedReports(h: Hooks, o: Settings, records: seq<Record>, store: Option<Store>, now: int)
    requires PlanOf(h, o, records).Some? && BuiltFrom(h, o, PlanOf(h, o, records).value, store, now).result.Some?
    ensures Reports(h, o, records, BuiltFrom(h, o, PlanOf(h, o, records).value, store, now).result.value)
  {
    var p := PlanOf(h, o, records).value;
    PlanParts(h, o, records);
    CountsOfThePlan(h, o, p, store, now);
    CountsReport(h, o, records, p.window.start, BuiltFrom(h, o, p, store, now).result.value);
  }

  lemma BuildsItsPlan(h: Hooks, settings: Settings, records: seq<Record>, store: Option<Store>, now: int)
    requires records != [] && Built(h, settings, records, store, now).result.Some?
    ensures var plan := PlanOf(h, Resolved(settings), records);
            plan.Some? && Built(h, settings, records, store, now) == BuiltFrom(h, Resolved(settings), plan.value, store, now)
  {
  }

  /** Whatever the budget, the cache and the summarizer, a build emits the prompt, the legacy summaries, the older
      half's summary, the newer half's, the anchors and the raw window, in this order and each in the order of the
      records, and reports how many records went into each. Without a cache the summaries are those of the halves. */
  lemma MessagesInOrder(h: Hooks, settings: Settings, records: seq<Record>, store: Option<Store>, now: int)
    returns (c: Cuts)
    requires records != [] && Built(h, settings, records, store, now).result.Some?
    ensures var res := Built(h, settings, records, store, now).result.value;
            && InOrder(h, Resolved(settings), records, res.includedRaw, res.messages, c)
            && Reports(h, Resolved(settings), records, res)
            && (store.None? ==> TellsSummaries(h, Resolved(settings), records, res.includedRaw, c))
  {
    var o := Resolved(settings);
    BuildsItsPlan(h, settings, records, store, now);
    PlannedReports(h, o, records, store, now);
    c := PlannedInOrder(h, o, records, store, now);
  }

  /** A session without records makes for the prompt alone, and touches no cache. */
  lemma NothingButThePrompt(h: Hooks, settings: Settings, store: Option<Store>, now: int)
    ensures var built := Built(h, settings, [], store, now);
            && built.store == store && built.result.Some?
            && var res := built.result.value;
               && PromptPart(settings.systemPrompt, res.messages) && res.totalTokens == h.tok(settings.systemPrompt)
               && res.includedRaw == res.summarizedSpan == res.nearSpan == res.farSpan == res.anchored == res.dropped == 0
               && !res.usedCache && !res.nearHit && !res.farHit
  {
    PromptShown(Resolved(settings));
  }

  // ---- when a build fails

  /** A walk that ends with a window has rendered the record it stopped at. */
  lemma {:induction false} StopsRendered(h: Hooks, o: Settings, raw: seq<Record>, w: Window)
    requires w.start <= |raw| && Walk(h, o, raw, w).Some?
    ensures var v := Walk(h, o, raw, w).value;
            v.start > 0 ==> Rendered(h, o, raw, v.start - 1).Some?
    decreases w.start
  {
    if w.start > 0 {
      var i := w.start - 1;
      var text := Rendered(h, o, raw, i).value;
      var used := w.used + h.tok(text);
      if !(o.maxContext > 0 && used > RawBudget(h, o) && w.messages != []) {
        StopsRendered(h, o, raw, Window(i, [ToMessage(raw[i], text)] + w.messages, used));
      }
    }
  }

  /** Some record of the window, or the one it stops at, cannot be rendered. */
  predicate WindowFails(h: Hooks, o: Settings, raw: seq<Record>) {
    exists i :: 0 <= i < |raw| && FailsAt(h, o, raw, i)
  }

  lemma WindowFailsIff(h: Hooks, o: Settings, raw: seq<Record>)
    ensures RawWindow(h, o, raw).None? <==> WindowFails(h, o, raw)
  {
    WindowIsLongest(h, o, raw);
    if RawWindow(h, o, raw).Some? {
      var w := RawWindow(h, o, raw).value;
      StopsRendered(h, o, raw, Window(|raw|, [], 0));
      forall i | 0 <= i < |raw| ensures !FailsAt(h, o, raw, i) {
        if w.start <= i {
          assert Shows(h, o, raw, w.start + (i - w.start), w.messages[i - w.start]);
        } else if i + 1 < w.start {
          assert !Fits(h, o, raw, i + 1);
        }
      }
    }
  }

  lemma {:induction false} VerbatimIff(h: Hooks, o: Settings, rs: seq<Record>, n: nat)
    requires n <= |rs|
    ensures Verbatim(h, o, rs, n).Some? <==> forall i :: 0 <= i < n ==> Rendered(h, o, rs, i).Some?
  {
    if n > 0 {
      VerbatimIff(h, o, rs, n - 1);
    }
  }

  predicate SomeFails(h: Hooks, o: Settings, rs: seq<Record>) {
    exists i :: 0 <= i < |rs| && Rendered(h, o, rs, i).None?
  }

  lemma AnchorsFailIff(h: Hooks, o: Settings, rs: seq<Record>)
    ensures Verbatim(h, o, rs, |rs|).None? <==> SomeFails(h, o, rs)
  {
    VerbatimIff(h, o, rs, |rs|);
  }

  /** The anchors ahead of the window that the raw records make for. */
  function Lifted(h: Hooks, o: Settings, raw: seq<Record>): seq<Record> {
    match RawWindow(h, o, raw)
    case Some(w) => F.Filter(raw[..w.start], IsAnchor(h, o))
    case None => []
  }

  lemma PlanFailsIff(h: Hooks, o: Settings, records: seq<Record>)
    ensures PlanOf(h, o, records).None? <==> RawWindow(h, o, F.Filter(records, IsRaw)).None?
    ensures PlanOf(h, o, records).Some? ==> PlanOf(h, o, records).value.anchors == Lifted(h, o, F.Filter(records, IsRaw))
  {
  }

  lemma BuildFailsIff(h: Hooks, settings: Settings, records: seq<Record>, store: Option<Store>, now: int)
    requires records != []
    ensures var plan := PlanOf(h, Resolved(settings), records);
            Built(h, settings, records, store, now).result.None? <==>
            plan.None? || Verbatim(h, Resolved(settings), plan.value.anchors, |plan.value.anchors|).None?
  {
  }

  /** A build fails exactly if the guard fails on a record it has to render: one that all records behind it leave room
      for, or that is the newest, or an anchor ahead of the window. */
  lemma FailsClosedIff(h: Hooks, settings: Settings, records: seq<Record>, store: Option<Store>, now: int)
    requires records != []
    ensures var o, raw := Resolved(settings), F.Filter(records, IsRaw);
            Built(h, settings, records, store, now).result.None? <==>
            WindowFails(h, o, raw) || SomeFails(h, o, Lifted(h, o, raw))
  {
    var o, raw := Resolved(settings), F.Filter(records, IsRaw);
    BuildFailsIff(h, settings, records, store, now);
    PlanFailsIff(h, o, records);
    WindowFailsIff(h, o, raw);
    AnchorsFailIff(h, o, Lifted(h, o, raw));
  }
}
