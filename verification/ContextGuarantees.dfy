/** What every build promises: its window, its accounting, its indifference to the cache, its stable prefix. */
module ContextGuarantees {
  import opened ContextBuild
  import opened Options
  import opened Records
  import opened SummaryCache
  import F = Filtering

  // ---- the raw window ----

  function RenderedTokens(h: Hooks, o: Settings, raw: seq<Record>, i: nat): nat
    requires i < |raw|
  {
    match Rendered(h, o, raw, i)
    case Some(text) => h.tok(text)
    case None => 0
  }

  /** The cost of sending everything from record i on. */
  function Suffix(h: Hooks, o: Settings, raw: seq<Record>, i: nat): nat
    requires i <= |raw|
    decreases |raw| - i
  {
    if i == |raw| then 0 else RenderedTokens(h, o, raw, i) + Suffix(h, o, raw, i + 1)
  }

  lemma {:induction false} SuffixShrinks(h: Hooks, o: Settings, raw: seq<Record>, i: nat, j: nat)
    requires i <= j <= |raw|
    ensures Suffix(h, o, raw, i) >= Suffix(h, o, raw, j)
    decreases j - i
  {
    if i < j {
      SuffixShrinks(h, o, raw, i + 1, j);
    }
  }

  /** Record i may open the window: it is the newest, or all from i on fits. */
  predicate Fits(h: Hooks, o: Settings, raw: seq<Record>, i: nat)
    requires i < |raw|
  {
    o.maxContext <= 0 || i == |raw| - 1 || Suffix(h, o, raw, i) <= RawBudget(h, o)
  }

  predicate Shows(h: Hooks, o: Settings, raw: seq<Record>, i: nat, m: Message)
    requires i < |raw|
  {
    Rendered(h, o, raw, i).Some? && m == ToMessage(raw[i], Rendered(h, o, raw, i).value)
  }

  /** w holds exactly the records from w.start on, verbatim and in order, and their cost. */
  ghost predicate Holds(h: Hooks, o: Settings, raw: seq<Record>, w: Window) {
    && w.start <= |raw|
    && |w.messages| == |raw| - w.start
    && (forall k :: 0 <= k < |w.messages| ==> Shows(h, o, raw, w.start + k, w.messages[k]))
    && w.used == Suffix(h, o, raw, w.start)
    && (w.start < |raw| ==> Fits(h, o, raw, w.start))
  }

  lemma {:induction false} HoldsNext(h: Hooks, o: Settings, raw: seq<Record>, w: Window, text: string)
    requires Holds(h, o, raw, w) && w.start > 0 && Rendered(h, o, raw, w.start - 1) == Some(text)
    requires Fits(h, o, raw, w.start - 1)
    ensures Holds(h, o, raw, Window(w.start - 1, [ToMessage(raw[w.start - 1], text)] + w.messages, w.used + h.tok(text)))
  {
    var ms := [ToMessage(raw[w.start - 1], text)] + w.messages;
    forall k | 0 <= k < |ms| ensures Shows(h, o, raw, w.start - 1 + k, ms[k]) {
      if k > 0 {
        assert ms[k] == w.messages[k - 1];
        assert Shows(h, o, raw, w.start + (k - 1), w.messages[k - 1]);
      }
    }
  }

  /** Record i was rendered, being the newest or because all after it fits, and its rendering failed. */
  predicate FailsAt(h: Hooks, o: Settings, raw: seq<Record>, i: nat)
    requires i < |raw|
  {
    Rendered(h, o, raw, i).None? && (i + 1 < |raw| ==> Fits(h, o, raw, i + 1))
  }

  /** The walk's own test is whether the record fits. */
  lemma FitsIsTheTest(h: Hooks, o: Settings, raw: seq<Record>, w: Window, text: string)
    requires Holds(h, o, raw, w) && w.start > 0 && Rendered(h, o, raw, w.start - 1) == Some(text)
    ensures !Fits(h, o, raw, w.start - 1) <==>
            o.maxContext > 0 && w.used + h.tok(text) > RawBudget(h, o) && w.messages != []
  {
  }

  lemma {:induction false} WalkStep(h: Hooks, o: Settings, raw: seq<Record>, w: Window)
    requires Holds(h, o, raw, w) && w.start > 0
    ensures var i := w.start - 1;
            var text := Rendered(h, o, raw, i);
            Walk(h, o, raw, w) ==
            if text.None? then None
            else if !Fits(h, o, raw, i) then Some(w)
            else Walk(h, o, raw, Window(i, [ToMessage(raw[i], text.value)] + w.messages, w.used + h.tok(text.value)))
  {
    if Rendered(h, o, raw, w.start - 1).Some? {
      FitsIsTheTest(h, o, raw, w, Rendered(h, o, raw, w.start - 1).value);
    }
  }

  /** How a walk that began before record start may end. */
  ghost predicate Ends(h: Hooks, o: Settings, raw: seq<Record>, start: nat, r: Option<Window>)
    requires start <= |raw|
  {
    match r
    case Some(v) => Holds(h, o, raw, v) && (v.start > 0 ==> !Fits(h, o, raw, v.start - 1))
    case None => exists i :: 0 <= i < start && FailsAt(h, o, raw, i)
  }

  lemma EndsLater(h: Hooks, o: Settings, raw: seq<Record>, i: nat, start: nat, r: Option<Window>)
    requires i <= start <= |raw| && Ends(h, o, raw, i, r)
    ensures Ends(h, o, raw, start, r)
  {
  }

  lemma {:induction false} StopsHere(h: Hooks, o: Settings, raw: seq<Record>, w: Window)
    requires Holds(h, o, raw, w)
    requires w.start > 0 ==> Rendered(h, o, raw, w.start - 1).None? || !Fits(h, o, raw, w.start - 1)
    ensures Ends(h, o, raw, w.start, Walk(h, o, raw, w))
  {
    if w.start > 0 {
      WalkStep(h, o, raw, w);
      assert Rendered(h, o, raw, w.start - 1).None? ==> FailsAt(h, o, raw, w.start - 1);
    }
  }

  /** The next record joins the window. */
  lemma {:induction false} WalksOn(h: Hooks, o: Settings, raw: seq<Record>, w: Window) returns (next: Window)
    requires Holds(h, o, raw, w) && w.start > 0
    requires Rendered(h, o, raw, w.start - 1).Some? && Fits(h, o, raw, w.start - 1)
    ensures next.start == w.start - 1 && Holds(h, o, raw, next) && Walk(h, o, raw, next) == Walk(h, o, raw, w)
  {
    var i := w.start - 1;
    var text := Rendered(h, o, raw, i).value;
    next := Window(i, [ToMessage(raw[i], text)] + w.messages, w.used + h.tok(text));
    WalkStep(h, o, raw, w);
    HoldsNext(h, o, raw, w, text);
  }

  lemma {:induction false} WalkEnds(h: Hooks, o: Settings, raw: seq<Record>, w: Window)
    requires Holds(h, o, raw, w)
    ensures Ends(h, o, raw, w.start, Walk(h, o, raw, w))
    decreases w.start
  {
    if w.start > 0 && Rendered(h, o, raw, w.start - 1).Some? && Fits(h, o, raw, w.start - 1) {
      var next := WalksOn(h, o, raw, w);
      WalkEnds(h, o, raw, next);
      EndsLater(h, o, raw, next.start, w.start, Walk(h, o, raw, next));
    } else {
      StopsHere(h, o, raw, w);
    }
  }

  /** The window is the longest run of newest records within the budget, or the newest record alone; it
      shows them verbatim. It fails only on a record it had to render. */
  lemma {:induction false} WindowIsLongest(h: Hooks, o: Settings, raw: seq<Record>)
    ensures match RawWindow(h, o, raw)
            case Some(w) => Holds(h, o, raw, w) && forall i :: 0 <= i < |raw| ==> (w.start <= i <==> Fits(h, o, raw, i))
            case None => exists i :: 0 <= i < |raw| && FailsAt(h, o, raw, i)
  {
    WalkEnds(h, o, raw, Window(|raw|, [], 0));
    if RawWindow(h, o, raw).Some? {
      var w := RawWindow(h, o, raw).value;
      forall i | 0 <= i < |raw| ensures w.start <= i <==> Fits(h, o, raw, i) {
        if w.start <= i {
          SuffixShrinks(h, o, raw, w.start, i);
        } else {
          SuffixShrinks(h, o, raw, i, w.start - 1);
        }
      }
    }
  }

  // ---- token accounting ----

  lemma {:induction false} WindowTokens(h: Hooks, o: Settings, raw: seq<Record>, w: Window)
    requires Holds(h, o, raw, w)
    ensures Tokens(h, w.messages) == w.used
    decreases |raw| - w.start
  {
    if w.start < |raw| {
      var ms := w.messages[1..];
      var next := Window(w.start + 1, ms, Suffix(h, o, raw, w.start + 1));
      SuffixShrinks(h, o, raw, w.start, w.start + 1);
      assert Shows(h, o, raw, w.start + 0, w.messages[0]);
      forall k | 0 <= k < |ms| ensures Shows(h, o, raw, w.start + 1 + k, ms[k]) {
        assert Shows(h, o, raw, w.start + (k + 1), w.messages[k + 1]);
      }
      WindowTokens(h, o, raw, next);
    }
  }

  lemma ThreeParts(h: Hooks, a: seq<Message>, b: seq<Message>, c: seq<Message>)
    ensures Tokens(h, a + b + c) == Tokens(h, a) + Tokens(h, b) + Tokens(h, c)
  {
    TokensAppend(h, a + b, c);
    TokensAppend(h, a, b);
  }

  lemma SystemTokens(h: Hooks, o: Settings)
    ensures Tokens(h, SystemMessages(o)) == h.tok(o.systemPrompt)
  {
    TokensOne(h, Message(System, o.systemPrompt, "", "", [], []));
  }

  /** The reported total is the sum of the estimates of the messages actually emitted. */
  lemma TotalIsTheSum(h: Hooks, settings: Settings, records: seq<Record>, store: Option<Store>, now: int)
    requires Built(h, settings, records, store, now).result.Some?
    ensures var res := Built(h, settings, records, store, now).result.value;
            res.totalTokens == Tokens(h, res.messages)
  {
    var o := Resolved(settings);
    SystemTokens(h, o);
    if records != [] {
      var p := PlanOf(h, o, records).value;
      WindowIsLongest(h, o, p.raw);
      WindowTokens(h, o, p.raw, p.window);
      var far := FarTier(h, o, p, store, now);
      var near := NearTier(h, o, p, far.store, now);
      var older := History(h, p, far.block, near.block, Verbatim(h, o, p.anchors, |p.anchors|).value);
      ThreeParts(h, SystemMessages(o), older, p.window.messages);
    }
  }

  // ---- conservation ----

  /** sub is s with some elements left out, in the same order. */
  ghost predicate Ordered(sub: seq<Record>, s: seq<Record>) {
    exists at: seq<nat> :: Places(sub, s, at)
  }

  ghost predicate Places(sub: seq<Record>, s: seq<Record>, at: seq<nat>) {
    && |at| == |sub|
    && (forall k :: 0 <= k < |at| ==> at[k] < |s| && sub[k] == s[at[k]])
    && (forall j, k :: 0 <= j < k < |at| ==> at[j] < at[k])
  }

  lemma FilterOrdered(s: seq<Record>, p: Record -> bool)
    ensures Ordered(F.Filter(s, p), s)
  {
    F.Selects(s, p);
    assert Places(F.Filter(s, p), s, F.Positions(s, p));
  }

  lemma OrderedTransitive(a: seq<Record>, b: seq<Record>, c: seq<Record>)
    requires Ordered(a, b) && Ordered(b, c)
    ensures Ordered(a, c)
  {
    var f: seq<nat> :| Places(a, b, f);
    var g: seq<nat> :| Places(b, c, g);
    var at := seq(|f|, (k: nat) requires k < |f| => g[f[k]]);
    assert Places(a, c, at);
  }

  lemma PrefixOrdered(s: seq<Record>, n: nat)
    requires n <= |s|
    ensures Ordered(s[..n], s)
  {
    assert Places(s[..n], s, seq(n, (k: nat) => k));
  }

  function DroppedOf(h: Hooks, o: Settings, p: Plan): seq<Record>
    requires p.window.start <= |p.raw|
  {
    F.Filter(Unanchored(h, o, p.raw, p.window.start), IsDead(h, o))
  }

  /** Splitting off the anchors and then the dead topics loses nothing and reorders nothing. */
  lemma Buckets(raw: seq<Record>, start: nat, a: Record -> bool, d: Record -> bool)
    requires start <= |raw|
    ensures var cands := raw[..start];
            var rest := F.Filter(cands, F.Not(a));
            && multiset(raw) == multiset(F.Filter(rest, F.Not(d))) + multiset(F.Filter(rest, d)) +
                                multiset(F.Filter(cands, a)) + multiset(raw[start..])
            && |raw| == |F.Filter(rest, F.Not(d))| + |F.Filter(rest, d)| + |F.Filter(cands, a)| + |raw[start..]|
  {
    var cands := raw[..start];
    assert raw == cands + raw[start..];
    F.Splits(cands, a);
    F.Splits(F.Filter(cands, F.Not(a)), d);
  }

  lemma BucketsOrdered(raw: seq<Record>, start: nat, a: Record -> bool, d: Record -> bool)
    requires start <= |raw|
    ensures var cands := raw[..start];
            var rest := F.Filter(cands, F.Not(a));
            && Ordered(F.Filter(rest, F.Not(d)), raw) && Ordered(F.Filter(rest, d), raw)
            && Places(F.Filter(cands, a), raw, F.Positions(cands, a))
  {
    var cands := raw[..start];
    var rest := F.Filter(cands, F.Not(a));
    F.Selects(cands, a);
    PrefixOrdered(raw, start);
    FilterOrdered(cands, F.Not(a));
    OrderedTransitive(rest, cands, raw);
    FilterOrdered(rest, d);
    OrderedTransitive(F.Filter(rest, d), rest, raw);
    FilterOrdered(rest, F.Not(d));
    OrderedTransitive(F.Filter(rest, F.Not(d)), rest, raw);
  }

  lemma Halves(s: seq<Record>)
    ensures s[..|s| / 2] + s[|s| / 2..] == s && |s[..|s| / 2]| <= |s[|s| / 2..]| <= |s[..|s| / 2]| + 1
  {
  }

  lemma PlanParts(h: Hooks, o: Settings, records: seq<Record>, p: Plan)
    requires PlanOf(h, o, records) == Some(p)
    ensures p.raw == F.Filter(records, IsRaw) && RawWindow(h, o, p.raw) == Some(p.window)
    ensures p.far + p.near == F.Filter(Unanchored(h, o, p.raw, p.window.start), F.Not(IsDead(h, o)))
    ensures p.dropped == |DroppedOf(h, o, p)| && |p.far| <= |p.near| <= |p.far| + 1
    ensures p.anchors == F.Filter(p.raw[..p.window.start], IsAnchor(h, o))
    ensures p.anchorAt == F.Positions(p.raw[..p.window.start], IsAnchor(h, o))
    ensures p.legacy == F.Filter(records, IsLegacy)
  {
    Halves(F.Filter(Unanchored(h, o, p.raw, p.window.start), F.Not(IsDead(h, o))));
  }

  /** Every record that survives the filter lands in exactly one of far, near, dropped, anchors and raw
      window; the halves differ by at most one. */
  lemma Conserved(h: Hooks, o: Settings, records: seq<Record>, p: Plan)
    requires PlanOf(h, o, records) == Some(p)
    ensures multiset(p.raw) == multiset(p.far) + multiset(p.near) + multiset(DroppedOf(h, o, p)) +
                               multiset(p.anchors) + multiset(p.raw[p.window.start..])
    ensures |p.far| + |p.near| + p.dropped + |p.anchors| + |p.window.messages| == |p.raw|
    ensures p.dropped == |DroppedOf(h, o, p)| && |p.far| <= |p.near| <= |p.far| + 1
  {
    PlanParts(h, o, records, p);
    Buckets(p.raw, p.window.start, IsAnchor(h, o), IsDead(h, o));
    assert multiset(p.far + p.near) == multiset(p.far) + multiset(p.near);
    WindowIsLongest(h, o, p.raw);
  }

  /** No group reorders the conversation, and all of far precedes all of near. */
  lemma ConservesOrder(h: Hooks, o: Settings, records: seq<Record>, p: Plan)
    requires PlanOf(h, o, records) == Some(p)
    ensures Ordered(p.raw, records) && Ordered(p.legacy, records)
    ensures Ordered(p.far + p.near, p.raw) && Ordered(DroppedOf(h, o, p), p.raw)
    ensures Places(p.anchors, p.raw, p.anchorAt)
  {
    FilterOrdered(records, IsRaw);
    FilterOrdered(records, IsLegacy);
    PlanParts(h, o, records, p);
    BucketsOrdered(p.raw, p.window.start, IsAnchor(h, o), IsDead(h, o));
  }

  lemma CountsAddUp(h: Hooks, settings: Settings, records: seq<Record>, store: Option<Store>, now: int)
    requires Built(h, settings, records, store, now).result.Some?
    ensures var res := Built(h, settings, records, store, now).result.value;
            res.includedRaw + res.anchored + res.dropped + res.nearSpan + res.farSpan == |F.Filter(records, IsRaw)|
  {
    var o := Resolved(settings);
    if records != [] {
      Conserved(h, o, records, PlanOf(h, o, records).value);
    }
  }

  function CountOf(b: bool): nat {
    if b then 1 else 0
  }

  lemma BlockShown(h: Hooks, a: Input, dropped: nat, store: Option<Store>, now: int)
    ensures TierOf(h, a, dropped, store, now).block == "" <==> a.records == [] && dropped == 0
  {
    var head := "[tier=" + a.tier;
    if !(a.records == [] && dropped == 0) {
      assert forall summary :: |TierBlock(h, a.tier, a.records, dropped, summary)| >= |head|;
    }
  }

  lemma {:induction false} LegacyCount(h: Hooks, rs: seq<Record>)
    ensures |LegacyMessages(h, rs)| == |rs|
  {
    if rs != [] {
      LegacyCount(h, rs[..|rs| - 1]);
    }
  }

  lemma {:induction false} VerbatimCount(h: Hooks, o: Settings, rs: seq<Record>, n: nat)
    requires n <= |rs| && Verbatim(h, o, rs, n).Some?
    ensures |Verbatim(h, o, rs, n).value| == n
  {
    if n > 0 {
      VerbatimCount(h, o, rs, n - 1);
    }
  }

  /** Nothing is elided without notice: a far block stands for the far records and the dropped ones, a near block for the
      near ones, and every other record has a message of its own. */
  lemma NothingElidedSilently(h: Hooks, settings: Settings, records: seq<Record>, store: Option<Store>, now: int)
    requires records != [] && Built(h, settings, records, store, now).result.Some?
    ensures var res := Built(h, settings, records, store, now).result.value;
            |res.messages| ==
            CountOf(settings.systemPrompt != "") + |F.Filter(records, IsLegacy)| + CountOf(res.farSpan + res.dropped > 0)
            + CountOf(res.nearSpan > 0) + res.anchored + res.includedRaw
  {
    var o := Resolved(settings);
    var p := PlanOf(h, o, records).value;
    var far := FarTier(h, o, p, store, now);
    BlockShown(h, InputOf(h, o, p, "far"), p.dropped, store, now);
    BlockShown(h, InputOf(h, o, p, "near"), 0, far.store, now);
    LegacyCount(h, p.legacy);
    VerbatimCount(h, o, p.anchors, |p.anchors|);
  }

  // ---- untrusted content ----

  /** What the guard is asked to wrap. */
  function ToWrap(h: Hooks, o: Settings, r: Record): string {
    if r.role.Tool? then Truncated(h, r.content, o.maxTool) else r.content
  }

  ghost predicate EndsWith(s: string, tail: string) {
    exists front: string :: s == front + tail
  }

  lemma FrontStays(front: string, s: string, tail: string)
    requires EndsWith(s, tail)
    ensures EndsWith(front + s, tail)
  {
    var f: string :| s == f + tail;
    assert front + s == (front + f) + tail;
  }

  /** A user or tool record reaches the model only inside the guard's wrapping, with nothing behind it; when the guard
      fails nothing is rendered at all. */
  lemma UntrustedIsWrapped(h: Hooks, o: Settings, rs: seq<Record>, i: nat)
    requires i < |rs| && h.wrap.Some? && (rs[i].role.User? || rs[i].role.Tool?)
    ensures var wrapped := h.wrap.value(ToWrap(h, o, rs[i]));
            && (Rendered(h, o, rs, i).Some? <==> wrapped.Some?)
            && (wrapped.Some? ==> EndsWith(Rendered(h, o, rs, i).value, wrapped.value))
  {
    var r, wrapped := rs[i], h.wrap.value(ToWrap(h, o, rs[i]));
    if wrapped.Some? {
      var body := wrapped.value;
      assert body == "" + body;
      var dated := if r.role.User? && h.prefix.Some? && r.ts != 0 then h.prefix.value(r.ts) + "\n\n" + body else body;
      assert EndsWith(dated, body);
      var marked := if ShouldAnnotate(rs, i) then "[" + h.stamp(r.ts) + "]\n" + dated else dated;
      FrontStays("[" + h.stamp(r.ts) + "]\n", dated, body);
      if r.role.User? && h.anchorLine.Some? {
        FrontStays(AnchorLines(h.anchorLine.value, r.documentIDs), marked, body);
      }
    }
  }

  /** An anchor is rendered among the anchors and not where it stood: what the model reads is the same exactly when the
      two neighbours before it call for the same time marker. */
  lemma IsolatedAnchorIff(h: Hooks, o: Settings, rs: seq<Record>, i: nat, anchors: seq<Record>, j: nat)
    requires i < |rs| && j < |anchors| && anchors[j] == rs[i] && Rendered(h, o, rs, i).Some?
    ensures Rendered(h, o, anchors, j) == Rendered(h, o, rs, i) <==> ShouldAnnotate(anchors, j) == ShouldAnnotate(rs, i)
  {
    var here, there := Rendered(h, o, rs, i).value, Rendered(h, o, anchors, j).value;
    assert |here| != |there| <==> ShouldAnnotate(anchors, j) != ShouldAnnotate(rs, i);
  }

  /** The anchors of three records of which the second is the only one. */
  lemma OneAnchor(h: Hooks, o: Settings, a: Record, b: Record, c: Record)
    requires IsRaw(a) && IsRaw(b) && IsRaw(c) && !IsAnchor(h, o)(a) && IsAnchor(h, o)(b)
    ensures F.Filter([a, b, c], IsRaw) == [a, b, c] && F.Filter([a, b, c][..2], IsAnchor(h, o)) == [b]
  {
    F.Uniform([a, b, c], IsRaw, true);
    assert [a, b, c][..2] == [a] + [b];
    F.Distributes([a], [b], IsAnchor(h, o));
    F.Uniform([a], IsAnchor(h, o), false);
    F.Uniform([b], IsAnchor(h, o), true);
  }

  lemma VerbatimOne(h: Hooks, o: Settings, b: Record)
    requires Rendered(h, o, [b], 0).Some?
    ensures Verbatim(h, o, [b], 1) == Some([ToMessage(b, Rendered(h, o, [b], 0).value)])
  {
    var m := ToMessage(b, Rendered(h, o, [b], 0).value);
    assert [] + [m] == [m];
  }

  lemma SecondToLast<T>(front: seq<T>, x: T, last: seq<T>)
    requires |last| == 1
    ensures |front + [x] + last| >= 2 && (front + [x] + last)[|front + [x] + last| - 2] == x
  {
  }

  /** The window holds the newest record alone, and the one before it is lifted. */
  lemma PlanOfThree(h: Hooks, o: Settings, a: Record, b: Record, c: Record)
    requires IsRaw(a) && IsRaw(b) && IsRaw(c) && h.wrap.None? && !IsAnchor(h, o)(a) && IsAnchor(h, o)(b)
    requires !Fits(h, o, [a, b, c], 1)
    ensures var p := PlanOf(h, o, [a, b, c]);
            p.Some? && p.value.anchors == [b] && |p.value.window.messages| == 1
  {
    var rs := [a, b, c];
    OneAnchor(h, o, a, b, c);
    WindowIsLongest(h, o, rs);
    var w := RawWindow(h, o, rs).value;
    assert Fits(h, o, rs, 2);
    assert w.start == 2;
  }

  lemma AnchorBeforeWindow(h: Hooks, o: Settings, p: Plan, store: Option<Store>, now: int, sent: Message)
    requires p.window.start <= |p.raw| && |p.anchors| == 1 && Verbatim(h, o, p.anchors, 1) == Some([sent])
    requires |p.window.messages| == 1
    ensures var res := BuiltFrom(h, o, p, store, now).result;
            && res.Some? && |res.value.messages| >= 2 && res.value.messages[|res.value.messages| - 2] == sent
  {
    var far := FarTier(h, o, p, store, now);
    var near := NearTier(h, o, p, far.store, now);
    var older := LegacyMessages(h, p.legacy) + BlockMessages(far.block) + BlockMessages(near.block);
    assert SystemMessages(o) + History(h, p, far.block, near.block, [sent]) == (SystemMessages(o) + older) + [sent];
    SecondToLast(SystemMessages(o) + older, sent, p.window.messages);
  }

  /** An anchor that came after a long pause, and behind a record that is no anchor, is sent without the time marker
      it would carry in place. */
  lemma AnchorLosesItsMarker(h: Hooks, settings: Settings, a: Record, b: Record, c: Record,
                             store: Option<Store>, now: int)
    requires IsRaw(a) && IsRaw(b) && IsRaw(c) && h.wrap.None?
    requires !IsAnchor(h, Resolved(settings))(a) && IsAnchor(h, Resolved(settings))(b)
    requires !b.role.Tool? && b.ts - a.ts > RECENT_GAP && !Fits(h, Resolved(settings), [a, b, c], 1)
    ensures var o, res := Resolved(settings), Built(h, settings, [a, b, c], store, now).result;
            var inPlace := Rendered(h, o, [a, b, c], 1);
            && res.Some? && |res.value.messages| >= 2 && inPlace.Some?
            && var sent := res.value.messages[|res.value.messages| - 2];
               sent == ToMessage(b, Rendered(h, o, [b], 0).value) && sent.content != inPlace.value
  {
    var o := Resolved(settings);
    PlanOfThree(h, o, a, b, c);
    IsolatedAnchorIff(h, o, [a, b, c], 1, [b], 0);
    VerbatimOne(h, o, b);
    AnchorBeforeWindow(h, o, PlanOf(h, o, [a, b, c]).value, store, now, ToMessage(b, Rendered(h, o, [b], 0).value));
  }

  /** Such records exist. */
  lemma AnchorExample() returns (h: Hooks, settings: Settings, a: Record, b: Record, c: Record)
    ensures IsRaw(a) && IsRaw(b) && IsRaw(c) && h.wrap.None?
    ensures !IsAnchor(h, Resolved(settings))(a) && IsAnchor(h, Resolved(settings))(b)
    ensures !b.role.Tool? && b.ts - a.ts > RECENT_GAP && !Fits(h, Resolved(settings), [a, b, c], 1)
  {
    var size: Estimator := (s: string) => |s|;
    var words := (s: string) => if s == "" then {} else {s};
    h := Hooks(size, words, t => "", None, None, None, s => false, (id: string, ps: seq<Proj>) => None);
    settings := Settings("", 1, 0, 0, 0.05, 0.15, 0.4, 0.4, ["b"], [], [], "");
    var later := RECENT_GAP + 1;
    a, b, c := Plain(0, Assistant, "a"), Plain(later, Assistant, "b"), Plain(later, Assistant, "c");
    var o := Resolved(settings);
    assert h.tokenSet("a") * h.tokenSet("b") == {};
    assert Match(h, b.content, o.anchorFacts[0], o.anchorThreshold);
    var rs := [a, b, c];
    assert Suffix(h, o, rs, 3) == 0 && Suffix(h, o, rs, 2) == RenderedTokens(h, o, rs, 2);
    assert RawBudget(h, o) <= 1 && RenderedTokens(h, o, rs, 1) >= 1 && RenderedTokens(h, o, rs, 2) >= 1;
  }

  // ---- the cache never shows ----

  /** The entry's summary is what the summarizer answers for some input with the entry's key. */
  ghost predicate Made(h: Hooks, e: Entry) {
    exists a: Input :: MadeFrom(h, e, a)
  }

  ghost predicate MadeFrom(h: Hooks, e: Entry, a: Input) {
    && NulFree(a) && a.records != [] && Key(a) == e.rangeKey
    && Usable(h, h.summarize(a.summarizerID, Projs(a.records))) == Some(e.summary)
  }

  /** Entries of an older schema are never served and so need not satisfy anything. */
  ghost predicate Faithful(h: Hooks, es: seq<Entry>) {
    forall e :: e in es && e.kind == CONTENT_V2 ==> Made(h, e)
  }

  ghost predicate FaithfulStore(h: Hooks, store: Option<Store>) {
    store.Some? ==> Faithful(h, store.value.entries)
  }

  lemma TierTransparent(h: Hooks, a: Input, dropped: nat, store: Option<Store>, now: int)
    requires NulFree(a) && FaithfulStore(h, store)
    ensures TierOf(h, a, dropped, store, now).block == TierOf(h, a, dropped, None, now).block
    ensures FaithfulStore(h, TierOf(h, a, dropped, store, now).store)
  {
    if store.Some? && !(a.records == [] && dropped == 0) {
      var es := store.value.entries;
      var found := Lookup(es, Key(a));
      if found.Some? {
        var b: Input :| MadeFrom(h, found.value, b);
        KeyAgrees(a, b);
        assert |Projs(a.records)| == |Projs(b.records)|;
      } else if a.records != [] {
        var text := Usable(h, h.summarize(a.summarizerID, Projs(a.records)));
        if text.Some? {
          var e := Fresh(a, text.value, now);
          assert MadeFrom(h, e, a);
          StoredWithin(es, e, store.value.maxItems);
        }
      }
    }
  }

  /** A tier that had to be summarised is served from the cache the next time, with the same block. */
  lemma SecondTimeHits(h: Hooks, a: Input, dropped: nat, store: Store, now: int, later: int)
    requires a.records != [] && Usable(h, h.summarize(a.summarizerID, Projs(a.records))).Some? && now != 0
    requires OnePerSlot(store.entries) && forall x :: x in store.entries ==> x.createdAt <= now
    requires !TierOf(h, a, dropped, Some(store), now).hit
    ensures var first := TierOf(h, a, dropped, Some(store), now);
            var again := TierOf(h, a, dropped, first.store, later);
            again.hit && again.block == first.block && again.store == first.store
  {
    var text := Usable(h, h.summarize(a.summarizerID, Projs(a.records))).value;
    PutThenGet(store.entries, Fresh(a, text, now), store.maxItems);
  }

  predicate CleanRecords(rs: seq<Record>) {
    forall i :: 0 <= i < |rs| ==> Clean(ProjOf(rs[i]))
  }

  lemma FilterClean(rs: seq<Record>, p: Record -> bool)
    requires CleanRecords(rs)
    ensures CleanRecords(F.Filter(rs, p))
  {
    F.Selects(rs, p);
  }

  lemma {:induction false} HitsAreFacts(h: Hooks, o: Settings, rs: seq<Record>)
    ensures forall f :: f in Hits(h, o, rs) ==> f in o.deadFacts
  {
    if rs != [] {
      HitsAreFacts(h, o, rs[..|rs| - 1]);
    }
  }

  lemma HalvesClean(a: seq<Record>, b: seq<Record>)
    requires CleanRecords(a + b)
    ensures CleanRecords(a) && CleanRecords(b)
  {
    forall i | 0 <= i < |b| ensures Clean(ProjOf(b[i])) {
      assert b[i] == (a + b)[|a| + i];
    }
    forall i | 0 <= i < |a| ensures Clean(ProjOf(a[i])) {
      assert a[i] == (a + b)[i];
    }
  }

  lemma PartsClean(h: Hooks, o: Settings, records: seq<Record>, p: Plan)
    requires PlanOf(h, o, records) == Some(p) && CleanRecords(records) && NoNuls(o.deadFacts)
    ensures CleanRecords(p.far) && CleanRecords(p.near) && NoNuls(Fingerprints(h, o, p))
  {
    var rest := Unanchored(h, o, p.raw, p.window.start);
    PlanParts(h, o, records, p);
    FilterClean(records, IsRaw);
    FilterClean(p.raw[..p.window.start], F.Not(IsAnchor(h, o)));
    FilterClean(rest, F.Not(IsDead(h, o)));
    HalvesClean(p.far, p.near);
    HitsAreFacts(h, o, rest);
    var fps := Fingerprints(h, o, p);
    forall i | 0 <= i < |fps| ensures NoNul(fps[i]) {
      assert fps[i] in multiset(Hits(h, o, rest));
    }
  }

  lemma InputsClean(h: Hooks, o: Settings, records: seq<Record>, p: Plan)
    requires PlanOf(h, o, records) == Some(p) && CleanRecords(records) && NoNuls(o.deadFacts)
    ensures NulFree(InputOf(h, o, p, "far")) && NulFree(InputOf(h, o, p, "near"))
  {
    PartsClean(h, o, records, p);
  }

  /** What the caller sees, leaving out which tier was served from the cache. */
  function Seen(r: Option<Result>): Option<Result> {
    match r
    case None => None
    case Some(res) => Some(res.(usedCache := false, nearHit := false, farHit := false))
  }

  lemma BlocksTransparent(h: Hooks, o: Settings, p: Plan, store: Option<Store>, now: int)
    requires p.window.start <= |p.raw| && FaithfulStore(h, store)
    requires NulFree(InputOf(h, o, p, "far")) && NulFree(InputOf(h, o, p, "near"))
    ensures var far := FarTier(h, o, p, store, now);
            var near := NearTier(h, o, p, far.store, now);
            && far.block == FarTier(h, o, p, None, now).block
            && near.block == NearTier(h, o, p, None, now).block
            && FaithfulStore(h, near.store)
  {
    TierTransparent(h, InputOf(h, o, p, "far"), p.dropped, store, now);
    TierTransparent(h, InputOf(h, o, p, "near"), 0, FarTier(h, o, p, store, now).store, now);
  }

  lemma HitsUnseen(h: Hooks, o: Settings, p: Plan, b: Blocks, c: Blocks)
    requires b.far == c.far && b.near == c.near
    ensures Seen(Finished(h, o, p, b)) == Seen(Finished(h, o, p, c))
  {
  }

  lemma FromTransparent(h: Hooks, o: Settings, p: Plan, store: Option<Store>, now: int)
    requires p.window.start <= |p.raw| && FaithfulStore(h, store)
    requires NulFree(InputOf(h, o, p, "far")) && NulFree(InputOf(h, o, p, "near"))
    ensures Seen(BuiltFrom(h, o, p, store, now).result) == Seen(BuiltFrom(h, o, p, None, now).result)
    ensures FaithfulStore(h, BuiltFrom(h, o, p, store, now).store)
  {
    BlocksTransparent(h, o, p, store, now);
    assert FarTier(h, o, p, None, now).store == None;
    var far, far' := FarTier(h, o, p, store, now), FarTier(h, o, p, None, now);
    var near, near' := NearTier(h, o, p, far.store, now), NearTier(h, o, p, None, now);
    HitsUnseen(h, o, p, Blocks(far.block, far.hit, near.block, near.hit), Blocks(far'.block, far'.hit, near'.block, near'.hit));
  }

  /** A build through a faithful cache shows what a build without any cache shows, and leaves a faithful one. */
  lemma CacheTransparent(h: Hooks, settings: Settings, records: seq<Record>, store: Option<Store>, now: int)
    requires CleanRecords(records) && NoNuls(settings.deadFacts) && FaithfulStore(h, store)
    ensures Seen(Built(h, settings, records, store, now).result) == Seen(Built(h, settings, records, None, now).result)
    ensures FaithfulStore(h, Built(h, settings, records, store, now).store)
  {
    var o := Resolved(settings);
    var plan := PlanOf(h, o, records);
    if records != [] && plan.Some? {
      InputsClean(h, o, records, plan.value);
      FromTransparent(h, o, plan.value, store, now);
    }
  }

  /** One call of the builder over a session's lifetime. */
  datatype Call = Call(h: Hooks, settings: Settings, records: seq<Record>, now: int)

  ghost predicate CallOf(c: Call, h: Hooks) {
    && c.h.summarize == h.summarize && c.h.blank == h.blank
    && CleanRecords(c.records) && NoNuls(c.settings.deadFacts)
  }

  ghost function BuildCall(c: Call, store: Option<Store>): Outcome {
    Built(c.h, c.settings, c.records, store, c.now)
  }

  ghost function StoreAfter(calls: seq<Call>, store: Option<Store>): Option<Store> {
    if calls == [] then store
    else BuildCall(calls[|calls| - 1], StoreAfter(calls[..|calls| - 1], store)).store
  }

  lemma CallTransparent(h: Hooks, c: Call, store: Option<Store>)
    requires CallOf(c, h) && FaithfulStore(h, store)
    ensures Seen(BuildCall(c, store).result) == Seen(BuildCall(c, None).result)
    ensures FaithfulStore(h, BuildCall(c, store).store)
  {
    SameSummaries(h, c.h, store);
    CacheTransparent(c.h, c.settings, c.records, store, c.now);
    SameSummaries(c.h, h, BuildCall(c, store).store);
  }

  lemma {:induction false} StoreStaysFaithful(h: Hooks, calls: seq<Call>, store: Option<Store>)
    requires forall c :: c in calls ==> CallOf(c, h)
    requires FaithfulStore(h, store)
    ensures FaithfulStore(h, StoreAfter(calls, store))
  {
    if calls != [] {
      var n := |calls| - 1;
      StoreStaysFaithful(h, calls[..n], store);
      CallTransparent(h, calls[n], StoreAfter(calls[..n], store));
    }
  }

  lemma SameSummaries(h: Hooks, g: Hooks, store: Option<Store>)
    requires h.summarize == g.summarize && h.blank == g.blank && FaithfulStore(h, store)
    ensures FaithfulStore(g, store)
  {
    if store.Some? {
      forall e | e in store.value.entries && e.kind == CONTENT_V2 ensures Made(g, e) {
        var a: Input :| MadeFrom(h, e, a);
        assert MadeFrom(g, e, a);
      }
    }
  }

  /** Whatever the builds before it stored, replaced or evicted, each build of a run shows what it would have
      shown without a cache. */
  lemma RunTransparent(h: Hooks, calls: seq<Call>, store: Option<Store>, i: nat)
    requires i < |calls| && FaithfulStore(h, store)
    requires forall c :: c in calls ==> CallOf(c, h)
    ensures Seen(BuildCall(calls[i], StoreAfter(calls[..i], store)).result) == Seen(BuildCall(calls[i], None).result)
  {
    StoreStaysFaithful(h, calls[..i], store);
    CallTransparent(h, calls[i], StoreAfter(calls[..i], store));
  }

  // ---- prefix stability ----

  lemma {:induction false} SuffixOfPrefix(h: Hooks, o: Settings, raw: seq<Record>, more: seq<Record>, i: nat)
    requires i <= |raw|
    ensures Suffix(h, o, raw, i) <= Suffix(h, o, raw + more, i)
    decreases |raw| - i
  {
    if i < |raw| {
      SameRendering(h, o, raw, more, i);
      SuffixOfPrefix(h, o, raw, more, i + 1);
    }
  }

  /** Rendering looks back one record and never forward. */
  lemma SameRendering(h: Hooks, o: Settings, raw: seq<Record>, more: seq<Record>, i: nat)
    requires i < |raw|
    ensures Rendered(h, o, raw + more, i) == Rendered(h, o, raw, i)
  {
    var all := raw + more;
    assert all[i] == raw[i] && (i > 0 ==> all[i - 1] == raw[i - 1]);
  }

  lemma EarlierFits(h: Hooks, o: Settings, raw: seq<Record>, more: seq<Record>, i: nat)
    requires RawWindow(h, o, raw + more).Some? && RawWindow(h, o, raw + more).value.start == 0 && i < |raw|
    ensures Rendered(h, o, raw, i).Some? && Fits(h, o, raw, i)
    ensures |RawWindow(h, o, raw + more).value.messages| == |raw + more|
    ensures RawWindow(h, o, raw + more).value.messages[i] == ToMessage(raw[i], Rendered(h, o, raw, i).value)
  {
    WindowIsLongest(h, o, raw + more);
    var later := RawWindow(h, o, raw + more).value;
    SameRendering(h, o, raw, more, i);
    assert Shows(h, o, raw + more, 0 + i, later.messages[i]);
    assert Fits(h, o, raw + more, i);
    SuffixOfPrefix(h, o, raw, more, i);
  }

  lemma EarlierWindow(h: Hooks, o: Settings, raw: seq<Record>, more: seq<Record>)
    requires RawWindow(h, o, raw + more).Some? && RawWindow(h, o, raw + more).value.start == 0
    ensures var w := RawWindow(h, o, raw);
            w.Some? && w.value.start == 0 && w.value.messages <= RawWindow(h, o, raw + more).value.messages
  {
    WindowIsLongest(h, o, raw);
    WindowIsLongest(h, o, raw + more);
    forall i | 0 <= i < |raw| ensures Rendered(h, o, raw, i).Some? && Fits(h, o, raw, i) {
      EarlierFits(h, o, raw, more, i);
    }
    var w := RawWindow(h, o, raw);
    assert w.Some? && w.value.start == 0 by {
      if raw != [] {
        assert Fits(h, o, raw, 0);
      }
    }
    var ms, later := w.value.messages, RawWindow(h, o, raw + more).value.messages;
    forall k | 0 <= k < |ms| ensures ms[k] == later[k] {
      EarlierFits(h, o, raw, more, k);
      assert Shows(h, o, raw, 0 + k, ms[k]);
    }
  }

  lemma NothingOlder(h: Hooks, o: Settings, records: seq<Record>)
    requires PlanOf(h, o, records).Some? && PlanOf(h, o, records).value.window.start == 0
    ensures var p := PlanOf(h, o, records).value;
            p.anchors == [] && p.dropped == 0 && p.far == [] && p.near == []
  {
    assert F.Filter(records, IsRaw)[..0] == [];
  }

  lemma NoTiers(h: Hooks, o: Settings, p: Plan, store: Option<Store>, now: int)
    requires p.window.start <= |p.raw| && p.anchors == [] && p.dropped == 0 && p.far == [] && p.near == []
    ensures var res := BuiltFrom(h, o, p, store, now).result;
            res.Some? && res.value.messages == SystemMessages(o) + LegacyMessages(h, p.legacy) + p.window.messages
  {
    assert FarTier(h, o, p, store, now) == Tier("", false, store) == NearTier(h, o, p, store, now);
    assert History(h, p, "", "", []) == LegacyMessages(h, p.legacy);
  }

  /** With the window open from the first record on, nothing is left for the tiers and the cache is not asked. */
  lemma AllRaw(h: Hooks, o: Settings, records: seq<Record>, store: Option<Store>, now: int)
    requires PlanOf(h, o, records).Some? && PlanOf(h, o, records).value.window.start == 0
    ensures var p := PlanOf(h, o, records).value;
            var res := BuiltFrom(h, o, p, store, now).result;
            res.Some? && res.value.messages == SystemMessages(o) + LegacyMessages(h, p.legacy) + p.window.messages
  {
    NothingOlder(h, o, records);
    NoTiers(h, o, PlanOf(h, o, records).value, store, now);
  }

  /** The budget holds all raw records, or there is but one, and the guard fails on none. */
  predicate EverythingFits(h: Hooks, o: Settings, records: seq<Record>) {
    var raw := F.Filter(records, IsRaw);
    && (raw != [] ==> Fits(h, o, raw, 0))
    && forall i :: 0 <= i < |raw| ==> Rendered(h, o, raw, i).Some?
  }

  lemma FitsFromTheFirst(h: Hooks, o: Settings, records: seq<Record>)
    ensures EverythingFits(h, o, records) <==>
            PlanOf(h, o, records).Some? && PlanOf(h, o, records).value.window.start == 0
  {
    var raw := F.Filter(records, IsRaw);
    WindowIsLongest(h, o, raw);
    if PlanOf(h, o, records).Some? && PlanOf(h, o, records).value.window.start == 0 {
      var w := RawWindow(h, o, raw).value;
      forall i | 0 <= i < |raw| ensures Rendered(h, o, raw, i).Some? {
        assert Shows(h, o, raw, 0 + i, w.messages[i]);
      }
    }
  }

  /** What a build says of itself, that it sent all raw records verbatim, is what the budget and the guard decide. */
  lemma AllIncludedIff(h: Hooks, settings: Settings, records: seq<Record>, store: Option<Store>, now: int)
    requires records != []
    ensures var res := Built(h, settings, records, store, now).result;
            res.Some? && res.value.includedRaw == |F.Filter(records, IsRaw)| <==>
            EverythingFits(h, Resolved(settings), records)
  {
    var o := Resolved(settings);
    var raw := F.Filter(records, IsRaw);
    FitsFromTheFirst(h, o, records);
    WindowIsLongest(h, o, raw);
    if EverythingFits(h, o, records) {
      AllRaw(h, o, records, store, now);
    }
  }

  lemma MessagesGrow(sys: seq<Message>, older: seq<Message>, a: seq<Message>, b: seq<Message>)
    requires a <= b
    ensures sys + older + a <= sys + older + b
  {
  }

  /** While everything fits, appending records only appends messages: what the earlier build sent is a prefix of
      what the later one sends, whatever the two caches hold. */
  lemma PrefixStable(h: Hooks, settings: Settings, records: seq<Record>, more: seq<Record>,
                     store: Option<Store>, now: int, laterStore: Option<Store>, laterNow: int)
    requires forall i :: 0 <= i < |more| ==> !IsLegacy(more[i])
    requires EverythingFits(h, Resolved(settings), records + more)
    ensures var earlier := Built(h, settings, records, store, now).result;
            var later := Built(h, settings, records + more, laterStore, laterNow).result;
            earlier.Some? && later.Some? && earlier.value.messages <= later.value.messages
  {
    var o := Resolved(settings);
    FitsFromTheFirst(h, o, records + more);
    if records != [] {
      PrefixFromSome(h, o, records, more, store, now, laterStore, laterNow);
    } else if more != [] {
      assert records + more == more;
      AllRaw(h, o, more, laterStore, laterNow);
      SystemFirst(SystemMessages(o), LegacyMessages(h, PlanOf(h, o, more).value.legacy),
                  PlanOf(h, o, more).value.window.messages);
    }
  }

  lemma SystemFirst(sys: seq<Message>, older: seq<Message>, a: seq<Message>)
    ensures sys <= sys + older + a
  {
  }

  lemma PrefixFromSome(h: Hooks, o: Settings, records: seq<Record>, more: seq<Record>,
                       store: Option<Store>, now: int, laterStore: Option<Store>, laterNow: int)
    requires forall i :: 0 <= i < |more| ==> !IsLegacy(more[i])
    requires PlanOf(h, o, records + more).Some? && PlanOf(h, o, records + more).value.window.start == 0
    ensures PlanOf(h, o, records).Some?
    ensures var earlier := BuiltFrom(h, o, PlanOf(h, o, records).value, store, now).result;
            var later := BuiltFrom(h, o, PlanOf(h, o, records + more).value, laterStore, laterNow).result;
            earlier.Some? && later.Some? && earlier.value.messages <= later.value.messages
  {
    F.Distributes(records, more, IsRaw);
    F.Distributes(records, more, IsLegacy);
    F.Uniform(more, IsLegacy, false);
    EarlierWindow(h, o, F.Filter(records, IsRaw), F.Filter(more, IsRaw));
    AllRaw(h, o, records + more, laterStore, laterNow);
    AllRaw(h, o, records, store, now);
    var p, q := PlanOf(h, o, records).value, PlanOf(h, o, records + more).value;
    assert p.legacy == q.legacy;
    MessagesGrow(SystemMessages(o), LegacyMessages(h, p.legacy), p.window.messages, q.window.messages);
  }
}
