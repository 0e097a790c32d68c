/** What the texts of a build say: how a record is rendered, what a tier's block tells, and how large the budget is. */
module ContextTexts {
  import opened ContextBuild
  import opened Options
  import opened Records
  import opened SummaryCache
  import opened Text
  import F = Filtering
  import J = Jaccard

  // ---- one record

  /** A tool result is cut exactly if it is over the cap in tokens and longer than four bytes for each of them; what is
      left is its front, as much of it as the note of the full length leaves room for. */
  lemma TruncatedIff(h: Hooks, text: string, max: int)
    ensures var r, note := Truncated(h, text, max), "\n... [truncated, " + Dec(|text|) + " bytes total]";
            && (r != text <==> max > 0 && h.tok(text) > max && |text| > 4 * max)
            && (r != text ==>
                  && |r| == 4 * max
                  && if |note| < 4 * max then r == text[..4 * max - |note|] + note else r == text[..4 * max])
  {
  }

  /** One line for each of the documents that is known, in the order of the ids. */
  lemma {:induction false} DocumentLines(lookup: string -> Option<string>, ids: seq<string>, id: string)
    ensures AnchorLines(lookup, []) == ""
    ensures AnchorLines(lookup, ids + [id]) ==
            AnchorLines(lookup, ids) + if lookup(id).Some? then lookup(id).value + "\n" else ""
  {
    if ids == [] {
      assert [id][1..] == [] && [] + [id] == [id];
    } else {
      DocumentLines(lookup, ids[1..], id);
      assert (ids + [id])[1..] == ids[1..] + [id];
    }
  }

  /** The parts a record's text is made of, from the front. */
  datatype Parts = Parts(documents: string, mark: string, date: string, body: string)

  predicate BodyOf(h: Hooks, o: Settings, r: Record, body: string) {
    var cut := if r.role.Tool? then Truncated(h, r.content, o.maxTool) else r.content;
    if (r.role.User? || r.role.Tool?) && h.wrap.Some? then h.wrap.value(cut) == Some(body) else body == cut
  }

  predicate DateOf(h: Hooks, r: Record, date: string) {
    if r.role.User? && h.prefix.Some? && r.ts != 0 then date == h.prefix.value(r.ts) + "\n\n" else date == ""
  }

  /** The time stands before tool results and reports, and before a record more than half an hour after the last. */
  predicate MarkOf(h: Hooks, rs: seq<Record>, i: nat, mark: string)
    requires i < |rs|
  {
    if rs[i].role.Tool? || rs[i].role.Report? || (i > 0 && rs[i].ts > rs[i - 1].ts + 1_800_000_000_000)
    then mark == "[" + h.stamp(rs[i].ts) + "]\n" else mark == ""
  }

  predicate DocumentsOf(h: Hooks, r: Record, documents: string) {
    if r.role.User? && h.anchorLine.Some? then documents == AnchorLines(h.anchorLine.value, r.documentIDs)
    else documents == ""
  }

  predicate PartsOf(h: Hooks, o: Settings, rs: seq<Record>, i: nat, p: Parts)
    requires i < |rs|
  {
    DocumentsOf(h, rs[i], p.documents) && MarkOf(h, rs, i, p.mark) && DateOf(h, rs[i], p.date) && BodyOf(h, o, rs[i], p.body)
  }

  lemma Joined(documents: string, mark: string, date: string, body: string)
    ensures documents + (mark + (date + body)) == documents + mark + date + body
    ensures "" + body == body
  {
  }

  /** A record reads as its document lines, its time, its date and its body, each exactly if its role, its place and the
      settings call for it; the body is the content, cut for a tool and wrapped for a user or a tool. */
  lemma RecordReads(h: Hooks, o: Settings, rs: seq<Record>, i: nat) returns (p: Parts)
    requires i < |rs| && Rendered(h, o, rs, i).Some?
    ensures PartsOf(h, o, rs, i, p) && Rendered(h, o, rs, i).value == p.documents + p.mark + p.date + p.body
  {
    var r := rs[i];
    var cut := if r.role.Tool? then Truncated(h, r.content, o.maxTool) else r.content;
    var body := if (r.role.User? || r.role.Tool?) && h.wrap.Some? then h.wrap.value(cut).value else cut;
    var date := if r.role.User? && h.prefix.Some? && r.ts != 0 then h.prefix.value(r.ts) + "\n\n" else "";
    var mark := if ShouldAnnotate(rs, i) then "[" + h.stamp(r.ts) + "]\n" else "";
    var documents := if r.role.User? && h.anchorLine.Some? then AnchorLines(h.anchorLine.value, r.documentIDs) else "";
    p := Parts(documents, mark, date, body);
    Joined(documents, mark, date, body);
    Joined("", "", "", body);
    Joined("", "", "", date + body);
    Joined("", "", "", mark + (date + body));
  }

  // ---- what is selected

  /** The conversation proper: what the user, the assistant and the tools said, but for the assistant's placeholders. */
  lemma RawIff(r: Record)
    ensures IsRaw(r) <==> r.role.User? || r.role.Tool? || (r.role.Assistant? && !HasPrefix(r.content, "[Calling:"))
    ensures IsLegacy(r) <==> r.role.Summary?
  {
  }

  /** Some fact shares at least this part of its tokens with the content. */
  predicate Touches(h: Hooks, content: string, facts: seq<string>, threshold: real) {
    exists j :: 0 <= j < |facts| && J.Score(h.tokenSet(content), h.tokenSet(facts[j])) >= threshold
  }

  lemma NothingShared(a: set<string>, b: set<string>)
    requires a == {} || b == {}
    ensures J.Score(a, b) == 0.0
  {
    assert a * b == {};
  }

  /** The tests for empty token sets add nothing to the threshold. */
  lemma MatchesIff(h: Hooks, content: string, facts: seq<string>, threshold: real)
    requires threshold > 0.0
    ensures Matches(h, content, facts, threshold) <==> content != "" && Touches(h, content, facts, threshold)
  {
    forall j | 0 <= j < |facts| && J.Score(h.tokenSet(content), h.tokenSet(facts[j])) >= threshold
      ensures h.tokenSet(content) != {} && Match(h, content, facts[j], threshold)
    {
      if h.tokenSet(content) == {} || h.tokenSet(facts[j]) == {} {
        NothingShared(h.tokenSet(content), h.tokenSet(facts[j]));
      }
    }
  }

  /** A record is lifted iff it touches an anchor fact, and dropped iff it touches a dead fact and no live one. */
  lemma LiftedAndDroppedIff(h: Hooks, settings: Settings, r: Record)
    ensures var o := Resolved(settings);
            && (IsAnchor(h, o)(r) <==> r.content != "" && Touches(h, r.content, o.anchorFacts, o.anchorThreshold))
            && (IsDead(h, o)(r) <==>
                 && r.content != "" && Touches(h, r.content, o.deadFacts, o.deadThreshold)
                 && !Touches(h, r.content, o.liveFacts, o.deadThreshold))
  {
    var o := Resolved(settings);
    MatchesIff(h, r.content, o.anchorFacts, o.anchorThreshold);
    MatchesIff(h, r.content, o.deadFacts, o.deadThreshold);
    MatchesIff(h, r.content, o.liveFacts, o.deadThreshold);
  }

  // ---- the budget

  function AtLeastZero(x: int): (n: nat)
    ensures n == x || (n == 0 && x < 0)
  {
    if x < 0 then 0 else x
  }

  /** The raw window may use what the prompt and the reserve leave of the context, less the two tiers' shares, each
      rounded down to whole tokens; without a limit the shares are not taken off. */
  lemma BudgetIsTheRest(h: Hooks, o: Settings)
    ensures var rest := AtLeastZero(o.maxContext - h.tok(o.systemPrompt) - o.reserve);
            var far, near := rest as real * o.farShare, rest as real * o.nearShare;
            && (o.maxContext <= 0 ==> RawBudget(h, o) == rest)
            && (o.maxContext > 0 ==>
                  rest as real - far - near <= RawBudget(h, o) as real < rest as real - far - near + 2.0)
  {
  }

  /** Shares and thresholds that are not positive fall back to their defaults; nothing else changes. */
  lemma DefaultsFillIn(o: Settings)
    ensures var r := Resolved(o);
            && r.farShare == (if o.farShare > 0.0 then o.farShare else 0.05)
            && r.nearShare == (if o.nearShare > 0.0 then o.nearShare else 0.15)
            && r.anchorThreshold == (if o.anchorThreshold > 0.0 then o.anchorThreshold else 0.4)
            && r.deadThreshold == (if o.deadThreshold > 0.0 then o.deadThreshold else 0.4)
            && o == r.(farShare := o.farShare, nearShare := o.nearShare, anchorThreshold := o.anchorThreshold,
                       deadThreshold := o.deadThreshold)
  {
  }

  // ---- a tier's block

  /** The block's first line names the tier and, with records, their number and the times of the first and the last. */
  predicate HeadOf(h: Hooks, tier: string, rs: seq<Record>, head: string) {
    if rs == [] then head == "[tier=" + tier + "]\n"
    else head == "[tier=" + tier + "] " + ("[Summary of " + Dec(|rs|) + " earlier turn(s) \U{2014} from " + h.stamp(rs[0].ts)
                                           + " to " + h.stamp(rs[|rs| - 1].ts) + "]") + "\n"
  }

  predicate MiddleOf(rs: seq<Record>, summary: string, middle: string) {
    if summary != "" then middle == summary
    else if rs != [] then middle == "[summary unavailable \U{2014} " + Dec(|rs|) + " records elided]"
    else middle == ""
  }

  predicate NoteOf(dropped: nat, front: string, note: string) {
    if dropped == 0 then note == ""
    else
      note == (if front != "" && front[|front| - 1] == '\n' then "" else "\n")
              + ("[" + Dec(dropped) + " dead-topic turns suppressed]")
  }

  lemma Noted(body: string, newline: string, open: string, count: string, close: string)
    ensures body + newline + open + count + close == body + (newline + (open + count + close))
    ensures body + "" == body
  {
  }

  function Head(h: Hooks, tier: string, rs: seq<Record>): (head: string)
    ensures HeadOf(h, tier, rs, head) && head != ""
  {
    if |rs| > 0 then "[tier=" + tier + "] " + SummaryHeader(h, rs[0].ts, rs[|rs| - 1].ts, |rs|) + "\n"
    else "[tier=" + tier + "]\n"
  }

  function Middle(rs: seq<Record>, summary: string): (middle: string)
    ensures MiddleOf(rs, summary, middle)
  {
    if summary != "" then summary
    else if |rs| > 0 then "[summary unavailable \U{2014} " + Dec(|rs|) + " records elided]" else ""
  }

  lemma BlockIs(h: Hooks, tier: string, rs: seq<Record>, dropped: nat, summary: string, body: string)
    requires body == Head(h, tier, rs) + Middle(rs, summary)
    ensures body != ""
    ensures TierBlock(h, tier, rs, dropped, summary) ==
            if dropped == 0 then body
            else
              body + (if body[|body| - 1] != '\n' then "\n" else "")
              + "[" + Dec(dropped) + " dead-topic turns suppressed]"
  {
  }

  /** A tier's block is its head, the summary, or a note that there is none, and the number of dropped records. */
  lemma BlockReads(h: Hooks, tier: string, rs: seq<Record>, dropped: nat, summary: string)
    returns (head: string, middle: string, note: string)
    ensures HeadOf(h, tier, rs, head) && MiddleOf(rs, summary, middle) && NoteOf(dropped, head + middle, note)
    ensures TierBlock(h, tier, rs, dropped, summary) == (head + middle) + note
  {
    head, middle := Head(h, tier, rs), Middle(rs, summary);
    var body := head + middle;
    BlockIs(h, tier, rs, dropped, summary, body);
    var newline := if body[|body| - 1] != '\n' then "\n" else "";
    Noted(body, newline, "[", Dec(dropped), " dead-topic turns suppressed]");
    note := if dropped == 0 then "" else newline + ("[" + Dec(dropped) + " dead-topic turns suppressed]");
  }

  /** What the summarizer makes of the records, if it is not blank. */
  function SummaryOf(h: Hooks, id: string, rs: seq<Record>): string {
    if rs == [] then ""
    else match h.summarize(id, Projs(rs))
      case Some(text) => if h.blank(text) then "" else text
      case None => ""
  }

  /** The summarizer is shown role, tool and content of each record, in order. */
  lemma ShownToTheSummarizer(rs: seq<Record>, k: nat)
    requires k < |rs|
    ensures |Projs(rs)| == |rs| && Projs(rs)[k] == Proj(rs[k].role, rs[k].toolName, rs[k].content)
  {
  }

  /** Without a cache, a tier tells the summary of exactly its records. */
  lemma TierTellsItsRecords(h: Hooks, a: Input, dropped: nat, now: int)
    requires a.records != [] || dropped > 0
    ensures TierOf(h, a, dropped, None, now).block ==
            TierBlock(h, a.tier, a.records, dropped, SummaryOf(h, a.summarizerID, a.records))
  {
  }
}
