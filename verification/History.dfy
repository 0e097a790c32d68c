/** What a run of agentLoop appends to the session, and the two ways GetToolCallDetails pairs a tool
    result with the call that produced it. */
module History {
  import opened Options
  import opened Records
  import opened Sequences

  // ---------------------------------------------------------------- the grammar of a history

  /** A tool result and the report its call may have left behind. */
  datatype Answer = Answer(tool: Record, report: Option<Record>)

  /** A stretch of the history: one message, or an assistant's calls with all their answers. */
  datatype Block = Said(r: Record) | CallRun(head: Record, answers: seq<Answer>)

  predicate AnswerOk(c: ToolCall, a: Answer) {
    && a.tool.role.Tool? && a.tool.toolCallID == c.id && a.tool.toolName == c.name
    && (a.report.Some? ==> a.report.value.role.Report?)
  }

  predicate BlockOk(b: Block) {
    match b
    case Said(r) => r.role.User? || r.role.Summary? || (r.role.Assistant? && r.calls == [])
    case CallRun(head, answers) =>
      && head.role.Assistant? && 0 < |head.calls| == |answers|
      && forall j :: 0 <= j < |answers| ==> AnswerOk(head.calls[j], answers[j])
  }

  predicate AllOk(bs: seq<Block>) {
    forall i :: 0 <= i < |bs| ==> BlockOk(bs[i])
  }

  function AnswerRecords(a: Answer): seq<Record> {
    [a.tool] + if a.report.Some? then [a.report.value] else []
  }

  function AnswersRecords(answers: seq<Answer>): seq<Record> {
    if answers == [] then []
    else AnswersRecords(answers[..|answers| - 1]) + AnswerRecords(answers[|answers| - 1])
  }

  function BlockRecords(b: Block): seq<Record> {
    match b
    case Said(r) => [r]
    case CallRun(head, answers) => [head] + AnswersRecords(answers)
  }

  function Flatten(bs: seq<Block>): seq<Record> {
    if bs == [] then [] else Flatten(bs[..|bs| - 1]) + BlockRecords(bs[|bs| - 1])
  }

  /** The history grammar: every assistant record with k calls is followed by its k tool records in
      order, with at most one report after each. */
  ghost predicate InGrammar(rs: seq<Record>) {
    exists bs :: AllOk(bs) && Flatten(bs) == rs
  }

  lemma {:induction false} FlattenAppend(bs: seq<Block>, cs: seq<Block>)
    ensures Flatten(bs + cs) == Flatten(bs) + Flatten(cs)
  {
    if cs == [] {
      assert bs + cs == bs;
    } else {
      var k := |cs| - 1;
      assert (bs + cs)[..|bs| + k] == bs + cs[..k];
      FlattenAppend(bs, cs[..k]);
      Assoc(Flatten(bs), Flatten(cs[..k]), BlockRecords(cs[k]));
    }
  }

  lemma FlattenOne(b: Block)
    ensures Flatten([b]) == BlockRecords(b)
  {
    assert [b][..0] == [];
  }

  lemma {:induction false} AnswersAppend(xs: seq<Answer>, ys: seq<Answer>)
    ensures AnswersRecords(xs + ys) == AnswersRecords(xs) + AnswersRecords(ys)
  {
    if ys == [] {
      assert xs + ys == xs;
    } else {
      var k := |ys| - 1;
      assert (xs + ys)[..|xs| + k] == xs + ys[..k];
      AnswersAppend(xs, ys[..k]);
      Assoc(AnswersRecords(xs), AnswersRecords(ys[..k]), AnswerRecords(ys[k]));
    }
  }

  /** Appending the records of one more answer. */
  lemma {:induction false} AppendAnswer(rs: seq<Record>, answers: seq<Answer>, a: Answer)
    ensures rs + AnswersRecords(answers + [a]) == (rs + AnswersRecords(answers)) + AnswerRecords(a)
  {
    assert (answers + [a])[..|answers|] == answers;
    Assoc(rs, AnswersRecords(answers), AnswerRecords(a));
  }

  /** Appending the records of one more block to a history extends its parse by that block. */
  lemma AppendBlock(rs: seq<Record>, bs: seq<Block>, b: Block)
    ensures rs + Flatten(bs + [b]) == (rs + Flatten(bs)) + BlockRecords(b)
  {
    FlattenAppend(bs, [b]);
    FlattenOne(b);
    Assoc(rs, Flatten(bs), BlockRecords(b));
  }

  // ---------------------------------------------------------------- agentLoop

  /** One round as the outside world answers it: the context is cancelled, building the messages or
      calling the model fails, or the model replies. */
  datatype Round = Cancelled | BuildFails | ChatFails | Reply(content: string, calls: seq<ToolCall>)

  datatype ReportDraft = ReportDraft(title: string, content: string, objectID: string)

  /** What running one tool call gives: create-report also leaves a draft to flush. */
  datatype ToolOutcome = ToolOutcome(result: string, status: string, draft: Option<ReportDraft>)

  datatype LoopResult = Failed | Text(content: string)

  function UserRecord(ts: int, message: string, objectIDs: seq<string>, documentIDs: seq<string>): Record {
    Plain(ts, User, message).(objectIDs := objectIDs, documentIDs := documentIDs)
  }

  /** The draft to flush after a call: the one its tool left, or else one left over from before. */
  function Due(pending: Option<ReportDraft>, out: ToolOutcome): Option<ReportDraft> {
    if out.draft.Some? then out.draft else pending
  }

  predicate ReportTells(d: ReportDraft, r: Record) {
    r == Plain(r.ts, Report, d.content).(toolName := d.title, objectIDs := if d.objectID != "" then [d.objectID] else [])
  }

  /** The tool record holds what this call returned, and a report follows exactly if there is a draft. */
  predicate AnswerTells(c: ToolCall, out: ToolOutcome, pending: Option<ReportDraft>, a: Answer) {
    && a.tool == Plain(a.tool.ts, Tool, out.result).(toolCallID := c.id, toolName := c.name, status := out.status)
    && (a.report.Some? <==> Due(pending, out).Some?)
    && (a.report.Some? ==> ReportTells(Due(pending, out).value, a.report.value))
  }

  /** Each call of a reply, in order, with what it returned; only the first can find a draft left over. */
  predicate AnswersTell(calls: seq<ToolCall>, exec: nat -> ToolOutcome, pending: Option<ReportDraft>, answers: seq<Answer>) {
    && |answers| == |calls|
    && forall j :: 0 <= j < |answers| ==> AnswerTells(calls[j], exec(j), if j == 0 then pending else None, answers[j])
  }

  lemma AnswersTellMore(calls: seq<ToolCall>, j: nat, exec: nat -> ToolOutcome, pending: Option<ReportDraft>,
                        answers: seq<Answer>, a: Answer)
    requires j < |calls| && AnswersTell(calls[..j], exec, pending, answers)
    requires AnswerTells(calls[j], exec(j), if j == 0 then pending else None, a)
    ensures AnswersTell(calls[..j + 1], exec, pending, answers + [a])
  {
  }

  lemma TellingIsOk(head: Record, exec: nat -> ToolOutcome, pending: Option<ReportDraft>, answers: seq<Answer>)
    requires head.role.Assistant? && head.calls != [] && AnswersTell(head.calls, exec, pending, answers)
    ensures BlockOk(CallRun(head, answers))
  {
    forall j | 0 <= j < |answers| ensures AnswerOk(head.calls[j], answers[j]) {
      assert AnswerTells(head.calls[j], exec(j), if j == 0 then pending else None, answers[j]);
    }
  }

  /** A round that leaves something in the history. */
  predicate Speaks(round: Round) {
    round.Reply? && (round.calls != [] || round.content != "")
  }

  /** The block is what this round said: the calls with what they returned, or the words. */
  predicate RoundTells(round: Round, exec: nat -> ToolOutcome, pending: Option<ReportDraft>, b: Block) {
    && Speaks(round)
    && match b
       case CallRun(head, answers) =>
         && round.calls != [] && head == Plain(head.ts, Assistant, round.content).(calls := round.calls)
         && AnswersTell(round.calls, exec, pending, answers)
       case Said(r) => round.calls == [] && r == Plain(r.ts, Assistant, round.content)
  }

  predicate EmptyReply(round: Round) {
    round.Reply? && round.calls == [] && round.content == ""
  }

  /** The loop goes on after a reply with calls, and once after an empty one. */
  predicate GoesOn(world: nat -> Round, i: nat) {
    && world(i).Reply?
    && (world(i).calls != [] || (EmptyReply(world(i)) && forall k: nat :: k < i ==> !EmptyReply(world(k))))
  }

  /** What a round that ends the loop makes it return. */
  function Ends(round: Round): LoopResult {
    match round
    case Cancelled => Text("(Cancelled)")
    case BuildFails => Failed
    case ChatFails => Failed
    case Reply(content, _) => Text(content)
  }

  function Of(exec: (nat, nat) -> ToolOutcome, i: nat): nat -> ToolOutcome {
    (j: nat) => exec(i, j)
  }

  /** The loop ran up to round stop, the first that does not go on, or through all rounds. */
  predicate Stops(world: nat -> Round, maxRounds: nat, stop: nat, r: LoopResult) {
    && stop <= maxRounds && (forall i: nat :: i < stop ==> GoesOn(world, i))
    && (stop < maxRounds ==> !GoesOn(world, stop) && r == Ends(world(stop)))
    && (stop == maxRounds ==> r == Text("(Max tool rounds reached)"))
  }

  /** The rounds before end that speak, each once and in order. */
  predicate Timeline(world: nat -> Round, end: nat, at: seq<nat>) {
    && (forall k, l :: 0 <= k < l < |at| ==> at[k] < at[l])
    && (forall k :: 0 <= k < |at| ==> at[k] < end)
    && (forall i: nat :: i < end && Speaks(world(i)) ==> i in at)
  }

  /** said[k] is the block of round at[k]. */
  predicate Told(world: nat -> Round, exec: (nat, nat) -> ToolOutcome, pending: Option<ReportDraft>, at: seq<nat>,
                 said: seq<Block>) {
    && |at| == |said|
    && forall k :: 0 <= k < |at| ==>
         RoundTells(world(at[k]), Of(exec, at[k]), if k == 0 then pending else None, said[k])
  }

  /** The blocks are what the rounds before end said. */
  predicate Transcript(world: nat -> Round, exec: (nat, nat) -> ToolOutcome, pending: Option<ReportDraft>, end: nat,
                       at: seq<nat>, said: seq<Block>) {
    Timeline(world, end, at) && Told(world, exec, pending, at, said)
  }

  lemma TimelineGrows(world: nat -> Round, end: nat, at: seq<nat>)
    requires Timeline(world, end, at)
    ensures Timeline(world, end + 1, if Speaks(world(end)) then at + [end] else at)
  {
    var more := if Speaks(world(end)) then at + [end] else at;
    forall i: nat | i < end + 1 && Speaks(world(i)) ensures i in more {
      if i < end {
        assert i in at;
      } else {
        assert more[|at|] == end;
      }
    }
  }

  lemma ToldMore(world: nat -> Round, exec: (nat, nat) -> ToolOutcome, pending: Option<ReportDraft>, at: seq<nat>,
                 said: seq<Block>, i: nat, b: Block)
    requires Told(world, exec, pending, at, said)
    requires RoundTells(world(i), Of(exec, i), if at == [] then pending else None, b)
    ensures Told(world, exec, pending, at + [i], said + [b])
  {
  }

  /** One more round, which speaks or does not. */
  lemma TranscriptGrows(world: nat -> Round, exec: (nat, nat) -> ToolOutcome, pending: Option<ReportDraft>, end: nat,
                        at: seq<nat>, said: seq<Block>, now: Option<ReportDraft>, added: seq<Block>)
    requires Transcript(world, exec, pending, end, at, said) && now == if at == [] then pending else None
    requires |added| == if Speaks(world(end)) then 1 else 0
    requires added != [] ==> RoundTells(world(end), Of(exec, end), now, added[0])
    ensures Transcript(world, exec, pending, end + 1, if added == [] then at else at + [end], said + added)
  {
    TimelineGrows(world, end, at);
    if added == [] {
      assert said + added == said;
    } else {
      assert added == [added[0]];
      ToldMore(world, exec, pending, at, said, end, added[0]);
    }
  }

  /** All rounds so far went on; retried says whether one was empty. */
  predicate Going(world: nat -> Round, round: nat, retried: bool) {
    && (forall i: nat :: i < round ==> GoesOn(world, i))
    && (retried <==> exists k: nat :: k < round && EmptyReply(world(k)))
  }

  lemma GoesOnIff(world: nat -> Round, round: nat, retried: bool)
    requires Going(world, round, retried)
    ensures GoesOn(world, round) <==> world(round).Reply? && (world(round).calls != [] || (world(round).content == "" && !retried))
  {
  }

  lemma GoingOn(world: nat -> Round, round: nat, retried: bool)
    requires Going(world, round, retried) && GoesOn(world, round)
    ensures Going(world, round + 1, retried || EmptyReply(world(round)))
  {
  }

  /** The blocks of one run: the user's message, then one CallRun per round with calls, then perhaps
      a final non-empty assistant message. */
  predicate RunShape(bs: seq<Block>, user: Record, rounds: nat, r: LoopResult) {
    && AllOk(bs)
    && |bs| >= 1 && bs[0] == Said(user)
    && (forall i :: 1 <= i < |bs| - 1 ==> bs[i].CallRun?)
    && (|bs| > 1 && bs[|bs| - 1].Said? ==>
          bs[|bs| - 1].r.role.Assistant? && bs[|bs| - 1].r.content != "" && r == Text(bs[|bs| - 1].r.content))
    && |bs| <= rounds + 1
  }

  /** What one round adds: nothing, a call run that keeps the loop going, or the final words that end it. */
  ghost predicate Adds(added: seq<Block>, next: Option<LoopResult>) {
    || added == []
    || (|added| == 1 && BlockOk(added[0]) && added[0].CallRun? && next.None?)
    || (|added| == 1 && BlockOk(added[0]) && added[0].Said? && added[0].r.role.Assistant? && added[0].r.content != ""
        && next == Some(Text(added[0].r.content)))
  }

  /** A run still going on: the user's record and call runs. */
  predicate Underway(bs: seq<Block>, user: Record, round: nat) {
    && AllOk(bs) && 1 <= |bs| <= round + 1 && bs[0] == Said(user)
    && forall i :: 1 <= i < |bs| ==> bs[i].CallRun?
  }

  /** What a round comes to: whether the loop goes on, what it returns if not, and what was added. */
  predicate Took(round: Round, retried: bool, exec: nat -> ToolOutcome, before: Option<ReportDraft>,
                 next: Option<LoopResult>, retryDone: bool, added: seq<Block>, after: Option<ReportDraft>) {
    && (next.None? <==> round.Reply? && (round.calls != [] || (round.content == "" && !retried)))
    && (next.Some? ==> next.value == Ends(round))
    && (retryDone <==> retried || (next.None? && EmptyReply(round)))
    && |added| == (if Speaks(round) then 1 else 0)
    && (added != [] ==> RoundTells(round, exec, before, added[0]))
    && after == if round.Reply? && round.calls != [] then None else before
  }

  lemma RoundShapes(bs: seq<Block>, added: seq<Block>, next: Option<LoopResult>, user: Record, round: nat, rounds: nat)
    requires Underway(bs, user, round) && Adds(added, next) && round < rounds
    ensures next.None? ==> Underway(bs + added, user, round + 1)
    ensures next.Some? ==> RunShape(bs + added, user, rounds, next.value)
  {
    var all := bs + added;
    if added != [] {
      assert all == bs + [added[0]];
    }
  }

  lemma LoopDecides(world: nat -> Round, exec: (nat, nat) -> ToolOutcome, round: nat, retried: bool, maxRounds: nat,
                    before: Option<ReportDraft>, next: Option<LoopResult>, retryDone: bool, added: seq<Block>,
                    after: Option<ReportDraft>)
    requires Going(world, round, retried) && round < maxRounds
    requires Took(world(round), retried, Of(exec, round), before, next, retryDone, added, after)
    ensures next.None? ==> Going(world, round + 1, retryDone)
    ensures next.Some? ==> Stops(world, maxRounds, round, next.value)
    ensures next.None? ==> after == if added == [] then before else None
  {
    GoesOnIff(world, round, retried);
    if next.None? {
      GoingOn(world, round, retried);
    }
  }

  /** The loop before a round: what the rounds so far said, behind the user's message. */
  predicate Looping(user: Record, world: nat -> Round, exec: (nat, nat) -> ToolOutcome, pending: Option<ReportDraft>,
                    round: nat, retried: bool, blocks: seq<Block>, at: seq<nat>, now: Option<ReportDraft>) {
    && Underway(blocks, user, round) && Going(world, round, retried)
    && Transcript(world, exec, pending, round, at, blocks[1..]) && now == if at == [] then pending else None
  }

  /** The loop after the round that ended it. */
  ghost predicate Ended(user: Record, world: nat -> Round, exec: (nat, nat) -> ToolOutcome, pending: Option<ReportDraft>,
                        round: nat, maxRounds: nat, r: LoopResult, blocks: seq<Block>, at: seq<nat>) {
    && RunShape(blocks, user, maxRounds, r) && Stops(world, maxRounds, round, r)
    && Transcript(world, exec, pending, round + 1, at, blocks[1..])
  }

  lemma RoundDone(user: Record, world: nat -> Round, exec: (nat, nat) -> ToolOutcome, pending: Option<ReportDraft>,
                  round: nat, retried: bool, maxRounds: nat, blocks: seq<Block>, at: seq<nat>, now: Option<ReportDraft>,
                  next: Option<LoopResult>, retryDone: bool, added: seq<Block>, after: Option<ReportDraft>)
    requires Looping(user, world, exec, pending, round, retried, blocks, at, now) && round < maxRounds
    requires Adds(added, next) && Took(world(round), retried, Of(exec, round), now, next, retryDone, added, after)
    ensures var at' := if added == [] then at else at + [round];
            if next.None? then Looping(user, world, exec, pending, round + 1, retryDone, blocks + added, at', after)
            else Ended(user, world, exec, pending, round, maxRounds, next.value, blocks + added, at')
  {
    RoundShapes(blocks, added, next, user, round, maxRounds);
    TranscriptGrows(world, exec, pending, round, at, blocks[1..], now, added);
    LoopDecides(world, exec, round, retried, maxRounds, now, next, retryDone, added, after);
    assert (blocks + added)[1..] == blocks[1..] + added;
  }

  class Session {
    var records: seq<Record>

    constructor ()
      ensures records == []
    {
      records := [];
    }

    method Append(r: Record)
      modifies this
      ensures records == old(records) + [r]
    {
      records := records + [r];
    }
  }

  class Agent {
    const session: Session
    var pendingReport: Option<ReportDraft>

    constructor (session: Session)
      ensures this.session == session && pendingReport == None
    {
      this.session := session;
      pendingReport := None;
    }

    method FlushPendingReport(ts: int) returns (ghost flushed: Option<Record>)
      modifies this, session
      ensures pendingReport == None
      ensures flushed.Some? <==> old(pendingReport).Some?
      ensures flushed.Some? ==> ReportTells(old(pendingReport).value, flushed.value) && flushed.value.ts == ts
      ensures session.records == old(session.records) + if flushed.Some? then [flushed.value] else []
    {
      var pending := pendingReport;
      pendingReport := None;
      flushed := None;
      if pending.Some? {
        var d := pending.value;
        var r := Plain(ts, Report, d.content).(toolName := d.title,
                                               objectIDs := if d.objectID != "" then [d.objectID] else []);
        session.Append(r);
        flushed := Some(r);
      }
    }

    /** One call: its tool record, and the report its tool left, if any. */
    method ExecuteCall(c: ToolCall, out: ToolOutcome, clock: nat -> int) returns (ghost answer: Answer)
      modifies this, session
      ensures AnswerOk(c, answer) && AnswerTells(c, out, old(pendingReport), answer) && pendingReport == None
      ensures session.records == old(session.records) + AnswerRecords(answer)
    {
      if out.draft.Some? {
        pendingReport := out.draft;
      }
      var tool := Plain(clock(|session.records|), Tool, out.result)
        .(toolCallID := c.id, toolName := c.name, status := out.status);
      session.Append(tool);
      ghost var report := FlushPendingReport(clock(|session.records|));
      answer := Answer(tool, report);
    }

    /** The loop over the calls of one reply. */
    method ExecuteCalls(head: Record, exec: nat -> ToolOutcome, clock: nat -> int) returns (ghost answers: seq<Answer>)
      requires head.role.Assistant? && head.calls != []
      modifies this, session
      ensures BlockOk(CallRun(head, answers)) && AnswersTell(head.calls, exec, old(pendingReport), answers)
      ensures session.records == old(session.records) + AnswersRecords(answers) && pendingReport == None
    {
      answers := [];
      var j := 0;
      while j < |head.calls|
        invariant 0 <= j == |answers| <= |head.calls|
        invariant AnswersTell(head.calls[..j], exec, old(pendingReport), answers)
        invariant pendingReport == if j == 0 then old(pendingReport) else None
        invariant session.records == old(session.records) + AnswersRecords(answers)
      {
        ghost var answer := ExecuteCall(head.calls[j], exec(j), clock);
        AppendAnswer(old(session.records), answers, answer);
        AnswersTellMore(head.calls, j, exec, old(pendingReport), answers, answer);
        answers := answers + [answer];
        j := j + 1;
      }
      assert head.calls[..j] == head.calls;
      TellingIsOk(head, exec, old(pendingReport), answers);
    }

    /** A reply with calls: the assistant record, then the answer to each call. */
    method RunCalls(content: string, calls: seq<ToolCall>, exec: nat -> ToolOutcome, clock: nat -> int,
                    ghost start: seq<Record>, ghost blocks: seq<Block>) returns (ghost block: Block)
      requires calls != [] && session.records == start + Flatten(blocks)
      modifies this, session
      ensures block.CallRun? && BlockOk(block) && RoundTells(Reply(content, calls), exec, old(pendingReport), block)
      ensures session.records == start + Flatten(blocks + [block]) && pendingReport == None
    {
      var head := Plain(clock(|session.records|), Assistant, content).(calls := calls);
      session.Append(head);
      ghost var answers := ExecuteCalls(head, exec, clock);
      block := CallRun(head, answers);
      AppendBlock(start, blocks, block);
      Assoc(start + Flatten(blocks), [head], AnswersRecords(answers));
    }

    /** A reply in words. */
    method SayFinal(content: string, clock: nat -> int, ghost start: seq<Record>, ghost blocks: seq<Block>)
      returns (ghost said: Record)
      requires session.records == start + Flatten(blocks)
      modifies session
      ensures said == Plain(said.ts, Assistant, content) && BlockOk(Said(said))
      ensures session.records == start + Flatten(blocks + [Said(said)])
    {
      var r := Plain(clock(|session.records|), Assistant, content);
      session.Append(r);
      said := r;
      AppendBlock(start, blocks, Said(said));
    }

    /** One round of the loop: next is what agentLoop returns, None to go on. */
    method OneRound(round: Round, retried: bool, exec: nat -> ToolOutcome, clock: nat -> int,
                    ghost start: seq<Record>, ghost blocks: seq<Block>)
      returns (next: Option<LoopResult>, retryDone: bool, ghost added: seq<Block>)
      requires session.records == start + Flatten(blocks)
      modifies this, session
      ensures session.records == start + Flatten(blocks + added) && Adds(added, next)
      ensures Took(round, retried, exec, old(pendingReport), next, retryDone, added, pendingReport)
    {
      next, retryDone, added := None, retried, [];
      assert blocks + [] == blocks;
      match round {
        case Cancelled => next := Some(Text("(Cancelled)"));
        case BuildFails => next := Some(Failed);
        case ChatFails => next := Some(Failed);
        case Reply(content, calls) =>
          if calls != [] {
            ghost var block := RunCalls(content, calls, exec, clock, start, blocks);
            added := [block];
          } else if content != "" {
            ghost var said := SayFinal(content, clock, start, blocks);
            next, added := Some(Text(content)), [Said(said)];
          } else if !retried {
            retryDone := true;
          } else {
            next := Some(Text(content));
          }
      }
    }

    /** One turn of the loop, and what it adds to the record. */
    method TakeRound(world: nat -> Round, exec: (nat, nat) -> ToolOutcome, clock: nat -> int, round: nat, retried: bool,
                     maxRounds: nat, ghost start: seq<Record>, ghost user: Record, ghost pending: Option<ReportDraft>,
                     ghost blocks: seq<Block>, ghost at: seq<nat>)
      returns (next: Option<LoopResult>, retryDone: bool, ghost more: seq<Block>, ghost later: seq<nat>)
      requires session.records == start + Flatten(blocks) && round < maxRounds
      requires Looping(user, world, exec, pending, round, retried, blocks, at, pendingReport)
      modifies this, session
      ensures session.records == start + Flatten(more)
      ensures if next.None? then Looping(user, world, exec, pending, round + 1, retryDone, more, later, pendingReport)
              else Ended(user, world, exec, pending, round, maxRounds, next.value, more, later)
    {
      ghost var added, now := [], pendingReport;
      next, retryDone, added := OneRound(world(round), retried, Of(exec, round), clock, start, blocks);
      RoundDone(user, world, exec, pending, round, retried, maxRounds, blocks, at, now, next, retryDone, added,
                pendingReport);
      more, later := blocks + added, if added == [] then at else at + [round];
    }

    /** agentLoop, the model and the tools being given by world and exec. stop is the round that ends the loop, or the
        number of rounds; the blocks behind the user's message are those of the rounds at. */
    method AgentLoop(message: string, objectIDs: seq<string>, documentIDs: seq<string>, maxRounds: nat,
                     world: nat -> Round, exec: (nat, nat) -> ToolOutcome, clock: nat -> int)
      returns (r: LoopResult, ghost blocks: seq<Block>, ghost at: seq<nat>, ghost stop: nat)
      modifies this, session
      ensures RunShape(blocks, UserRecord(clock(|old(session.records)|), message, objectIDs, documentIDs), maxRounds, r)
      ensures blocks[0].Said? && var said := blocks[0].r;
              said.role.User? && said.content == message && said.objectIDs == objectIDs && said.documentIDs == documentIDs
      ensures session.records == old(session.records) + Flatten(blocks)
      ensures Stops(world, maxRounds, stop, r)
      ensures Transcript(world, exec, old(pendingReport), if stop < maxRounds then stop + 1 else stop, at, blocks[1..])
    {
      var user := UserRecord(clock(|session.records|), message, objectIDs, documentIDs);
      session.Append(user);
      blocks, at := [Said(user)], [];
      FlattenOne(Said(user));
      var emptyRetryDone := false;
      var round := 0;
      while round < maxRounds
        invariant 0 <= round <= maxRounds && session.records == old(session.records) + Flatten(blocks)
        invariant Looping(user, world, exec, old(pendingReport), round, emptyRetryDone, blocks, at, pendingReport)
      {
        var next;
        next, emptyRetryDone, blocks, at := TakeRound(world, exec, clock, round, emptyRetryDone, maxRounds,
                                                      old(session.records), user, old(pendingReport), blocks, at);
        if next.Some? {
          return next.value, blocks, at, round;
        }
        round := round + 1;
      }
      r, stop := Text("(Max tool rounds reached)"), round;
    }
  }

  /** Any number of runs from a history in the grammar leaves a history in the grammar. */
  lemma RunKeepsGrammar(rs: seq<Record>, bs: seq<Block>, user: Record, rounds: nat, r: LoopResult)
    requires InGrammar(rs) && RunShape(bs, user, rounds, r)
    ensures InGrammar(rs + Flatten(bs))
  {
    var as' :| AllOk(as') && Flatten(as') == rs;
    FlattenAppend(as', bs);
    assert AllOk(as' + bs);
  }

  // ---------------------------------------------------------------- pairing by position

  datatype Details = Details(name: string, args: string, result: string, status: string, callTs: Option<int>, resultTs: Option<int>)

  datatype Lookup = OutOfRange | NotATool | NotFound | Found(d: Details)

  function StatusOf(r: Record): string {
    if r.status == "" then "success" else r.status
  }

  /** Walking back from position n: the nearest assistant record, and how many tool records lie
      between it and n; None when there is no assistant record. */
  function WalkBack(rs: seq<Record>, n: nat): (found: (Option<nat>, nat))
    requires n <= |rs|
    ensures found.0.Some? ==> found.0.value < n && rs[found.0.value].role.Assistant?
  {
    if n == 0 then (None, 0)
    else if rs[n - 1].role.Assistant? then (Some(n - 1), 0)
    else var (a, k) := WalkBack(rs, n - 1); (a, if rs[n - 1].role.Tool? then k + 1 else k)
  }

  /** The name-matching fallback: the first call of the given name. */
  function ArgsByName(calls: seq<ToolCall>, name: string): string {
    if calls == [] then ""
    else if calls[0].name == name then calls[0].args
    else ArgsByName(calls[1..], name)
  }

  function DetailsByIndex(rs: seq<Record>, idx: int): Lookup {
    if idx < 0 || idx >= |rs| then OutOfRange
    else if !rs[idx].role.Tool? then NotATool
    else
      var r := rs[idx];
      var (a, k) := WalkBack(rs, idx);
      if a.None? then Found(Details(r.toolName, "", r.content, StatusOf(r), None, Some(r.ts)))
      else if k < |rs[a.value].calls| then
        var c := rs[a.value].calls[k];
        Found(Details(if r.toolName == "" then c.name else r.toolName, c.args, r.content, StatusOf(r),
                      Some(rs[a.value].ts), Some(r.ts)))
      else
        Found(Details(r.toolName, ArgsByName(rs[a.value].calls, r.toolName), r.content, StatusOf(r),
                      Some(rs[a.value].ts), Some(r.ts)))
  }

  /** toolCallDetailsByIndex, with its backward loop. */
  method ToolCallDetailsByIndex(rs: seq<Record>, idx: int) returns (out: Lookup)
    ensures out == DetailsByIndex(rs, idx)
  {
    if idx < 0 || idx >= |rs| {
      return OutOfRange;
    }
    var r := rs[idx];
    if !r.role.Tool? {
      return NotATool;
    }
    var nthInRun := 0;
    var assistantIdx := -1;
    var j := idx - 1;
    while j >= 0 && assistantIdx < 0
      invariant -1 <= j < idx && -1 <= assistantIdx < idx
      invariant assistantIdx < 0 ==>
        var (a, k) := WalkBack(rs, j + 1); WalkBack(rs, idx) == (a, nthInRun + k)
      invariant assistantIdx >= 0 ==> WalkBack(rs, idx) == (Some(assistantIdx), nthInRun)
      decreases j
    {
      match rs[j].role {
        case Tool => nthInRun := nthInRun + 1;
        case Assistant => assistantIdx := j;
        case _ =>
      }
      j := j - 1;
    }
    var name, args, callTs := r.toolName, "", None;
    if assistantIdx >= 0 {
      var ar := rs[assistantIdx];
      callTs := Some(ar.ts);
      if nthInRun < |ar.calls| {
        args := ar.calls[nthInRun].args;
        if name == "" {
          name := ar.calls[nthInRun].name;
        }
      } else {
        var i := 0;
        while i < |ar.calls| && ar.calls[i].name != r.toolName
          invariant 0 <= i <= |ar.calls|
          invariant ArgsByName(ar.calls, r.toolName) == ArgsByName(ar.calls[i..], r.toolName)
        {
          i := i + 1;
        }
        if i < |ar.calls| {
          args := ar.calls[i].args;
        }
      }
    }
    out := Found(Details(name, args, r.content, StatusOf(r), callTs, Some(r.ts)));
  }

  /** Where the answer to call j of block i stands in the flattened history. */
  function ToolPosition(bs: seq<Block>, i: nat, j: nat): nat
    requires i < |bs| && bs[i].CallRun? && j < |bs[i].answers|
  {
    |Flatten(bs[..i])| + 1 + |AnswersRecords(bs[i].answers[..j])|
  }

  lemma {:induction false} WalkBackLocal(rs: seq<Record>, qs: seq<Record>, n: nat)
    requires n <= |rs| && n <= |qs| && rs[..n] == qs[..n]
    ensures WalkBack(rs, n) == WalkBack(qs, n)
  {
    if n > 0 {
      assert rs[n - 1] == rs[..n][n - 1] == qs[..n][n - 1] == qs[n - 1];
      assert rs[..n - 1] == rs[..n][..n - 1] == qs[..n][..n - 1] == qs[..n - 1];
      WalkBackLocal(rs, qs, n - 1);
    }
  }

  /** Over the answers given so far the walk finds their head and counts exactly them. */
  lemma {:induction false} WalkBackOverAnswers(pre: seq<Record>, head: Record, answers: seq<Answer>)
    requires head.role.Assistant? && |answers| <= |head.calls|
    requires forall j :: 0 <= j < |answers| ==> AnswerOk(head.calls[j], answers[j])
    ensures var rs := pre + [head] + AnswersRecords(answers); WalkBack(rs, |rs|) == (Some(|pre|), |answers|)
  {
    var rs := pre + [head] + AnswersRecords(answers);
    if answers != [] {
      var k := |answers| - 1;
      var qs := pre + [head] + AnswersRecords(answers[..k]);
      WalkBackOverAnswers(pre, head, answers[..k]);
      assert rs == qs + AnswerRecords(answers[k]);
      WalkBackLocal(rs, qs, |qs|);
      assert rs[|qs|] == answers[k].tool;
      assert WalkBack(rs, |qs| + 1) == (Some(|pre|), k + 1);
    }
  }

  lemma Around<T>(s: seq<T>, i: nat)
    requires i < |s|
    ensures s == s[..i] + ([s[i]] + s[i + 1..])
  {
  }

  lemma AnswersFrontAndRest(front: seq<Answer>, a: Answer, rest: seq<Answer>)
    ensures AnswersRecords(front + ([a] + rest)) == AnswersRecords(front) + (AnswerRecords(a) + AnswersRecords(rest))
  {
    AnswersAppend(front, [a] + rest);
    AnswersAppend([a], rest);
    assert AnswersRecords([a]) == AnswerRecords(a) by { assert [a][..0] == []; }
  }

  lemma SplitAnswers(answers: seq<Answer>, j: nat)
    requires j < |answers|
    ensures AnswersRecords(answers) ==
            AnswersRecords(answers[..j]) + (AnswerRecords(answers[j]) + AnswersRecords(answers[j + 1..]))
  {
    Around(answers, j);
    AnswersFrontAndRest(answers[..j], answers[j], answers[j + 1..]);
  }

  lemma AnswerThenRest(answers: seq<Answer>, j: nat) returns (after: seq<Record>)
    requires j < |answers|
    ensures AnswersRecords(answers) == AnswersRecords(answers[..j]) + ([answers[j].tool] + after)
  {
    var a, rest := answers[j], AnswersRecords(answers[j + 1..]);
    var report := if a.report.Some? then [a.report.value] else [];
    SplitAnswers(answers, j);
    Assoc([a.tool], report, rest);
    after := report + rest;
  }

  lemma SplitBlocks(bs: seq<Block>, i: nat)
    requires i < |bs|
    ensures Flatten(bs) == Flatten(bs[..i]) + (BlockRecords(bs[i]) + Flatten(bs[i + 1..]))
  {
    Around(bs, i);
    FrontAndRest(bs[..i], bs[i], bs[i + 1..]);
  }

  lemma FrontAndRest(as': seq<Block>, b: Block, cs: seq<Block>)
    ensures Flatten(as' + ([b] + cs)) == Flatten(as') + (BlockRecords(b) + Flatten(cs))
  {
    FlattenAppend(as', [b] + cs);
    FlattenAppend([b], cs);
    FlattenOne(b);
  }

  lemma FiveParts<T>(p: seq<T>, h: T, q: seq<T>, t: T, r: seq<T>, w: seq<T>)
    ensures var all, n := p + (([h] + (q + ([t] + r))) + w), |p| + 1 + |q|;
            n < |all| && all[..n] == p + [h] + q && all[n] == t
  {
  }

  lemma SplitAt(bs: seq<Block>, i: nat, j: nat)
    requires i < |bs| && bs[i].CallRun? && j < |bs[i].answers|
    ensures var n := ToolPosition(bs, i, j);
            && n < |Flatten(bs)|
            && Flatten(bs)[..n] == Flatten(bs[..i]) + [bs[i].head] + AnswersRecords(bs[i].answers[..j])
            && Flatten(bs)[n] == bs[i].answers[j].tool
  {
    var b := bs[i];
    SplitBlocks(bs, i);
    var after := AnswerThenRest(b.answers, j);
    FiveParts(Flatten(bs[..i]), b.head, AnswersRecords(b.answers[..j]), b.answers[j].tool, after, Flatten(bs[i + 1..]));
  }

  /** On a history in the grammar, the lookup at the position of a tool record returns the call that
      produced it; the fallback by name is never used. */
  lemma LookupFindsItsCall(bs: seq<Block>, i: nat, j: nat)
    requires AllOk(bs) && i < |bs| && bs[i].CallRun? && j < |bs[i].answers|
    ensures |bs[i].head.calls| == |bs[i].answers| && ToolPosition(bs, i, j) < |Flatten(bs)|
    ensures var n, c, tool := ToolPosition(bs, i, j), bs[i].head.calls[j], bs[i].answers[j].tool;
            && WalkBack(Flatten(bs), n) == (Some(|Flatten(bs[..i])|), j)
            && DetailsByIndex(Flatten(bs), n) ==
               Found(Details(c.name, c.args, tool.content, StatusOf(tool), Some(bs[i].head.ts), Some(tool.ts)))
  {
    var n := ToolPosition(bs, i, j);
    assert BlockOk(bs[i]);
    SplitAt(bs, i, j);
    var before := Flatten(bs[..i]) + [bs[i].head] + AnswersRecords(bs[i].answers[..j]);
    WalkBackOverAnswers(Flatten(bs[..i]), bs[i].head, bs[i].answers[..j]);
    WalkBackLocal(Flatten(bs), before, n);
    assert AnswerOk(bs[i].head.calls[j], bs[i].answers[j]);
  }

  /** The block of round at[k], looked up in the whole history. */
  predicate ToldAt(world: nat -> Round, exec: (nat, nat) -> ToolOutcome, pending: Option<ReportDraft>, round: nat,
                   bs: seq<Block>, i: nat) {
    i < |bs| && RoundTells(world(round), Of(exec, round), pending, bs[i])
  }

  lemma RunStandsInHistory(before: seq<Block>, run: seq<Block>, after: seq<Block>, world: nat -> Round,
                           exec: (nat, nat) -> ToolOutcome, pending: Option<ReportDraft>, end: nat, at: seq<nat>, k: nat)
    requires run != [] && Transcript(world, exec, pending, end, at, run[1..]) && k < |at|
    ensures ToldAt(world, exec, if k == 0 then pending else None, at[k], before + run + after, |before| + 1 + k)
  {
    assert (before + run + after)[|before| + 1 + k] == run[1..][k];
  }

  lemma LookupOfRound(bs: seq<Block>, i: nat, j: nat, round: Round, exec: nat -> ToolOutcome,
                      pending: Option<ReportDraft>)
    requires AllOk(bs) && i < |bs| && RoundTells(round, exec, pending, bs[i]) && j < |round.calls|
    ensures bs[i].CallRun? && j < |bs[i].answers|
    ensures var c, out := round.calls[j], exec(j);
            DetailsByIndex(Flatten(bs), ToolPosition(bs, i, j)) ==
            Found(Details(c.name, c.args, out.result, if out.status == "" then "success" else out.status,
                          Some(bs[i].head.ts), Some(bs[i].answers[j].tool.ts)))
  {
    LookupFindsItsCall(bs, i, j);
    assert AnswerTells(round.calls[j], exec(j), if j == 0 then pending else None, bs[i].answers[j]);
  }

  /** After a run, whatever the history before and after it: the lookup at the record of a call shows what the model's
      reply asked for in that call and what running that call returned. */
  lemma LookupTellsWhatRan(before: seq<Block>, run: seq<Block>, after: seq<Block>, world: nat -> Round,
                           exec: (nat, nat) -> ToolOutcome, pending: Option<ReportDraft>, end: nat, at: seq<nat>,
                           k: nat, j: nat)
    requires AllOk(before + run + after) && run != [] && Transcript(world, exec, pending, end, at, run[1..])
    requires k < |at| && world(at[k]).Reply? && j < |world(at[k]).calls|
    ensures var bs, i := before + run + after, |before| + 1 + k;
            var c, out := world(at[k]).calls[j], exec(at[k], j);
            && i < |bs| && bs[i].CallRun? && j < |bs[i].answers|
            && DetailsByIndex(Flatten(bs), ToolPosition(bs, i, j)) ==
               Found(Details(c.name, c.args, out.result, if out.status == "" then "success" else out.status,
                             Some(bs[i].head.ts), Some(bs[i].answers[j].tool.ts)))
  {
    RunStandsInHistory(before, run, after, world, exec, pending, end, at, k);
    LookupOfRound(before + run + after, |before| + 1 + k, j, world(at[k]), Of(exec, at[k]),
                  if k == 0 then pending else None);
  }

  /** Every tool record of the history is the answer to some call. */
  lemma {:induction false} EveryToolRecordAnswers(bs: seq<Block>, n: nat) returns (i: nat, j: nat)
    requires AllOk(bs) && n < |Flatten(bs)| && Flatten(bs)[n].role.Tool?
    ensures i < |bs| && bs[i].CallRun? && j < |bs[i].answers| && n == ToolPosition(bs, i, j)
    decreases |bs|
  {
    var k := |bs| - 1;
    assert BlockOk(bs[k]);
    var start := |Flatten(bs[..k])|;
    if n < start {
      i, j := EveryToolRecordAnswers(bs[..k], n);
      assert bs[..k][..i] == bs[..i];
    } else {
      assert bs[k].CallRun? && n > start;
      i := k;
      j := AnswerAt(bs[k].head, bs[k].answers, n - start - 1);
    }
  }

  lemma {:induction false} AnswerAt(head: Record, answers: seq<Answer>, n: nat) returns (j: nat)
    requires |answers| <= |head.calls|
    requires forall k :: 0 <= k < |answers| ==> AnswerOk(head.calls[k], answers[k])
    requires n < |AnswersRecords(answers)| && AnswersRecords(answers)[n].role.Tool?
    ensures j < |answers| && n == |AnswersRecords(answers[..j])|
  {
    var k := |answers| - 1;
    if n < |AnswersRecords(answers[..k])| {
      j := AnswerAt(head, answers[..k], n);
      assert answers[..k][..j] == answers[..j];
    } else {
      j := k;
    }
  }

  // ---------------------------------------------------------------- pairing by id

  /** What GetToolCallDetails has filled in so far. */
  datatype Partial = Partial(name: string, args: string, callTs: Option<int>, result: string, status: string, resultTs: Option<int>)

  const BLANK := Partial("", "", None, "", "", None)

  function ScanCalls(p: Partial, ts: int, calls: seq<ToolCall>, id: string): Partial {
    if calls == [] then p
    else
      var k := |calls| - 1;
      var q := ScanCalls(p, ts, calls[..k], id);
      if calls[k].id == id then q.(name := calls[k].name, args := calls[k].args, callTs := Some(ts)) else q
  }

  function ScanRecord(p: Partial, r: Record, id: string): Partial {
    if r.role.Assistant? then ScanCalls(p, r.ts, r.calls, id)
    else if r.role.Tool? && r.toolCallID == id then
      p.(name := if p.name == "" then r.toolName else p.name, result := r.content, status := StatusOf(r), resultTs := Some(r.ts))
    else p
  }

  function Scan(p: Partial, rs: seq<Record>, id: string): Partial {
    if rs == [] then p else ScanRecord(Scan(p, rs[..|rs| - 1], id), rs[|rs| - 1], id)
  }

  function DetailsById(rs: seq<Record>, id: string): Lookup {
    var p := Scan(BLANK, rs, id);
    if id == "" || (p.callTs.None? && p.resultTs.None?) then NotFound
    else Found(Details(p.name, p.args, p.result, p.status, p.callTs, p.resultTs))
  }

  /** GetToolCallDetails for an id that is not of the form idx:N. */
  method GetToolCallDetails(rs: seq<Record>, id: string) returns (out: Lookup)
    ensures out == DetailsById(rs, id)
  {
    if id == "" {
      return NotFound;
    }
    var p := BLANK;
    var i := 0;
    while i < |rs|
      invariant 0 <= i <= |rs|
      invariant p == Scan(BLANK, rs[..i], id)
    {
      var r := rs[i];
      ghost var before := p;
      if r.role.Assistant? {
        var j := 0;
        while j < |r.calls|
          invariant 0 <= j <= |r.calls|
          invariant p == ScanCalls(before, r.ts, r.calls[..j], id)
        {
          if r.calls[j].id == id {
            p := p.(name := r.calls[j].name, args := r.calls[j].args, callTs := Some(r.ts));
          }
          assert r.calls[..j + 1][..j] == r.calls[..j];
          j := j + 1;
        }
        assert r.calls[..j] == r.calls;
      }
      if r.role.Tool? && r.toolCallID == id {
        if p.name == "" {
          p := p.(name := r.toolName);
        }
        p := p.(result := r.content, status := StatusOf(r), resultTs := Some(r.ts));
      }
      assert rs[..i + 1][..i] == rs[..i];
      i := i + 1;
    }
    assert rs[..i] == rs;
    if p.resultTs.None? && p.callTs.None? {
      return NotFound;
    }
    out := Found(Details(p.name, p.args, p.result, p.status, p.callTs, p.resultTs));
  }

  lemma {:induction false} ScanAppend(p: Partial, xs: seq<Record>, ys: seq<Record>, id: string)
    ensures Scan(p, xs + ys, id) == Scan(Scan(p, xs, id), ys, id)
  {
    if ys == [] {
      assert xs + ys == xs;
    } else {
      var k := |ys| - 1;
      assert (xs + ys)[..|xs| + k] == xs + ys[..k];
      ScanAppend(p, xs, ys[..k], id);
    }
  }

  lemma ScanThree(p: Partial, xs: seq<Record>, ys: seq<Record>, zs: seq<Record>, id: string)
    ensures Scan(p, xs + (ys + zs), id) == Scan(Scan(Scan(p, xs, id), ys, id), zs, id)
  {
    ScanAppend(p, xs, ys + zs, id);
    ScanAppend(Scan(p, xs, id), ys, zs, id);
  }

  lemma ScanOne(p: Partial, r: Record, id: string)
    ensures Scan(p, [r], id) == ScanRecord(p, r, id)
  {
    assert [r][..0] == [];
  }

  predicate NoCall(calls: seq<ToolCall>, id: string) {
    forall j :: 0 <= j < |calls| ==> calls[j].id != id
  }

  lemma {:induction false} ScanNoCall(p: Partial, ts: int, calls: seq<ToolCall>, id: string)
    requires NoCall(calls, id)
    ensures ScanCalls(p, ts, calls, id) == p
  {
    if calls != [] {
      ScanNoCall(p, ts, calls[..|calls| - 1], id);
    }
  }

  lemma {:induction false} ScanOneCall(p: Partial, ts: int, calls: seq<ToolCall>, id: string, j: nat)
    requires j < |calls| && calls[j].id == id
    requires forall k :: 0 <= k < |calls| && calls[k].id == id ==> k == j
    ensures ScanCalls(p, ts, calls, id) == p.(name := calls[j].name, args := calls[j].args, callTs := Some(ts))
  {
    var k := |calls| - 1;
    if j == k {
      ScanNoCall(p, ts, calls[..k], id);
    } else {
      ScanOneCall(p, ts, calls[..k], id, j);
    }
  }

  lemma ScanAnswer(p: Partial, c: ToolCall, a: Answer, id: string)
    requires AnswerOk(c, a)
    ensures Scan(p, AnswerRecords(a), id) == ScanRecord(p, a.tool, id)
  {
    var report := if a.report.Some? then [a.report.value] else [];
    ScanAppend(p, [a.tool], report, id);
    ScanOne(p, a.tool, id);
    if a.report.Some? {
      ScanOne(ScanRecord(p, a.tool, id), a.report.value, id);
    }
  }

  lemma {:induction false} ScanOtherAnswers(p: Partial, calls: seq<ToolCall>, answers: seq<Answer>, id: string)
    requires |answers| == |calls| && NoCall(calls, id)
    requires forall j :: 0 <= j < |answers| ==> AnswerOk(calls[j], answers[j])
    ensures Scan(p, AnswersRecords(answers), id) == p
  {
    if answers != [] {
      var k := |answers| - 1;
      var a := answers[k];
      ScanOtherAnswers(p, calls[..k], answers[..k], id);
      ScanAppend(p, AnswersRecords(answers[..k]), AnswerRecords(a), id);
      ScanAnswer(p, calls[k], a, id);
    }
  }

  predicate BlockLacks(b: Block, id: string) {
    b.CallRun? ==> NoCall(b.head.calls, id)
  }

  lemma {:induction false} ScanOtherBlocks(p: Partial, bs: seq<Block>, id: string)
    requires AllOk(bs) && forall i :: 0 <= i < |bs| ==> BlockLacks(bs[i], id)
    ensures Scan(p, Flatten(bs), id) == p
  {
    if bs != [] {
      var k := |bs| - 1;
      var b := bs[k];
      assert BlockOk(b);
      ScanOtherBlocks(p, bs[..k], id);
      ScanAppend(p, Flatten(bs[..k]), BlockRecords(b), id);
      match b
      case Said(r) =>
        ScanOne(p, r, id);
      case CallRun(head, answers) =>
        ScanAppend(p, [head], AnswersRecords(answers), id);
        ScanOne(p, head, id);
        ScanNoCall(p, head.ts, head.calls, id);
        ScanOtherAnswers(p, head.calls, answers, id);
    }
  }

  /** The id of call j of block i belongs to no other call of the history. */
  ghost predicate OnlyCall(bs: seq<Block>, i: nat, j: nat)
    requires i < |bs| && bs[i].CallRun? && j < |bs[i].head.calls|
  {
    var id := bs[i].head.calls[j].id;
    && (forall k :: 0 <= k < |bs| && k != i ==> BlockLacks(bs[k], id))
    && (forall k :: 0 <= k < |bs[i].head.calls| && bs[i].head.calls[k].id == id ==> k == j)
  }

  /** Answers that belong to calls with other ids. */
  predicate Foreign(calls: seq<ToolCall>, answers: seq<Answer>, id: string) {
    |answers| == |calls| && NoCall(calls, id) && forall k :: 0 <= k < |answers| ==> AnswerOk(calls[k], answers[k])
  }

  lemma ScanAround(p: Partial, cb: seq<ToolCall>, before: seq<Answer>, c: ToolCall, a: Answer, cr: seq<ToolCall>, rest: seq<Answer>)
    requires Foreign(cb, before, c.id) && Foreign(cr, rest, c.id) && AnswerOk(c, a)
    ensures Scan(p, AnswersRecords(before) + (AnswerRecords(a) + AnswersRecords(rest)), c.id) == ScanRecord(p, a.tool, c.id)
  {
    ScanThree(p, AnswersRecords(before), AnswerRecords(a), AnswersRecords(rest), c.id);
    ScanOtherAnswers(p, cb, before, c.id);
    ScanAnswer(p, c, a, c.id);
    ScanOtherAnswers(ScanRecord(p, a.tool, c.id), cr, rest, c.id);
  }

  lemma OthersAreForeign(head: Record, answers: seq<Answer>, j: nat)
    requires BlockOk(CallRun(head, answers)) && j < |answers|
    requires forall k :: 0 <= k < |head.calls| && head.calls[k].id == head.calls[j].id ==> k == j
    ensures Foreign(head.calls[..j], answers[..j], head.calls[j].id)
    ensures Foreign(head.calls[j + 1..], answers[j + 1..], head.calls[j].id)
  {
  }

  lemma ScanItsAnswers(p: Partial, head: Record, answers: seq<Answer>, j: nat)
    requires BlockOk(CallRun(head, answers)) && j < |answers|
    requires forall k :: 0 <= k < |head.calls| && head.calls[k].id == head.calls[j].id ==> k == j
    ensures Scan(p, AnswersRecords(answers), head.calls[j].id) == ScanRecord(p, answers[j].tool, head.calls[j].id)
  {
    SplitAnswers(answers, j);
    OthersAreForeign(head, answers, j);
    ScanAround(p, head.calls[..j], answers[..j], head.calls[j], answers[j], head.calls[j + 1..], answers[j + 1..]);
  }

  /** The scan of the call's own block. */
  lemma ScanItsBlock(b: Block, j: nat)
    requires b.CallRun? && BlockOk(b) && j < |b.answers|
    requires forall k :: 0 <= k < |b.head.calls| && b.head.calls[k].id == b.head.calls[j].id ==> k == j
    requires |b.head.calls| == |b.answers|
    ensures var id := b.head.calls[j].id;
            Scan(BLANK, BlockRecords(b), id) == ScanRecord(ScanRecord(BLANK, b.head, id), b.answers[j].tool, id)
  {
    var id := b.head.calls[j].id;
    ScanAppend(BLANK, [b.head], AnswersRecords(b.answers), id);
    ScanOne(BLANK, b.head, id);
    ScanItsAnswers(ScanRecord(BLANK, b.head, id), b.head, b.answers, j);
  }

  lemma ScanHistory(bs: seq<Block>, i: nat, j: nat)
    requires AllOk(bs) && i < |bs| && bs[i].CallRun? && j < |bs[i].answers|
    requires |bs[i].head.calls| == |bs[i].answers| && OnlyCall(bs, i, j)
    ensures var b, id := bs[i], bs[i].head.calls[j].id;
            Scan(BLANK, Flatten(bs), id) == ScanRecord(ScanRecord(BLANK, b.head, id), b.answers[j].tool, id)
  {
    var b, id := bs[i], bs[i].head.calls[j].id;
    var before, after := Flatten(bs[..i]), Flatten(bs[i + 1..]);
    SplitBlocks(bs, i);
    ScanThree(BLANK, before, BlockRecords(b), after, id);
    ScanOtherBlocks(BLANK, bs[..i], id);
    ScanItsBlock(b, j);
    ScanOtherBlocks(ScanRecord(ScanRecord(BLANK, b.head, id), b.answers[j].tool, id), bs[i + 1..], id);
  }

  /** On a history in the grammar the lookup by a call's own id and the lookup by the position of its
      result return the same details. */
  lemma LookupsAgree(bs: seq<Block>, i: nat, j: nat)
    requires AllOk(bs) && i < |bs| && bs[i].CallRun? && j < |bs[i].answers|
    requires |bs[i].head.calls| == |bs[i].answers| && OnlyCall(bs, i, j) && bs[i].head.calls[j].id != ""
    ensures DetailsById(Flatten(bs), bs[i].head.calls[j].id) == DetailsByIndex(Flatten(bs), ToolPosition(bs, i, j))
  {
    var b := bs[i];
    assert BlockOk(b) && AnswerOk(b.head.calls[j], b.answers[j]);
    LookupFindsItsCall(bs, i, j);
    ScanHistory(bs, i, j);
    ScanOneCall(BLANK, b.head.ts, b.head.calls, b.head.calls[j].id, j);
  }
}
