/** Which session the agent is on: what moves the pointer, which session a turn runs in, and what a turn
    leaves behind when it ends. */
module AgentSessions {
  import opened Options
  import opened AgentFsm
  import opened AgentProtocol
  import opened AgentGuarantees
  import opened AgentConditions

  /** The section of LoadSession swaps the pointer. */
  predicate Swaps(s: Sys, a: Action, x: nat)
    requires Enabled(s, a)
  {
    a.Advance? && s.tasks[a.task] == LifeLock(Load(x)) && s.fsm.state.Idle?
  }

  predicate Deletes(s: Sys, a: Action, x: nat)
    requires Enabled(s, a)
  {
    a.Advance? && s.tasks[a.task] == LifeBody(Delete(x))
  }

  predicate Opens(s: Sys, a: Action)
    requires Enabled(s, a)
  {
    a.Advance? && s.tasks[a.task].Opening?
  }

  /** The pointer after the step of a goroutine at k. */
  function MovedBy(s: Sys, k: Task): nat {
    match k
    case LifeLock(Load(x)) => if s.fsm.state.Idle? then x else s.session
    case LifeBody(Delete(x)) => if s.session == x then 0 else s.session
    case Opening(_, _) => if s.session == 0 then 1 else s.session
    case _ => s.session
  }

  lemma PlainMoves(s: Sys, k: Task, on: bool)
    requires !k.SendCall? && !k.Extract? && !k.GoDispatch? && !k.LifeLock?
    ensures PlainOutcome(s, k, on).session == MovedBy(s, k)
  {
  }

  lemma StepMoves(s: Sys, t: nat, on: bool)
    requires t in s.tasks
    ensures Step(s, t, on).session == MovedBy(s, s.tasks[t])
  {
    match s.tasks[t]
    case SendCall(_, _) =>
    case Extract(_, _) =>
    case GoDispatch(_) =>
    case LifeLock(_) =>
    case k => PlainMoves(s, k, on);
  }

  /** Only three steps move the session pointer: a load, to the session loaded; the delete of the session it is on,
      to nil; and a turn that opens without a session, to the implicit one. */
  lemma SessionMoves(s: Sys, a: Action)
    requires Enabled(s, a)
    ensures var n := Next(s, a);
            && (forall x :: Swaps(s, a, x) ==> n.session == x)
            && (forall x :: Deletes(s, a, x) ==> n.session == if s.session == x then 0 else s.session)
            && (Opens(s, a) ==> n.session == if s.session == 0 then 1 else s.session)
            && ((forall x :: !Swaps(s, a, x) && !Deletes(s, a, x)) && !Opens(s, a) ==> n.session == s.session)
  {
    if a.Advance? {
      StepMoves(s, a.task, a.extractOn);
      var k := s.tasks[a.task];
      if k.LifeLock? && k.op.Load? && s.fsm.state.Idle? {
        assert Swaps(s, a, k.op.session);
      } else if k.LifeBody? && k.op.Delete? {
        assert Deletes(s, a, k.op.session);
      }
    }
  }

  /** Once a delete has done its work the agent is not on that session; it stays on any other. */
  lemma DeleteLeaves(s: Sys, t: nat, x: nat, on: bool)
    requires Reachable(s) && t in s.tasks && s.tasks[t] == LifeBody(Delete(x)) && x != 0
    ensures var n := Next(s, Advance(t, on));
            n.session != x && (n.session == s.session <==> s.session != x) && (s.session == x ==> n.session == 0)
  {
    SessionMoves(s, Advance(t, on));
    assert Deletes(s, Advance(t, on), x);
  }

  /** An export or an import, at whichever of its steps, leaves the pointer alone. */
  lemma ExportImportKeep(s: Sys, t: nat, op: Op, on: bool)
    requires Reachable(s) && t in s.tasks && (op.Export? || op.Import?) && Enabled(s, Advance(t, on))
    requires s.tasks[t] == LifeWait(op) || s.tasks[t] == LifeLock(op) || s.tasks[t] == LifeBody(op)
    ensures Next(s, Advance(t, on)).session == s.session
  {
    SessionMoves(s, Advance(t, on));
  }

  /** A turn, dispatched or not, runs in the session the agent is on, or in the implicit one if there is none; the
      pointer is on it from then on, and no other task is touched. */
  lemma TurnOpensIn(s: Sys, t: nat, m: Send, bg: bool, on: bool)
    requires Reachable(s) && t in s.tasks && s.tasks[t] == Opening(m, bg)
    ensures var n := Next(s, Advance(t, on));
            && n.session == (if s.session == 0 then 1 else s.session)
            && n.tasks == s.tasks[t := Loop(Turn(m, bg, n.session))]
  {
  }

  /** No load of x swaps the session during the run. */
  predicate NeverLoads(s: Sys, acts: seq<Action>, x: nat)
    requires Runs(s, acts)
    decreases |acts|
  {
    acts == [] || (!Swaps(s, acts[0], x) && NeverLoads(Next(s, acts[0]), acts[1..], x))
  }

  /** A session the agent is not on stays so until it is loaded, unless it is the implicit one. */
  lemma {:induction false} StaysAway(s: Sys, acts: seq<Action>, x: nat)
    requires Inv(s) && Runs(s, acts) && NeverLoads(s, acts, x) && s.session != x && x != 0 && x != 1
    ensures var n := After(s, acts);
            Inv(n) && n.session != x && forall t :: t in n.tasks && n.tasks[t].Loop? ==> n.tasks[t].turn.sess != x
    decreases |acts|
  {
    if acts != [] {
      var n := Next(s, acts[0]);
      SessionMoves(s, acts[0]);
      InvNext(s, acts[0]);
      AwayNext(s, acts[0], x);
      StaysAway(n, acts[1..], x);
    }
  }

  lemma AwayNext(s: Sys, a: Action, x: nat)
    requires Enabled(s, a) && !Swaps(s, a, x) && s.session != x && x != 0 && x != 1
    ensures Next(s, a).session != x
  {
    SessionMoves(s, a);
    if y :| Swaps(s, a, y) {
      assert y != x;
    } else if y :| Deletes(s, a, y) {
      assert Next(s, a).session == s.session || Next(s, a).session == 0;
    }
  }

  /** A deleted session is not brought back: on every continuation, until it is loaded again, the agent is never on it
      and no turn runs in it. */
  lemma DeletedStaysGone(s: Sys, t: nat, x: nat, on: bool, acts: seq<Action>)
    requires Reachable(s) && t in s.tasks && s.tasks[t] == LifeBody(Delete(x)) && x != 0 && x != 1
    requires Runs(Next(s, Advance(t, on)), acts) && NeverLoads(Next(s, Advance(t, on)), acts, x)
    ensures var n := After(Next(s, Advance(t, on)), acts);
            n.session != x && forall u :: u in n.tasks && n.tasks[u].Loop? ==> n.tasks[u].turn.sess != x
  {
    ReachableInv(s);
    DeleteLeaves(s, t, x, on);
    InvNext(s, Advance(t, on));
    StaysAway(Next(s, Advance(t, on)), acts, x);
  }

  // ---------------------------------------------------------------- what the end of a turn launches

  /** The tasks once the turn of task t has ended and taken its own further steps: a title, an extraction if wanted,
      and the goroutine itself only if it still owes the WaitGroup its Done. */
  function Launched(s: Sys, t: nat, turn: Turn, on: bool): map<nat, Task> {
    var mine := if turn.bg then s.tasks[t := Returning] else s.tasks - {t};
    if on then mine[s.next := Title(turn.sess)][s.next + 1 := Extract(s.gen + 1, turn.sess)]
    else mine[s.next := Title(turn.sess)]
  }

  lemma TurnEnds(s: Sys, t: nat, turn: Turn, on: bool)
    requires t in s.tasks && s.tasks[t] == Loop(turn)
    ensures var n := Next(s, Advance(t, on));
            && n.tasks == s.tasks[t := AddTitle(turn, if on then Some(s.gen + 1) else None)]
            && n.fsm == Fsm(Idle, on, s.fsm.queued) && n.next == s.next && n.wg == s.wg && (on ==> n.gen == s.gen + 1)
  {
  }

  lemma TitleStarts(s: Sys, t: nat, turn: Turn, flight: Option<nat>, on: bool)
    requires t in s.tasks && s.tasks[t] == AddTitle(turn, flight) && t < s.next
    ensures var n := Next(Next(s, Advance(t, on)), Advance(t, on));
            && n.wg == s.wg + 1 && n.next == s.next + 1 && n.fsm == s.fsm && n.gen == s.gen
            && n.tasks == match flight
               case Some(g) => s.tasks[t := AddExtract(turn, g)][s.next := Title(turn.sess)]
               case None => (if turn.bg then s.tasks[t := Returning] else s.tasks - {t})[s.next := Title(turn.sess)]
  {
  }

  lemma ExtractionStarts(s: Sys, t: nat, turn: Turn, g: nat, on: bool)
    requires t in s.tasks && s.tasks[t] == AddExtract(turn, g) && t < s.next
    ensures var n := Next(Next(s, Advance(t, on)), Advance(t, on));
            && n.wg == s.wg + 1 && n.next == s.next + 1 && n.fsm == s.fsm
            && n.tasks == (if turn.bg then s.tasks[t := Returning] else s.tasks - {t})[s.next := Extract(g, turn.sess)]
  {
  }

  lemma {:induction false} RunsThrice(s: Sys, a: Action)
    requires Enabled(s, a) && Enabled(Next(s, a), a) && Enabled(Next(Next(s, a), a), a)
    ensures Runs(s, [a, a, a]) && After(s, [a, a, a]) == Next(Next(Next(s, a), a), a)
  {
    assert [a, a, a][1..] == [a, a];
    RunsTwice(Next(s, a), a);
  }

  /** n steps of one goroutine. */
  predicate OwnSteps(acts: seq<Action>, t: nat, on: bool, n: nat) {
    |acts| == n && forall i :: 0 <= i < n ==> acts[i] == Advance(t, on)
  }

  /** What the end of a turn comes to. */
  predicate TurnLeaves(s: Sys, t: nat, turn: Turn, on: bool, n: Sys)
    requires t in s.tasks
  {
    n.tasks == Launched(s, t, turn, on) && n.fsm == Fsm(Idle, on, s.fsm.queued) && n.wg == s.wg + if on then 2 else 1
  }

  lemma TitleIsLaunched(s: Sys, t: nat, turn: Turn, on: bool) returns (acts: seq<Action>, s3: Sys)
    requires t in s.tasks && s.tasks[t] == Loop(turn) && t < s.next
    ensures OwnSteps(acts, t, on, 3) && Runs(s, acts) && After(s, acts) == s3
    ensures s3.fsm == Fsm(Idle, on, s.fsm.queued) && s3.wg == s.wg + 1 && s3.next == s.next + 1
    ensures on ==> s3.gen == s.gen + 1
    ensures on ==>
              s3.tasks ==
              s.tasks[t := AddTitle(turn, Some(s.gen + 1))][t := AddExtract(turn, s.gen + 1)][s.next := Title(turn.sess)]
    ensures !on ==> s3.tasks == Launched(s, t, turn, on)
  {
    var a := Advance(t, on);
    TurnEnds(s, t, turn, on);
    var s1 := Next(s, a);
    TitleStarts(s1, t, turn, if on then Some(s.gen + 1) else None, on);
    s3 := Next(Next(s1, a), a);
    RunsThrice(s, a);
    acts := [a, a, a];
    if !on {
      assert s.tasks[t := AddTitle(turn, None)][t := Returning] == s.tasks[t := Returning];
      assert s.tasks[t := AddTitle(turn, None)] - {t} == s.tasks - {t};
    }
  }

  lemma ExtractionIsLaunched(s3: Sys, t: nat, turn: Turn, before: map<nat, Task>, next: nat, on: bool)
    returns (acts: seq<Action>, s5: Sys)
    requires t in before && t < next == s3.next - 1
    requires s3.tasks == before[t := AddTitle(turn, Some(s3.gen))][t := AddExtract(turn, s3.gen)][next := Title(turn.sess)]
    ensures OwnSteps(acts, t, on, 2) && Runs(s3, acts) && After(s3, acts) == s5
    ensures s5.fsm == s3.fsm && s5.wg == s3.wg + 1
    ensures s5.tasks ==
            (if turn.bg then before[t := Returning] else before - {t})[next := Title(turn.sess)]
              [next + 1 := Extract(s3.gen, turn.sess)]
  {
    var a := Advance(t, on);
    ExtractionStarts(s3, t, turn, s3.gen, on);
    RunsTwice(s3, a);
    acts, s5 := [a, a], Next(Next(s3, a), a);
    SameTasks(before, t, next, turn, s3.gen);
  }

  lemma OwnerHolds(s: Sys, t: nat)
    requires Reachable(s) && t in s.tasks && Owns(s.tasks[t])
    ensures t < s.next && s.fsm == Fsm(Busy, false, None)
  {
    ReachableInv(s);
  }

  lemma Chained(s: Sys, first: seq<Action>, more: seq<Action>, mid: Sys, end: Sys)
    requires Runs(s, first) && After(s, first) == mid && Runs(mid, more) && After(mid, more) == end
    ensures Runs(s, first + more) && After(s, first + more) == end
  {
    RunsThen(s, first, more);
  }

  lemma ExtractingEnd(s: Sys, t: nat, turn: Turn) returns (acts: seq<Action>)
    requires t in s.tasks && s.tasks[t] == Loop(turn) && t < s.next
    ensures OwnSteps(acts, t, true, 5) && Runs(s, acts) && TurnLeaves(s, t, turn, true, After(s, acts))
  {
    var first, s3 := TitleIsLaunched(s, t, turn, true);
    var more, s5 := ExtractionIsLaunched(s3, t, turn, s.tasks, s.next, true);
    Chained(s, first, more, s3, s5);
    acts := first + more;
  }

  lemma QuietEnd(s: Sys, t: nat, turn: Turn) returns (acts: seq<Action>)
    requires t in s.tasks && s.tasks[t] == Loop(turn) && t < s.next
    ensures OwnSteps(acts, t, false, 3) && Runs(s, acts) && TurnLeaves(s, t, turn, false, After(s, acts))
  {
    var s3;
    acts, s3 := TitleIsLaunched(s, t, turn, false);
  }

  /** Every turn that ends launches one title, and one extraction exactly if extraction is on, both for the session it
      ran in and each after its own Add; the agent is Idle from the first step, extracting exactly if it is on. */
  lemma TurnEndLaunches(s: Sys, t: nat, turn: Turn, on: bool) returns (acts: seq<Action>)
    requires Reachable(s) && t in s.tasks && s.tasks[t] == Loop(turn)
    ensures OwnSteps(acts, t, on, if on then 5 else 3)
    ensures Runs(s, acts) && TurnLeaves(s, t, turn, on, After(s, acts)) && s.fsm.queued.None?
  {
    OwnerHolds(s, t);
    if on {
      acts := ExtractingEnd(s, t, turn);
    } else {
      acts := QuietEnd(s, t, turn);
    }
  }

  lemma SameTasks(m: map<nat, Task>, t: nat, next: nat, turn: Turn, g: nat)
    requires t in m && t < next
    ensures var s1 := m[t := AddTitle(turn, Some(g))];
            var s3 := s1[t := AddExtract(turn, g)][next := Title(turn.sess)];
            (if turn.bg then s3[t := Returning] else s3 - {t})[next + 1 := Extract(g, turn.sess)] ==
            (if turn.bg then m[t := Returning] else m - {t})[next := Title(turn.sess)][next + 1 := Extract(g, turn.sess)]
  {
  }

  // ---------------------------------------------------------------- what becomes of a message

  /** A goroutine with nothing more to do is gone, unless it still owes the WaitGroup its Done. */
  function Ended(s: Sys, t: nat, bg: bool): map<nat, Task> {
    if bg then s.tasks[t := Returning] else s.tasks - {t}
  }

  /** A slash command that finds the agent free takes it for two steps of its own and changes neither session nor
      WaitGroup; only the switch of backend waits in between. */
  lemma CommandRuns(s: Sys, t: nat, m: Send, bg: bool, on: bool)
    requires t in s.tasks && s.tasks[t] == SendCall(m, bg) && s.fsm == READY && m.kind.Command?
    ensures var a := Advance(t, on);
            && Runs(s, [a, a])
            && var n := After(s, [a, a]);
               n.fsm == READY && n.session == s.session && n.wg == s.wg && n.next == s.next && n.tasks == Ended(s, t, bg)
  {
    var a := Advance(t, on);
    assert Next(s, a).tasks[t] == RunCommand(bg);
    RunsTwice(s, a);
    assert (s.tasks[t := RunCommand(bg)]) - {t} == s.tasks - {t};
  }

  lemma SwitchRuns(s: Sys, t: nat, m: Send, bg: bool, on: bool)
    requires t in s.tasks && s.tasks[t] == SendCall(m, bg) && s.fsm == READY && m.kind.ModelSwitch?
    ensures var n := Next(s, Advance(t, on));
            && n.tasks == s.tasks[t := AwaitSwitch(bg)] && n.fsm.state.Busy? && n.session == s.session && n.wg == s.wg
            && (Enabled(n, Advance(t, on)) <==> s.wg == 0)
  {
  }

  lemma SwitchReleases(s: Sys, t: nat, bg: bool, on: bool)
    requires t in s.tasks && s.tasks[t] == AwaitSwitch(bg) && s.wg == 0 && s.fsm == Fsm(Busy, false, None)
    ensures var a := Advance(t, on);
            && Enabled(s, a) && Enabled(Next(s, a), a)
            && var n := Next(Next(s, a), a);
               n.fsm == READY && n.session == s.session && n.wg == 0 && n.next == s.next && n.tasks == Ended(s, t, bg)
  {
    assert Next(s, Advance(t, on)).tasks == s.tasks[t := RunCommand(bg)];
    assert s.tasks[t := RunCommand(bg)] - {t} == s.tasks - {t};
  }

  lemma SwitchEnds(s: Sys, t: nat, bg: bool, on: bool)
    requires Reachable(s) && t in s.tasks && s.tasks[t] == AwaitSwitch(bg) && s.wg == 0
    ensures var a := Advance(t, on);
            && Runs(s, [a, a])
            && var n := After(s, [a, a]);
               n.fsm == READY && n.session == s.session && n.wg == 0 && n.next == s.next && n.tasks == Ended(s, t, bg)
  {
    OwnerHolds(s, t);
    SwitchReleases(s, t, bg, on);
    RunsTwice(s, Advance(t, on));
  }

  /** Only an ordinary message opens a turn. */
  predicate PlainOnly(k: Task) {
    && (k.Opening? ==> k.m.kind.Plain?)
    && (k.Loop? ==> k.turn.m.kind.Plain?)
  }

  predicate PlainLocal(k: Task, o: Outcome) {
    PlainOnly(k) ==> (o.self.Some? ==> PlainOnly(o.self.value)) && (o.spawn.Some? ==> PlainOnly(o.spawn.value))
  }

  lemma PlainStepLocal(s: Sys, k: Task, on: bool)
    ensures PlainLocal(k, PlainOutcome(s, k, on))
  {
  }

  lemma StepPlainLocal(s: Sys, t: nat, on: bool)
    requires t in s.tasks
    ensures PlainLocal(s.tasks[t], Step(s, t, on))
  {
    match s.tasks[t]
    case SendCall(_, _) =>
    case Extract(_, _) =>
    case GoDispatch(_) =>
    case LifeLock(_) =>
    case k => PlainStepLocal(s, k, on);
  }

  predicate AllPlain(tasks: map<nat, Task>) {
    forall t :: t in tasks ==> PlainOnly(tasks[t])
  }

  lemma PlainApply(s: Sys, t: nat, o: Outcome)
    requires t in s.tasks && AllPlain(s.tasks) && PlainLocal(s.tasks[t], o)
    ensures AllPlain(Apply(s, t, o).tasks)
  {
    var n := Apply(s, t, o);
    forall u | u in n.tasks ensures PlainOnly(n.tasks[u]) {
      assert u == t || u == s.next || (u in s.tasks && n.tasks[u] == s.tasks[u]);
    }
  }

  lemma PlainNext(s: Sys, a: Action)
    requires Enabled(s, a) && AllPlain(s.tasks)
    ensures AllPlain(Next(s, a).tasks)
  {
    if a.Advance? {
      StepPlainLocal(s, a.task, a.extractOn);
      PlainApply(s, a.task, Step(s, a.task, a.extractOn));
    }
  }

  lemma {:induction false} PlainRun(s: Sys, acts: seq<Action>)
    requires Runs(s, acts) && AllPlain(s.tasks)
    ensures AllPlain(After(s, acts).tasks)
    decreases |acts|
  {
    if acts != [] {
      PlainNext(s, acts[0]);
      PlainRun(Next(s, acts[0]), acts[1..]);
    }
  }

  /** In every reachable state, no slash command is in a turn. */
  lemma TurnsArePlain(s: Sys, t: nat)
    requires Reachable(s) && t in s.tasks
    ensures PlainOnly(s.tasks[t])
  {
    var acts :| Runs(INIT, acts) && After(INIT, acts) == s;
    PlainRun(INIT, acts);
  }

  /** The extraction whose cleanup finds a message waiting hands it on to be sent again exactly if a base context was
      set, and drops it otherwise; either way the slot is empty and the flag down. */
  lemma CleanupHandsOn(s: Sys, t: nat, g: nat, sess: nat, on: bool)
    requires Reachable(s) && t in s.tasks && s.tasks[t] == Extract(g, sess)
    ensures var n := Next(s, Advance(t, on));
            && !n.fsm.extracting && n.fsm.queued.None? && n.session == s.session && n.wg == s.wg
            && match s.fsm.queued
               case None => n.tasks == s.tasks[t := ExtractExit] && n.ledger == s.ledger
               case Some(m) =>
                 var fate := Met(if s.base then Dispatched else NoBaseContext, m.id);
                 && n.tasks == s.tasks[t := if s.base then AddDispatch(m) else ExtractExit]
                 && n.ledger[fate] == s.ledger[fate] + 1
  {
  }

  lemma DispatchSteps(s: Sys, t: nat, m: Send, on: bool)
    requires t in s.tasks && s.tasks[t] == AddDispatch(m) && t < s.next
    ensures var a := Advance(t, on);
            var n := Next(Next(s, a), a);
            && n.tasks == s.tasks[t := ExtractExit][s.next := SendCall(m, true)] && n.wg == s.wg + 1
            && n.fsm == s.fsm && n.session == s.session && n.next == s.next + 1
  {
  }

  /** The message handed on is sent again, by a goroutine of its own that the WaitGroup counts. */
  lemma HandedOnIsSent(s: Sys, t: nat, m: Send, on: bool)
    requires Reachable(s) && t in s.tasks && s.tasks[t] == AddDispatch(m)
    ensures var a := Advance(t, on);
            && Runs(s, [a, a])
            && var n := After(s, [a, a]);
               && n.tasks == s.tasks[t := ExtractExit][s.next := SendCall(m, true)] && n.wg == s.wg + 1
               && n.fsm == s.fsm && n.session == s.session && n.next == s.next + 1
  {
    ReachableInv(s);
    DispatchSteps(s, t, m, on);
    RunsTwice(s, Advance(t, on));
  }

  lemma LockTakes(s: Sys, t: nat, op: Op, on: bool)
    requires t in s.tasks && s.tasks[t] == LifeLock(op) && !op.Load?
    ensures var n := Next(s, Advance(t, on));
            if s.fsm.state.Busy? then n == s.(tasks := s.tasks - {t})
            else n.tasks == s.tasks[t := LifeBody(op)] && n.fsm == Fsm(Busy, false, None)
  {
  }

  lemma BodyReleases(s: Sys, t: nat, op: Op, on: bool)
    requires t in s.tasks && s.tasks[t] == LifeBody(op)
    ensures var a := Advance(t, on);
            && Next(s, a).tasks == s.tasks[t := LifeRelease]
            && Next(Next(s, a), a).tasks == s.tasks - {t} && Next(Next(s, a), a).fsm == Release(s.fsm)
  {
    assert s.tasks[t := LifeRelease] - {t} == s.tasks - {t};
  }

  /** An export, an import or a delete that finds the agent free holds it for its body, and has it free again with
      its last step; one that finds it Busy is gone at once and changes nothing. */
  lemma LifecycleRuns(s: Sys, t: nat, op: Op, on: bool)
    requires t in s.tasks && s.tasks[t] == LifeLock(op) && !op.Load?
    ensures var a := Advance(t, on);
            if s.fsm.state.Busy? then Next(s, a) == s.(tasks := s.tasks - {t})
            else
              && Next(s, a).tasks == s.tasks[t := LifeBody(op)] && Next(s, a).fsm == Fsm(Busy, false, None)
              && Runs(s, [a, a, a]) && After(s, [a, a, a]).tasks == s.tasks - {t} && After(s, [a, a, a]).fsm == READY
  {
    var a := Advance(t, on);
    LockTakes(s, t, op, on);
    if s.fsm.state.Idle? {
      BodyReleases(Next(s, a), t, op, on);
      RunsThrice(s, a);
      assert s.tasks[t := LifeBody(op)] - {t} == s.tasks - {t};
    }
  }
}
