/** What every interleaving of the agent's goroutines keeps, what each SEND can meet with, when
    the agent can become idle again, and concrete runs on which tempting claims fail. */
module AgentGuarantees {
  import opened Options
  import opened AgentFsm
  import opened Totals
  import opened AgentProtocol

  // ---------------------------------------------------------------- agentLoop at most once

  ghost predicate LoopInv(s: Sys) {
    && (forall i: nat :: s.ledger[EnteredLoop(i)] <= s.ledger[Met(Began, i)])
    && (forall t :: t in s.tasks && s.tasks[t].Opening? ==>
          s.ledger[EnteredLoop(s.tasks[t].m.id)] < s.ledger[Met(Began, s.tasks[t].m.id)])
  }

  /** Only an opening turn enters the loop, and a task opens a turn only by beginning its SEND. */
  ghost predicate LoopLocal(k: Task, o: Outcome) {
    && (forall i: nat :: o.events[EnteredLoop(i)] == One(k.Opening? && k.m.id == i))
    && (o.self.Some? && o.self.value.Opening? ==> k.SendCall? && o.self.value.m == k.m && o.events[Met(Began, k.m.id)] == 1)
    && !(o.spawn.Some? && o.spawn.value.Opening?)
  }

  lemma PlainLoopLocal(s: Sys, k: Task, on: bool)
    ensures LoopLocal(k, PlainOutcome(s, k, on))
  {
  }

  lemma SendLoopLocal(s: Sys, m: Send, bg: bool)
    ensures LoopLocal(SendCall(m, bg), SendOutcome(s, m, bg))
  {
  }

  lemma StepLoopLocal(s: Sys, t: nat, on: bool)
    requires t in s.tasks
    ensures LoopLocal(s.tasks[t], Step(s, t, on))
  {
    match s.tasks[t]
    case SendCall(m, bg) => SendLoopLocal(s, m, bg);
    case Extract(_, _) => assert LoopLocal(s.tasks[t], CleanupOutcome(s, t));
    case GoDispatch(m) => assert LoopLocal(s.tasks[t], DispatchOutcome(s, m));
    case LifeLock(op) => assert LoopLocal(s.tasks[t], LifecycleOutcome(s, op));
    case k => PlainLoopLocal(s, k, on);
  }

  lemma LoopApply(s: Sys, t: nat, o: Outcome)
    requires OwnerInv(s) && HolderInv(s) && LedgerInv(s) && LoopInv(s)
    requires t in s.tasks && LoopLocal(s.tasks[t], o)
    ensures LoopInv(Apply(s, t, o))
  {
    var n := Apply(s, t, o);
    var k := s.tasks[t];
    if k.SendCall? {
      assert Custody(k) == Some(k.m.id);
      assert LedgerOf(s, k.m.id);
    }
    forall u | u in n.tasks && n.tasks[u].Opening?
      ensures n.ledger[EnteredLoop(n.tasks[u].m.id)] < n.ledger[Met(Began, n.tasks[u].m.id)]
    {
      assert u == t || (u in s.tasks && n.tasks[u] == s.tasks[u]);
    }
  }

  lemma LoopNext(s: Sys, a: Action)
    requires OwnerInv(s) && HolderInv(s) && LedgerInv(s) && LoopInv(s) && Enabled(s, a)
    ensures LoopInv(Next(s, a))
  {
    if a.Advance? {
      StepLoopLocal(s, a.task, a.extractOn);
      LoopApply(s, a.task, Step(s, a.task, a.extractOn));
    }
  }

  // ---------------------------------------------------------------- the invariant of every run

  ghost predicate Inv(s: Sys) {
    OwnerInv(s) && FlightInv(s) && WgInv(s) && HolderInv(s) && LedgerInv(s) && LoopInv(s)
  }

  lemma InvNext(s: Sys, a: Action)
    requires Inv(s) && Enabled(s, a)
    ensures Inv(Next(s, a))
  {
    OwnerNext(s, a);
    FlightNext(s, a);
    WgNext(s, a);
    HolderNext(s, a);
    LedgerNext(s, a);
    LoopNext(s, a);
  }

  lemma {:induction false} InvRun(s: Sys, acts: seq<Action>)
    requires Inv(s) && Runs(s, acts)
    ensures Inv(After(s, acts))
    decreases |acts|
  {
    if acts != [] {
      InvNext(s, acts[0]);
      InvRun(Next(s, acts[0]), acts[1..]);
    }
  }

  lemma InitInv()
    ensures Inv(INIT)
  {
  }

  lemma ReachableInv(s: Sys)
    requires Reachable(s)
    ensures Inv(s)
  {
    InitInv();
    var acts :| Runs(INIT, acts) && After(INIT, acts) == s;
    InvRun(INIT, acts);
  }

  // ---------------------------------------------------------------- safety

  ghost function Owners(s: Sys): set<nat> {
    set t | t in s.tasks && Owns(s.tasks[t])
  }

  /** Busy means exactly one owner; the fields are always one row of the phase table, so a snapshot
      that carries a queued message reports the queued phase. */
  lemma BusyMeansOneOwner(s: Sys)
    requires Reachable(s)
    ensures s.fsm.state.Busy? <==> |Owners(s)| == 1
    ensures s.fsm.state.Idle? <==> Owners(s) == {}
    ensures s.fsm.state.Busy? ==> !s.fsm.extracting && s.fsm.queued.None?
    ensures s.fsm.queued.Some? ==> s.fsm.extracting
    ensures SnapshotOf(s.fsm).phase.PhaseQueued? <==> s.fsm.queued.Some?
    ensures SnapshotOf(s.fsm).queuedMessage != "" ==> SnapshotOf(s.fsm).phase.PhaseQueued?
  {
    ReachableInv(s);
    if s.fsm.state.Busy? {
      var t :| t in s.tasks && Owns(s.tasks[t]);
      assert Owners(s) == {t};
    }
  }

  /** The session pointer never moves under a turn that is inside agentLoop. */
  lemma SessionFixedDuringLoop(s: Sys, t: nat)
    requires Reachable(s) && t in s.tasks && s.tasks[t].Loop?
    ensures s.session == s.tasks[t].turn.sess && s.session != 0 && Owners(s) == {t}
  {
    ReachableInv(s);
    BusyMeansOneOwner(s);
    assert t in Owners(s);
  }

  /** While the flag is up, the extraction created last has still to run its cleanup; and once
      every goroutine has returned the agent is ready. */
  lemma FlagNeverStranded(s: Sys)
    requires Reachable(s)
    ensures s.fsm.extracting ==> exists t :: t in s.tasks && InFlight(s.tasks[t], s.gen)
    ensures s.tasks == map[] ==> s.fsm == READY && s.wg == 0
  {
    ReachableInv(s);
  }

  /** Goroutines that only a zero WaitGroup proves gone. */
  predicate Background(k: Task) {
    || k.Title? || k.Extract? || k.AddDispatch? || k.GoDispatch? || k.ExtractExit?
    || ((k.SendCall? || k.RunCommand? || k.AwaitSwitch? || k.Opening?) && k.bg)
    || ((k.Loop? || k.AddTitle? || k.AddExtract?) && k.turn.bg)
    || k.GoTitle? || k.GoExtract? || k.Returning?
  }

  /** The count is exactly the units the live goroutines owe, is never negative, and is positive
      from an extraction through its dispatched turn to that turn's own tasks, so that a Wait
      returns only when none of them is left. */
  lemma WaitGroupAccounts(s: Sys)
    requires Reachable(s)
    ensures s.wg == Total(s.tasks, Credit)
    ensures s.wg == 0 <==> forall t :: t in s.tasks ==> !Background(s.tasks[t])
  {
    ReachableInv(s);
    if s.wg == 0 {
      forall t | t in s.tasks ensures !Background(s.tasks[t]) {
        TotalAtLeast(s.tasks, Credit, t);
      }
    } else {
      var t := SomePositive(s.tasks, Credit);
      assert Background(s.tasks[t]);
    }
  }

  lemma {:induction false} SomePositive(m: map<nat, Task>, w: Task -> nat) returns (k: nat)
    requires Total(m, w) > 0
    ensures k in m && w(m[k]) > 0
    decreases |m|
  {
    k :| k in m;
    if w(m[k]) == 0 {
      TotalSplit(m, w, k);
      k := SomePositive(m - {k}, w);
    }
  }

  /** Every SEND enters agentLoop at most once and ends at most once; each stay in the slot has
      exactly one fate; each call and each dispatch makes exactly one attempt to enter. */
  lemma SendFates(s: Sys, i: nat)
    requires Reachable(s)
    ensures s.ledger[EnteredLoop(i)] <= s.ledger[Met(Began, i)] <= 1
    ensures Ended(s.ledger, i) <= s.ledger[Called(i)] <= 1
    ensures s.ledger[Enqueued(i)] == LeftSlot(s.ledger, i) + One(SlotId(s.fsm) == Some(i))
    ensures var inHand := One(exists t :: t in s.tasks && Custody(s.tasks[t]) == Some(i));
            s.ledger[Called(i)] + s.ledger[Met(Dispatched, i)] ==
            s.ledger[Enqueued(i)] + s.ledger[Met(Began, i)] + s.ledger[Met(RefusedBusy, i)] + inHand
  {
    ReachableInv(s);
    assert LedgerOf(s, i);
    if t :| t in s.tasks && Custody(s.tasks[t]) == Some(i) {
      assert s.holder[i] == ByTask(t);
    } else {
      assert i in s.holder ==> !s.holder[i].ByTask?;
    }
  }

  // ---------------------------------------------------------------- the self-waiting dispatch

  lemma SelfWaitPersists(s: Sys, t: nat, a: Action)
    requires Inv(s) && t in s.tasks && s.tasks[t] == AwaitSwitch(true) && Enabled(s, a)
    ensures t in Next(s, a).tasks && Next(s, a).tasks[t] == AwaitSwitch(true)
  {
    TotalAtLeast(s.tasks, Credit, t);
  }

  /** An auto-dispatched switch of backend waits for the WaitGroup its own goroutine is on, so no
      continuation of the run ever gets it, or the agent, past that point. */
  lemma {:induction false} DispatchedSwitchHangs(s: Sys, t: nat, acts: seq<Action>)
    requires Inv(s) && t in s.tasks && s.tasks[t] == AwaitSwitch(true) && Runs(s, acts)
    ensures var n := After(s, acts);
            t in n.tasks && n.tasks[t] == AwaitSwitch(true) && n.fsm.state.Busy? && n.wg > 0
    decreases |acts|
  {
    if acts == [] {
      TotalAtLeast(s.tasks, Credit, t);
    } else {
      var n := Next(s, acts[0]);
      SelfWaitPersists(s, t, acts[0]);
      InvNext(s, acts[0]);
      DispatchedSwitchHangs(n, t, acts[1..]);
    }
  }

  /** Steps a background goroutine still has to take while the agent is held Busy. */
  function Work(k: Task): nat {
    match k
    case SendCall(_, bg) => if bg then 2 else 0
    case AddTitle(_, _) => 8
    case GoTitle(_, _) => 7
    case AddExtract(_, _) => 5
    case GoExtract(_, _) => 4
    case Extract(_, _) => 2
    case AddDispatch(_) => 5
    case GoDispatch(_) => 4
    case Returning => 1
    case Title(_) => 1
    case ExtractExit => 1
    case _ => 0
  }

  lemma StepWork(s: Sys, t: nat)
    requires t in s.tasks && Credit(s.tasks[t]) > 0 && !Owns(s.tasks[t])
    requires s.fsm.state.Busy? && s.fsm.queued.None?
    ensures var o := Step(s, t, false);
            Worth(o.self, Work) + Worth(o.spawn, Work) < Work(s.tasks[t])
  {
  }

  lemma BackgroundLeaves(s: Sys, u: nat, t: nat)
    requires Inv(s) && u in s.tasks && s.tasks[u] == AwaitSwitch(false) && t in s.tasks && Credit(s.tasks[t]) > 0
    ensures Enabled(s, Advance(t, false)) && t != u && !Owns(s.tasks[t])
    ensures s.fsm.state.Busy? && s.fsm.queued.None?
    ensures u in Next(s, Advance(t, false)).tasks && Next(s, Advance(t, false)).tasks[u] == AwaitSwitch(false)
  {
  }

  lemma BackgroundAdvances(s: Sys, u: nat, t: nat)
    requires Inv(s) && u in s.tasks && s.tasks[u] == AwaitSwitch(false) && t in s.tasks && Credit(s.tasks[t]) > 0
    ensures Enabled(s, Advance(t, false))
    ensures var n := Next(s, Advance(t, false));
            u in n.tasks && n.tasks[u] == AwaitSwitch(false) && Total(n.tasks, Work) < Total(s.tasks, Work)
  {
    BackgroundLeaves(s, u, t);
    StepWork(s, t);
    TotalAfterApply(s, t, Step(s, t, false), Work);
  }

  lemma DrainStep(s: Sys, u: nat) returns (a: Action)
    requires Inv(s) && u in s.tasks && s.tasks[u] == AwaitSwitch(false) && s.wg != 0
    ensures Enabled(s, a)
    ensures var n := Next(s, a);
            u in n.tasks && n.tasks[u] == AwaitSwitch(false) && Total(n.tasks, Work) < Total(s.tasks, Work)
  {
    var t := SomePositive(s.tasks, Credit);
    BackgroundAdvances(s, u, t);
    a := Advance(t, false);
  }

  /** While a user's switch of backend holds the agent, the background goroutines can all finish. */
  lemma {:induction false} Drain(s: Sys, u: nat) returns (acts: seq<Action>)
    requires Inv(s) && u in s.tasks && s.tasks[u] == AwaitSwitch(false)
    ensures Runs(s, acts)
    ensures var n := After(s, acts); Inv(n) && n.wg == 0 && u in n.tasks && n.tasks[u] == AwaitSwitch(false)
    decreases Total(s.tasks, Work)
  {
    acts := [];
    if s.wg != 0 {
      var a := DrainStep(s, u);
      InvNext(s, a);
      var rest := Drain(Next(s, a), u);
      RunsOnce(s, a);
      RunsThen(s, [a], rest);
      acts := [a] + rest;
    }
  }

  /** The agent can become idle again, whatever the state, unless an auto-dispatched switch of
      backend is waiting for itself. */
  lemma IdleAgainUnlessSelfWait(s: Sys)
    requires Reachable(s)
    ensures (exists acts :: Runs(s, acts) && After(s, acts).fsm.state.Idle?)
       <==> !exists t :: t in s.tasks && s.tasks[t] == AwaitSwitch(true)
  {
    ReachableInv(s);
    if t :| t in s.tasks && s.tasks[t] == AwaitSwitch(true) {
      forall acts | Runs(s, acts) ensures !After(s, acts).fsm.state.Idle? {
        DispatchedSwitchHangs(s, t, acts);
      }
    } else {
      var acts := ReturnToIdle(s);
    }
  }

  lemma ReturnToIdle(s: Sys) returns (acts: seq<Action>)
    requires Inv(s) && !exists t :: t in s.tasks && s.tasks[t] == AwaitSwitch(true)
    ensures Runs(s, acts) && After(s, acts).fsm.state.Idle?
  {
    acts := [];
    if s.fsm.state.Busy? {
      var u :| u in s.tasks && Owns(s.tasks[u]);
      if s.tasks[u].AwaitSwitch? {
        var wait := Drain(s, u);
        var more := OwnerReleases(After(s, wait), u);
        RunsThen(s, wait, more);
        acts := wait + more;
      } else {
        acts := OwnerReleases(s, u);
      }
    }
  }

  /** The owners whose own next step is not yet the release. */
  predicate TwoSteps(k: Task) {
    k.AwaitSwitch? || k.Opening? || k.LifeBody?
  }

  lemma ReleasesAtOnce(s: Sys, u: nat)
    requires u in s.tasks && Owns(s.tasks[u]) && !TwoSteps(s.tasks[u])
    ensures Next(s, Advance(u, false)).fsm.state.Idle?
  {
  }

  lemma ReleasesNext(s: Sys, u: nat)
    requires u in s.tasks && TwoSteps(s.tasks[u]) && (s.tasks[u].AwaitSwitch? ==> s.wg == 0)
    ensures var n := Next(s, Advance(u, false));
            u in n.tasks && Owns(n.tasks[u]) && !TwoSteps(n.tasks[u])
  {
  }

  lemma OwnerReleases(s: Sys, u: nat) returns (acts: seq<Action>)
    requires u in s.tasks && Owns(s.tasks[u]) && (s.tasks[u].AwaitSwitch? ==> s.wg == 0)
    ensures Runs(s, acts) && After(s, acts).fsm.state.Idle?
  {
    var a := Advance(u, false);
    if TwoSteps(s.tasks[u]) {
      ReleasesNext(s, u);
      ReleasesAtOnce(Next(s, a), u);
      RunsTwice(s, a);
      acts := [a, a];
    } else {
      ReleasesAtOnce(s, u);
      RunsOnce(s, a);
      acts := [a];
    }
  }

  lemma RunsOnce(s: Sys, a: Action)
    requires Enabled(s, a)
    ensures Runs(s, [a]) && After(s, [a]) == Next(s, a)
  {
    assert [a][1..] == [];
  }

  lemma RunsTwice(s: Sys, a: Action)
    requires Enabled(s, a) && Enabled(Next(s, a), a)
    ensures Runs(s, [a, a]) && After(s, [a, a]) == Next(Next(s, a), a)
  {
    assert [a, a][1..] == [a];
    RunsOnce(Next(s, a), a);
  }

  lemma {:induction false} RunsThen(s: Sys, acts: seq<Action>, more: seq<Action>)
    requires Runs(s, acts)
    requires Runs(After(s, acts), more)
    ensures Runs(s, acts + more) && After(s, acts + more) == After(After(s, acts), more)
    decreases |acts|
  {
    if acts == [] {
      assert acts + more == more;
    } else {
      RunsThen(Next(s, acts[0]), acts[1..], more);
      assert (acts + more)[1..] == acts[1..] + more;
    }
  }

  // ---------------------------------------------------------------- runs on which tempting claims fail

  lemma ReachNext(s: Sys, a: Action)
    requires Reachable(s) && Enabled(s, a)
    ensures Reachable(Next(s, a))
  {
    var acts :| Runs(INIT, acts) && After(INIT, acts) == s;
    RunsOnce(s, a);
    RunsThen(INIT, acts, [a]);
  }

  lemma InitReachable()
    ensures Reachable(INIT)
  {
    assert Runs(INIT, []) && After(INIT, []) == INIT;
  }

  lemma SendCalls(s: Sys, kind: Kind) returns (n: Sys)
    requires Reachable(s)
    ensures Reachable(n) && n.tasks == s.tasks[s.next := SendCall(Send(s.next, kind, ""), false)]
    ensures n == s.(tasks := n.tasks, next := s.next + 1, ledger := s.ledger + multiset{Called(s.next)},
                    holder := s.holder[s.next := ByTask(s.next)])
  {
    ReachNext(s, CallSend(kind, ""));
    n := Next(s, CallSend(kind, ""));
  }

  /** A SEND in hand of its goroutine finds the agent idle and takes it. */
  lemma SendBegins(s: Sys, t: nat, m: Send, bg: bool) returns (n: Sys)
    requires Reachable(s) && s.fsm == READY && t in s.tasks && s.tasks[t] == SendCall(m, bg) && m.kind.Plain?
    ensures Reachable(n) && n.tasks == s.tasks[t := Opening(m, bg)]
    ensures n == s.(tasks := n.tasks, fsm := Fsm(Busy, false, None), ledger := s.ledger + multiset{Met(Began, m.id)},
                    holder := n.holder)
  {
    ReachNext(s, Advance(t, true));
    n := Next(s, Advance(t, true));
  }

  /** A new SEND from the user finds the agent idle and takes it. */
  lemma SendOpens(s: Sys) returns (n: Sys)
    requires Reachable(s) && s.fsm == READY
    ensures Reachable(n) && n.tasks == s.tasks[s.next := Opening(Send(s.next, Plain, ""), false)]
    ensures n.fsm == Fsm(Busy, false, None) && n.next == s.next + 1
    ensures n.ledger == s.ledger + multiset{Called(s.next)} + multiset{Met(Began, s.next)}
    ensures n == s.(tasks := n.tasks, fsm := n.fsm, next := n.next, ledger := n.ledger, holder := n.holder)
  {
    var s1 := SendCalls(s, Plain);
    n := SendBegins(s1, s.next, Send(s.next, Plain, ""), false);
  }

  lemma LoopRuns(s: Sys, t: nat, m: Send) returns (n: Sys)
    requires Reachable(s) && s.fsm == Fsm(Busy, false, None) && s.session != 0 && t in s.tasks && s.tasks[t] == Opening(m, false)
    ensures Reachable(n) && n.tasks == s.tasks[t := AddTitle(Turn(m, false, s.session), Some(s.gen + 1))]
    ensures n.fsm == Fsm(Idle, true, None) && n.gen == s.gen + 1 && n.next == s.next
    ensures n.session == s.session && n.wg == s.wg && n.base == s.base
  {
    ReachNext(s, Advance(t, true));
    var s1 := Next(s, Advance(t, true));
    ReachNext(s1, Advance(t, true));
    n := Next(s1, Advance(t, true));
  }

  /** A user's plain SEND runs to the point where agentLoop returns. */
  lemma TurnReturns(s: Sys) returns (n: Sys)
    requires Reachable(s) && s.fsm == READY && s.session != 0
    ensures Reachable(n)
    ensures n.tasks == s.tasks[s.next := AddTitle(Turn(Send(s.next, Plain, ""), false, s.session), Some(s.gen + 1))]
    ensures n.fsm == Fsm(Idle, true, None) && n.gen == s.gen + 1 && n.next == s.next + 1
    ensures n.session == s.session && n.wg == s.wg && n.base == s.base
  {
    var s1 := SendOpens(s);
    n := LoopRuns(s1, s.next, Send(s.next, Plain, ""));
  }

  lemma TitleLaunches(s: Sys, t: nat, turn: Turn, g: nat) returns (n: Sys)
    requires Reachable(s) && t in s.tasks && s.tasks[t] == AddTitle(turn, Some(g)) && t < s.next
    ensures Reachable(n)
    ensures n.tasks == s.tasks[t := AddExtract(turn, g)][s.next := Title(turn.sess)]
    ensures n == s.(tasks := n.tasks, wg := s.wg + 1, next := s.next + 1)
  {
    ReachNext(s, Advance(t, true));
    var s1 := Next(s, Advance(t, true));
    ReachNext(s1, Advance(t, true));
    n := Next(s1, Advance(t, true));
  }

  lemma ExtractionLaunches(s: Sys, t: nat, turn: Turn, g: nat) returns (n: Sys)
    requires Reachable(s) && t in s.tasks && s.tasks[t] == AddExtract(turn, g) && !turn.bg && t < s.next
    ensures Reachable(n) && n.tasks == (s.tasks - {t})[s.next := Extract(g, turn.sess)]
    ensures n == s.(tasks := n.tasks, wg := s.wg + 1, next := s.next + 1)
  {
    ReachNext(s, Advance(t, true));
    var s1 := Next(s, Advance(t, true));
    ReachNext(s1, Advance(t, true));
    n := Next(s1, Advance(t, true));
  }

  /** From there its title and extraction tasks get launched. */
  lemma TasksLaunch(s: Sys, t: nat, turn: Turn, g: nat) returns (n: Sys)
    requires Reachable(s) && t in s.tasks && s.tasks[t] == AddTitle(turn, Some(g)) && !turn.bg && t < s.next
    ensures Reachable(n)
    ensures n.tasks == (s.tasks - {t})[s.next := Title(turn.sess)][s.next + 1 := Extract(g, turn.sess)]
    ensures n == s.(tasks := n.tasks, wg := s.wg + 2, next := s.next + 2)
  {
    var s1 := TitleLaunches(s, t, turn, g);
    n := ExtractionLaunches(s1, t, turn, g);
  }

  lemma LoadWaits(s: Sys, x: nat) returns (n: Sys)
    requires Reachable(s) && s.wg == 0
    ensures Reachable(n) && n.tasks == s.tasks[s.next := LifeLock(Load(x))]
    ensures n == s.(tasks := n.tasks, next := s.next + 1)
  {
    ReachNext(s, CallLifecycle(Load(x)));
    var s1 := Next(s, CallLifecycle(Load(x)));
    ReachNext(s1, Advance(s.next, true));
    n := Next(s1, Advance(s.next, true));
  }

  lemma LoadLocks(s: Sys, t: nat, x: nat) returns (n: Sys)
    requires Reachable(s) && s.fsm.state.Idle? && s.fsm.queued.None? && t in s.tasks && s.tasks[t] == LifeLock(Load(x))
    ensures Reachable(n) && n == s.(tasks := s.tasks - {t}, session := x, fsm := READY)
  {
    ReachNext(s, Advance(t, true));
    n := Next(s, Advance(t, true));
    assert n.ledger == s.ledger && n.holder == s.holder;
  }

  /** A session is loaded, the WaitGroup being at zero. */
  lemma Loads(s: Sys, x: nat) returns (n: Sys)
    requires Reachable(s) && s.fsm.state.Idle? && s.fsm.queued.None? && s.wg == 0 && s.next !in s.tasks
    ensures Reachable(n) && n == s.(session := x, fsm := READY, next := s.next + 1)
  {
    var s1 := LoadWaits(s, x);
    n := LoadLocks(s1, s.next, x);
    assert n.tasks == s.tasks;
  }

  /** A first turn is over in session 5, its tasks not yet launched. */
  lemma FirstTurnReturns() returns (s: Sys)
    ensures Reachable(s) && s.tasks == map[1 := AddTitle(Turn(Send(1, Plain, ""), false, 5), Some(1))]
    ensures s.fsm == Fsm(Idle, true, None) && s.gen == 1 && s.next == 2 && s.session == 5 && s.wg == 0 && s.base
  {
    InitReachable();
    ReachNext(INIT, SetBaseContext);
    var s0 := Next(INIT, SetBaseContext);
    var s1 := Loads(s0, 5);
    s := TurnReturns(s1);
  }

  lemma ExtractionRuns() returns (s: Sys)
    ensures Reachable(s) && s.tasks == map[2 := Title(5), 3 := Extract(1, 5)] && s.fsm == Fsm(Idle, true, None)
    ensures s.gen == 1 && s.next == 4 && s.session == 5 && s.base
  {
    var s0 := FirstTurnReturns();
    s := TasksLaunch(s0, 1, Turn(Send(1, Plain, ""), false, 5), 1);
  }

  /** "The flag is up exactly while an extraction runs" is false: after an Abort and a new turn, the
      cleanup of the aborted extraction takes the new one's flag down. */
  lemma StaleCleanupLowersFlag() returns (s: Sys)
    ensures Reachable(s) && !s.fsm.extracting && s.gen == 2
    ensures 6 in s.tasks && s.tasks[6] == Extract(2, 5)
  {
    var s0 := ExtractionRuns();
    ReachNext(s0, UserAbort);
    var s1 := Next(s0, UserAbort);
    var s2 := TurnReturns(s1);
    var s3 := TasksLaunch(s2, 4, Turn(Send(4, Plain, ""), false, 5), 2);
    assert s3.fsm.extracting && s3.tasks[3] == Extract(1, 5);
    ReachNext(s3, Advance(3, true));
    s := Next(s3, Advance(3, true));
  }

  /** A SEND made while an extraction runs is queued. */
  lemma SendQueues(s: Sys, kind: Kind) returns (n: Sys)
    requires Reachable(s) && s.fsm == Fsm(Idle, true, None) && s.next !in s.tasks
    ensures Reachable(n) && n.fsm == s.fsm.(queued := Some(Send(s.next, kind, "")))
    ensures n.tasks == s.tasks && n.ledger == s.ledger + multiset{Called(s.next)} + multiset{Enqueued(s.next)}
    ensures n == s.(fsm := n.fsm, next := s.next + 1, ledger := n.ledger, holder := n.holder)
  {
    var s1 := SendCalls(s, kind);
    ReachNext(s1, Advance(s.next, true));
    n := Next(s1, Advance(s.next, true));
    assert n.tasks == s.tasks;
  }

  /** The extraction's cleanup takes the queued SEND in hand. */
  lemma ExtractionTakes(s: Sys, t: nat, g: nat, sess: nat, m: Send) returns (n: Sys)
    requires Reachable(s) && s.base && s.fsm == Fsm(Idle, true, Some(m)) && t in s.tasks && s.tasks[t] == Extract(g, sess)
    ensures Reachable(n) && n.tasks == s.tasks[t := AddDispatch(m)] && n.fsm == READY
    ensures n.next == s.next && n.session == s.session && n.ledger == s.ledger + multiset{Met(Dispatched, m.id)}
  {
    ReachNext(s, Advance(t, true));
    n := Next(s, Advance(t, true));
  }

  /** A SEND of the given kind was queued behind the extraction, which has taken it in hand. */
  lemma QueuedAndTaken(kind: Kind) returns (s: Sys)
    ensures Reachable(s) && s.tasks == map[2 := Title(5), 3 := AddDispatch(Send(4, kind, ""))] && s.fsm == READY
    ensures s.next == 5 && s.session == 5 && s.ledger[Met(Dispatched, 4)] == 1
  {
    var s0 := ExtractionRuns();
    ReachableInv(s0);
    assert LedgerOf(s0, 4) && s0.ledger[Met(Dispatched, 4)] == 0;
    var s1 := SendQueues(s0, kind);
    s := ExtractionTakes(s1, 3, 1, 5, Send(4, kind, ""));
  }

  /** The dispatched goroutine is launched. */
  lemma DispatchLaunches(s: Sys, m: Send) returns (n: Sys)
    requires Reachable(s) && 3 in s.tasks && s.tasks[3] == AddDispatch(m) && s.next > 3
    ensures Reachable(n) && n.tasks == s.tasks[3 := ExtractExit][s.next := SendCall(m, true)]
    ensures n.fsm == s.fsm && n.next == s.next + 1 && n.ledger == s.ledger
  {
    ReachNext(s, Advance(3, true));
    var s1 := Next(s, Advance(3, true));
    ReachNext(s1, Advance(3, true));
    n := Next(s1, Advance(3, true));
  }

  lemma SendIsRefused(s: Sys, t: nat, m: Send) returns (n: Sys)
    requires Reachable(s) && s.fsm.state.Busy? && t in s.tasks && s.tasks[t] == SendCall(m, true)
    ensures Reachable(n) && n.ledger == s.ledger + multiset{Met(RefusedBusy, m.id)}
  {
    ReachNext(s, Advance(t, true));
    n := Next(s, Advance(t, true));
  }

  /** "A queued SEND always runs" is false: its dispatch can find the agent taken by a new SEND. */
  lemma QueuedSendRefused() returns (s: Sys)
    ensures Reachable(s) && s.ledger[Met(Dispatched, 4)] == 1 && s.ledger[Met(RefusedBusy, 4)] == 1
  {
    var s0 := QueuedAndTaken(Plain);
    var s1 := SendOpens(s0);
    var s2 := DispatchLaunches(s1, Send(4, Plain, ""));
    s := SendIsRefused(s2, 6, Send(4, Plain, ""));
    ReachableInv(s);
    assert LedgerOf(s, 4);
  }

  /** "LoadSession never swaps the session under an extraction" is false: its Wait can pass between
      the end of a turn and the launch of that turn's tasks. */
  lemma SwapUnderExtraction() returns (s: Sys)
    ensures Reachable(s) && s.session == 7 && !s.fsm.extracting
    ensures 4 in s.tasks && s.tasks[4] == Extract(1, 5)
  {
    var s0 := FirstTurnReturns();
    var s1 := Loads(s0, 7);
    s := TasksLaunch(s1, 1, Turn(Send(1, Plain, ""), false, 5), 1);
  }

  /** An auto-dispatched switch of backend does get to the wait that never returns. */
  lemma SelfWaitReachable() returns (s: Sys)
    ensures Reachable(s) && 5 in s.tasks && s.tasks[5] == AwaitSwitch(true)
  {
    var s0 := QueuedAndTaken(ModelSwitch);
    var s1 := DispatchLaunches(s0, Send(4, ModelSwitch, ""));
    ReachNext(s1, Advance(5, true));
    s := Next(s1, Advance(5, true));
  }
}
