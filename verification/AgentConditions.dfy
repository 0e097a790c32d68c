/** The object that follows every run, and exactly when the tempting claims about the agent do hold. */
module AgentConditions {
  import opened Options
  import opened AgentFsm
  import opened Totals
  import opened AgentProtocol
  import opened AgentGuarantees

  // ---------------------------------------------------------------- the phase diagram

  /** What a step is to the phase diagram: Cut is an Abort or the cleanup of an extraction, Locked
      the section of a lifecycle operation, which may stay Busy. */
  datatype Move = Sent | TurnEnded(extracts: bool) | Cut | Locked(staysBusy: bool) | Released | Elsewhere

  function MoveOfTask(k: Task, on: bool): Move {
    match k
    case SendCall(_, _) => Sent
    case Extract(_, _) => Cut
    case LifeLock(op) => Locked(!op.Load?)
    case Loop(_) => TurnEnded(on)
    case RunCommand(_) => Released
    case LifeRelease => Released
    case _ => Elsewhere
  }

  function MoveOf(s: Sys, a: Action): Move
    requires Enabled(s, a)
  {
    match a
    case UserAbort => Cut
    case Advance(t, on) => MoveOfTask(s.tasks[t], on)
    case _ => Elsewhere
  }

  /** The arrows of the phase diagram. */
  predicate Arrow(p: Phase, m: Move, q: Phase) {
    match m
    case Sent => q == if p.PhaseReady? || p.PhaseBusy? then PhaseBusy else PhaseQueued
    case TurnEnded(extracts) => p.PhaseBusy? && q == if extracts then PhaseExtracting else PhaseReady
    case Cut => q == if p.PhaseBusy? then PhaseBusy else PhaseReady
    case Locked(staysBusy) => q == if p.PhaseBusy? || staysBusy then PhaseBusy else PhaseReady
    case Released => p.PhaseBusy? && q.PhaseReady?
    case Elsewhere => q == p
  }

  /** In every interleaving each step follows an arrow of the diagram: turns and releases happen
      only in Busy, and nothing else leaves Busy. */
  lemma PhaseArrows(s: Sys, a: Action)
    requires Reachable(s) && Enabled(s, a)
    ensures Arrow(PhaseOf(s.fsm), MoveOf(s, a), PhaseOf(Next(s, a).fsm))
  {
    ReachableInv(s);
    PhaseArrow(s, a);
  }

  /** What the section of a goroutine at k does to the fields. */
  function SectionOf(f: Fsm, k: Task, on: bool): Fsm {
    match k
    case SendCall(m, _) => EnterSend(f, m).0
    case Extract(_, _) => Clear(f)
    case LifeLock(op) => EnterLifecycle(f, !op.Load?).0
    case Loop(_) => FinishTurn(f, on)
    case RunCommand(_) => Release(f)
    case LifeRelease => Release(f)
    case _ => f
  }

  lemma PlainSection(s: Sys, k: Task, on: bool)
    requires !k.SendCall? && !k.Extract? && !k.GoDispatch? && !k.LifeLock?
    ensures PlainOutcome(s, k, on).fsm == SectionOf(s.fsm, k, on)
  {
  }

  lemma StepSection(s: Sys, t: nat, on: bool)
    requires t in s.tasks
    ensures Step(s, t, on).fsm == SectionOf(s.fsm, s.tasks[t], on)
  {
    match s.tasks[t]
    case SendCall(_, _) =>
    case Extract(_, _) =>
    case GoDispatch(_) =>
    case LifeLock(_) =>
    case k => PlainSection(s, k, on);
  }

  lemma SectionArrow(f: Fsm, k: Task, on: bool)
    requires Coherent(f) && (Owns(k) ==> f.state.Busy?)
    ensures Arrow(PhaseOf(f), MoveOfTask(k, on), PhaseOf(SectionOf(f, k, on)))
  {
  }

  lemma PhaseArrow(s: Sys, a: Action)
    requires OwnerInv(s) && Enabled(s, a)
    ensures Arrow(PhaseOf(s.fsm), MoveOf(s, a), PhaseOf(Next(s, a).fsm))
  {
    if a.Advance? {
      StepSection(s, a.task, a.extractOn);
      SectionArrow(s.fsm, s.tasks[a.task], a.extractOn);
    }
  }

  /** The critical section of a goroutine at k, performed on the object. */
  method Section(agent: Agent, k: Task, on: bool)
    modifies agent
    ensures agent.View() == SectionOf(old(agent.View()), k, on)
  {
    match k
    case SendCall(m, _) => var _ := agent.EnterSendSection(m);
    case Extract(_, _) => var _ := agent.ExtractionCleanup();
    case LifeLock(op) => var _ := agent.EnterLifecycleSection(!op.Load?);
    case Loop(_) => agent.FinishTurnSection(on);
    case RunCommand(_) => agent.ReleaseSection();
    case LifeRelease => agent.ReleaseSection();
    case _ =>
  }

  /** One action of a run on the object. */
  method Perform(agent: Agent, s: Sys, a: Action)
    requires Enabled(s, a) && agent.View() == s.fsm
    modifies agent
    ensures agent.View() == Next(s, a).fsm
  {
    if a.UserAbort? {
      var _ := agent.Abort();
    } else if a.Advance? {
      Section(agent, s.tasks[a.task], a.extractOn);
      StepSection(s, a.task, a.extractOn);
    }
  }

  /** The snapshot taken after action a shows the state it leads to, one arrow on, and a queued message
      only in the queued phase. */
  predicate ShownAt(s: Sys, a: Action, x: AgentSnapshot)
    requires Enabled(s, a)
  {
    && x == SnapshotOf(Next(s, a).fsm) && Arrow(PhaseOf(s.fsm), MoveOf(s, a), x.phase)
    && (x.queuedMessage != "" ==> x.phase.PhaseQueued?)
  }

  predicate Shown(s: Sys, acts: seq<Action>, seen: seq<AgentSnapshot>)
    requires Runs(s, acts)
    decreases |acts|
  {
    if acts == [] then seen == []
    else seen != [] && ShownAt(s, acts[0], seen[0]) && Shown(Next(s, acts[0]), acts[1..], seen[1..])
  }

  method FollowOne(agent: Agent, s: Sys, a: Action) returns (shown: AgentSnapshot)
    requires Inv(s) && Enabled(s, a) && agent.View() == s.fsm
    modifies agent
    ensures Inv(Next(s, a)) && agent.View() == Next(s, a).fsm && ShownAt(s, a, shown)
  {
    Perform(agent, s, a);
    InvNext(s, a);
    PhaseArrow(s, a);
    shown := agent.Snapshot();
  }

  /** Whatever the interleaving, an object that performs its sections in place goes through the states
      of the run and shows them. */
  method Follow(agent: Agent, s: Sys, acts: seq<Action>) returns (seen: seq<AgentSnapshot>)
    requires Inv(s) && Runs(s, acts) && agent.View() == s.fsm
    modifies agent
    ensures agent.View() == After(s, acts).fsm && Shown(s, acts, seen)
    decreases |acts|
  {
    seen := [];
    if acts != [] {
      var shown := FollowOne(agent, s, acts[0]);
      var rest := Follow(agent, Next(s, acts[0]), acts[1..]);
      seen := [shown] + rest;
      assert seen[1..] == rest;
    }
  }

  // ---------------------------------------------------------------- the flag and the extractions

  /** Each generation has at most one extraction in flight, and none is newer than the last. */
  ghost predicate GenInv(s: Sys) {
    && (forall t: nat, g: nat :: Carries(s, t, g) ==> g <= s.gen)
    && (forall t: nat, u: nat, g: nat :: Carries(s, t, g) && Carries(s, u, g) ==> t == u)
  }

  /** The step takes the flag down whoever raised it. */
  predicate Cuts(s: Sys, k: Task) {
    k.Extract? || (k.LifeLock? && s.fsm.state.Idle?)
  }

  /** A step hands an extraction on until its cleanup; only the end of a turn starts one. */
  ghost predicate FlightsLocal(s: Sys, k: Task, o: Outcome, on: bool) {
    && (forall g: nat ::
          (InFlightOpt(o.self, g) || InFlightOpt(o.spawn, g) <==>
             (InFlight(k, g) && !k.Extract?) || (k.Loop? && on && g == s.gen + 1)))
    && (forall g: nat :: !(InFlightOpt(o.self, g) && InFlightOpt(o.spawn, g)))
    && o.gen == (if k.Loop? && on then s.gen + 1 else s.gen)
    && o.fsm.extracting == (if k.Loop? then on else !Cuts(s, k) && s.fsm.extracting)
  }

  lemma PlainFlights(s: Sys, k: Task, on: bool)
    requires !k.SendCall? && !k.Extract? && !k.GoDispatch? && !k.LifeLock?
    ensures FlightsLocal(s, k, PlainOutcome(s, k, on), on)
  {
  }

  lemma SendFlights(s: Sys, m: Send, bg: bool, on: bool)
    ensures FlightsLocal(s, SendCall(m, bg), SendOutcome(s, m, bg), on)
  {
  }

  lemma StepFlights(s: Sys, t: nat, on: bool)
    requires t in s.tasks
    ensures FlightsLocal(s, s.tasks[t], Step(s, t, on), on)
  {
    match s.tasks[t]
    case SendCall(m, bg) => SendFlights(s, m, bg, on);
    case Extract(_, _) => assert FlightsLocal(s, s.tasks[t], CleanupOutcome(s, t), on);
    case GoDispatch(m) => assert FlightsLocal(s, s.tasks[t], DispatchOutcome(s, m), on);
    case LifeLock(op) => assert FlightsLocal(s, s.tasks[t], LifecycleOutcome(s, op), on);
    case k => PlainFlights(s, k, on);
  }

  /** Task u has the extraction of generation g in flight. */
  predicate Carries(s: Sys, u: nat, g: nat) {
    u in s.tasks && InFlight(s.tasks[u], g)
  }

  lemma CarriesAfter(s: Sys, t: nat, o: Outcome, u: nat, g: nat)
    requires OwnerInv(s) && t in s.tasks
    ensures Carries(Apply(s, t, o), u, g) <==>
            if u == t then InFlightOpt(o.self, g)
            else if u == s.next then InFlightOpt(o.spawn, g)
            else Carries(s, u, g)
  {
  }

  lemma GenApply(s: Sys, t: nat, o: Outcome, on: bool)
    requires OwnerInv(s) && GenInv(s) && t in s.tasks && FlightsLocal(s, s.tasks[t], o, on)
    ensures GenInv(Apply(s, t, o))
  {
    var n := Apply(s, t, o);
    forall u: nat, g: nat | Carries(n, u, g)
      ensures g <= n.gen && (Carries(s, u, g) || Carries(s, t, g) || g == s.gen + 1)
    {
      CarriesAfter(s, t, o, u, g);
      assert InFlight(s.tasks[t], g) == Carries(s, t, g);
    }
    forall u: nat, v: nat, g: nat | Carries(n, u, g) && Carries(n, v, g) ensures u == v {
      CarriesAfter(s, t, o, u, g);
      CarriesAfter(s, t, o, v, g);
    }
  }

  lemma GenNext(s: Sys, a: Action)
    requires OwnerInv(s) && GenInv(s) && Enabled(s, a)
    ensures GenInv(Next(s, a))
  {
    if a.Advance? {
      StepFlights(s, a.task, a.extractOn);
      GenApply(s, a.task, Step(s, a.task, a.extractOn), a.extractOn);
    } else {
      forall u: nat, g: nat | Carries(Next(s, a), u, g) ensures Carries(s, u, g) {
      }
    }
  }
  lemma {:induction false} GenRun(s: Sys, acts: seq<Action>)
    requires Inv(s) && GenInv(s) && Runs(s, acts)
    ensures GenInv(After(s, acts))
    decreases |acts|
  {
    if acts != [] {
      InvNext(s, acts[0]);
      GenNext(s, acts[0]);
      GenRun(Next(s, acts[0]), acts[1..]);
    }
  }

  lemma ReachableGen(s: Sys)
    requires Reachable(s)
    ensures Inv(s) && GenInv(s)
  {
    ReachableInv(s);
    var acts :| Runs(INIT, acts) && After(INIT, acts) == s;
    InitInv();
    GenRun(INIT, acts);
  }

  /** The flag is up exactly while an extraction is in flight, and that one belongs to the last turn. */
  ghost predicate Exact(s: Sys) {
    && (s.fsm.extracting <==> exists t: nat :: Carries(s, t, s.gen))
    && (forall t: nat, g: nat :: Carries(s, t, g) ==> g == s.gen)
  }

  /** An Abort, or a lifecycle section that finds the agent Idle, while the flag is up. */
  predicate Disturbs(s: Sys, a: Action)
    requires Enabled(s, a)
  {
    s.fsm.extracting && (a.UserAbort? || (a.Advance? && s.tasks[a.task].LifeLock? && s.fsm.state.Idle?))
  }

  lemma ExactElsewhere(s: Sys, a: Action)
    requires OwnerInv(s) && Exact(s) && !a.Advance?
    ensures Exact(Next(s, a)) <==> !Disturbs(s, a)
  {
    var n := Next(s, a);
    forall u: nat, g: nat ensures Carries(n, u, g) <==> Carries(s, u, g) {
    }
    if s.fsm.extracting {
      var u: nat :| Carries(s, u, s.gen);
      assert Carries(n, u, n.gen);
    }
  }

  /** The end of a turn: nothing was in flight, and now exactly the new extraction is, if there is one. */
  lemma ExactAtTurnEnd(s: Sys, t: nat, o: Outcome, on: bool)
    requires OwnerInv(s) && Exact(s) && t in s.tasks && s.tasks[t].Loop? && FlightsLocal(s, s.tasks[t], o, on)
    ensures Exact(Apply(s, t, o))
  {
    var n := Apply(s, t, o);
    assert !s.fsm.extracting;
    forall u: nat, g: nat | Carries(n, u, g) ensures on && g == s.gen + 1 {
      CarriesAfter(s, t, o, u, g);
    }
    CarriesAfter(s, t, o, t, s.gen + 1);
    CarriesAfter(s, t, o, s.next, s.gen + 1);
  }

  /** A cleanup: it was the one extraction in flight. */
  lemma ExactAtCleanup(s: Sys, t: nat, o: Outcome, on: bool)
    requires OwnerInv(s) && GenInv(s) && Exact(s) && t in s.tasks && s.tasks[t].Extract?
    requires FlightsLocal(s, s.tasks[t], o, on)
    ensures Exact(Apply(s, t, o))
  {
    var n := Apply(s, t, o);
    assert Carries(s, t, s.tasks[t].gen);
    forall u: nat, g: nat ensures !Carries(n, u, g) {
      CarriesAfter(s, t, o, u, g);
    }
  }

  /** Any other step keeps what is in flight, so all depends on the flag. */
  lemma ExactKept(s: Sys, t: nat, o: Outcome, on: bool)
    requires OwnerInv(s) && Exact(s) && t in s.tasks && !s.tasks[t].Loop? && !s.tasks[t].Extract?
    requires FlightsLocal(s, s.tasks[t], o, on)
    ensures Exact(Apply(s, t, o)) <==> !(s.fsm.extracting && Cuts(s, s.tasks[t]))
  {
    var n := Apply(s, t, o);
    forall u: nat, g: nat | Carries(n, u, g) ensures g == s.gen && exists v: nat :: Carries(s, v, g) {
      CarriesAfter(s, t, o, u, g);
      assert InFlight(s.tasks[t], g) == Carries(s, t, g);
    }
    if s.fsm.extracting {
      var u: nat :| Carries(s, u, s.gen);
      CarriesAfter(s, t, o, u, s.gen);
      CarriesAfter(s, t, o, t, s.gen);
      CarriesAfter(s, t, o, s.next, s.gen);
      assert exists v: nat :: Carries(n, v, s.gen);
    }
  }

  /** From a state where flag and extractions agree, a step makes them differ exactly if it is an Abort
      or a lifecycle section taken with the flag up. */
  lemma FlagStepIff(s: Sys, a: Action)
    requires OwnerInv(s) && GenInv(s) && Exact(s) && Enabled(s, a)
    ensures Exact(Next(s, a)) <==> !Disturbs(s, a)
  {
    if a.Advance? {
      var t, o := a.task, Step(s, a.task, a.extractOn);
      StepFlights(s, t, a.extractOn);
      if s.tasks[t].Loop? {
        ExactAtTurnEnd(s, t, o, a.extractOn);
      } else if s.tasks[t].Extract? {
        ExactAtCleanup(s, t, o, a.extractOn);
      } else {
        ExactKept(s, t, o, a.extractOn);
      }
    } else {
      ExactElsewhere(s, a);
    }
  }

  predicate Undisturbed(s: Sys, acts: seq<Action>)
    requires Runs(s, acts)
    decreases |acts|
  {
    acts == [] || (!Disturbs(s, acts[0]) && Undisturbed(Next(s, acts[0]), acts[1..]))
  }

  /** On every run on which no Abort and no lifecycle section finds the flag up, the flag is up exactly
      while an extraction is in flight. */
  lemma {:induction false} FlagIsExact(s: Sys, acts: seq<Action>)
    requires Inv(s) && GenInv(s) && Exact(s) && Runs(s, acts) && Undisturbed(s, acts)
    ensures Exact(After(s, acts))
    decreases |acts|
  {
    if acts != [] {
      FlagStepIff(s, acts[0]);
      InvNext(s, acts[0]);
      GenNext(s, acts[0]);
      FlagIsExact(Next(s, acts[0]), acts[1..]);
    }
  }

  lemma ExactFromTheStart(acts: seq<Action>)
    requires Runs(INIT, acts) && Undisturbed(INIT, acts)
    ensures var s := After(INIT, acts);
            s.fsm.extracting <==> exists t :: t in s.tasks && InFlight(s.tasks[t], s.gen)
  {
    InitInv();
    FlagIsExact(INIT, acts);
    var s := After(INIT, acts);
    forall t: nat ensures Carries(s, t, s.gen) <==> t in s.tasks && InFlight(s.tasks[t], s.gen) {
    }
  }

  lemma OthersStay(s: Sys, t: nat, on: bool, g: nat)
    requires OwnerInv(s) && GenInv(s) && t in s.tasks && s.tasks[t].Extract?
    ensures var n := Apply(s, t, Step(s, t, on));
            forall u: nat :: Carries(n, u, g) <==> Carries(s, u, g) && g != s.tasks[t].gen
  {
    StepFlights(s, t, on);
    assert Carries(s, t, s.tasks[t].gen);
    forall u: nat
      ensures Carries(Apply(s, t, Step(s, t, on)), u, g) <==> Carries(s, u, g) && g != s.tasks[t].gen
    {
      CarriesAfter(s, t, Step(s, t, on), u, g);
    }
  }

  /** The cleanup of generation g takes down the flag of another extraction, which stays in flight
      without it, exactly if the flag is up and g is not the last generation. */
  lemma StaleCleanupIff(s: Sys, t: nat, g: nat, sess: nat, on: bool)
    requires Reachable(s) && t in s.tasks && s.tasks[t] == Extract(g, sess)
    ensures var n := Next(s, Advance(t, on));
            && !n.fsm.extracting
            && ((s.fsm.extracting && exists u: nat :: Carries(n, u, s.gen)) <==> (s.fsm.extracting && g != s.gen))
  {
    ReachableGen(s);
    OthersStay(s, t, on, s.gen);
    if s.fsm.extracting {
      var u: nat :| u in s.tasks && InFlight(s.tasks[u], s.gen);
      assert Carries(s, u, s.gen);
    }
  }

  // ---------------------------------------------------------------- what a dispatched SEND meets

  /** A dispatched SEND begins exactly if its goroutine finds the agent Idle and not extracting; it is
      refused exactly if it finds it Busy, and goes back to the queue otherwise. */
  lemma DispatchMeets(s: Sys, t: nat, m: Send, on: bool)
    requires Reachable(s) && t in s.tasks && s.tasks[t] == SendCall(m, true)
    ensures var n := Next(s, Advance(t, on));
            && (n.ledger[Met(Began, m.id)] == 1 <==> s.fsm.state.Idle? && !s.fsm.extracting)
            && (n.ledger[Met(RefusedBusy, m.id)] == 1 <==> s.fsm.state.Busy?)
            && (n.fsm.queued == Some(m) <==> s.fsm.state.Idle? && s.fsm.extracting)
  {
    ReachableInv(s);
    assert Custody(s.tasks[t]) == Some(m.id);
    assert s.holder[m.id] == ByTask(t);
    assert LedgerOf(s, m.id);
  }

  // ---------------------------------------------------------------- what a lifecycle section finds

  /** In a lifecycle section that finds the agent Idle, the reset changes a field exactly if the flag is
      up, and loses a SEND exactly if the slot is full. */
  lemma ResetIff(s: Sys, t: nat, op: Op, on: bool)
    requires Reachable(s) && t in s.tasks && s.tasks[t] == LifeLock(op) && s.fsm.state.Idle?
    ensures var n := Next(s, Advance(t, on));
            && (Reset(s.fsm) != s.fsm <==> s.fsm.extracting)
            && n.fsm == (if op.Load? then READY else READY.(state := Busy))
            && (forall i: nat :: n.ledger[Met(WipedByReset, i)] > s.ledger[Met(WipedByReset, i)] <==>
                                 SlotId(s.fsm) == Some(i))
  {
    ReachableInv(s);
  }

  lemma LoadWipes(s: Sys, t: nat, x: nat, m: Send) returns (n: Sys)
    requires Reachable(s) && s.fsm == Fsm(Idle, true, Some(m)) && t in s.tasks && s.tasks[t] == LifeLock(Load(x))
    ensures Reachable(n) && n.session == x && n.ledger[Met(WipedByReset, m.id)] > 0
  {
    ReachNext(s, Advance(t, true));
    n := Next(s, Advance(t, true));
  }

  /** "The reset in LoadSession does nothing" is false: a SEND queued between its Wait and its section
      is lost. */
  lemma WipeReachable() returns (s: Sys)
    ensures Reachable(s) && s.session == 7 && s.ledger[Met(WipedByReset, 3)] == 1
  {
    var s0 := FirstTurnReturns();
    var s1 := LoadWaits(s0, 7);
    var s2 := SendQueues(s1, Plain);
    s := LoadWipes(s2, 2, 7, Send(3, Plain, ""));
    SendFates(s, 3);
  }

  /** The session of the turn whose title and extraction the task is, or is yet to launch. */
  function TurnSession(k: Task): Option<nat> {
    match k
    case AddTitle(turn, _) => Some(turn.sess)
    case GoTitle(turn, _) => Some(turn.sess)
    case AddExtract(turn, _) => Some(turn.sess)
    case GoExtract(turn, _) => Some(turn.sess)
    case Title(sess) => Some(sess)
    case Extract(_, sess) => Some(sess)
    case _ => None
  }

  /** A task of a turn of another session than the one given. */
  predicate Foreign(s: Sys, u: nat, session: nat) {
    u in s.tasks && TurnSession(s.tasks[u]).Some? && TurnSession(s.tasks[u]).value != session
  }

  /** The section that loads session x leaves a task of another session's turn behind exactly if, when
      it is entered, some turn is between its end and the end of its title or extraction. */
  lemma SwapIff(s: Sys, t: nat, x: nat, on: bool)
    requires Reachable(s) && t in s.tasks && s.tasks[t] == LifeLock(Load(x)) && s.fsm.state.Idle?
    ensures var n := Next(s, Advance(t, on));
            n.session == x && forall u: nat :: Foreign(n, u, n.session) <==> Foreign(s, u, x)
  {
  }

  /** A turn that has ended and whose title, or extraction, is not yet on the WaitGroup. */
  predicate Unregistered(k: Task) {
    k.AddTitle? || k.AddExtract?
  }

  /** When LoadSession's Wait lets it pass, the only tasks of ended turns are unregistered ones; a load
      that is not delayed between its Wait and its section leaves a task of another session's turn
      behind exactly if one of those is of another session. */
  lemma UndelayedSwapIff(s: Sys, t: nat, x: nat, on: bool)
    requires Reachable(s) && t in s.tasks && s.tasks[t] == LifeWait(Load(x)) && s.wg == 0 && s.fsm.state.Idle?
    ensures var n := Next(Next(s, Advance(t, on)), Advance(t, on));
            && n.session == x
            && forall u: nat :: Foreign(n, u, n.session) <==> Foreign(s, u, x) && Unregistered(s.tasks[u])
  {
    WaitGroupAccounts(s);
    var s1 := Next(s, Advance(t, on));
    ReachNext(s, Advance(t, on));
    SwapIff(s1, t, x, on);
    forall u: nat ensures Foreign(s1, u, x) <==> Foreign(s, u, x) && Unregistered(s.tasks[u]) {
      if Foreign(s, u, x) {
        assert !Background(s.tasks[u]);
      }
    }
  }
  /** No task of an ended turn is left. */
  predicate NoTurnTask(s: Sys) {
    forall u :: u in s.tasks ==> TurnSession(s.tasks[u]).None?
  }

  /** No turn ends during the run. */
  predicate NoTurnEnds(s: Sys, acts: seq<Action>)
    requires Runs(s, acts)
    decreases |acts|
  {
    acts == [] || (!MoveOf(s, acts[0]).TurnEnded? && NoTurnEnds(Next(s, acts[0]), acts[1..]))
  }

  /** A task of an ended turn comes from one, or from the end of a turn. */
  predicate SessionLocal(k: Task, o: Outcome) {
    (o.self.Some? && TurnSession(o.self.value).Some?) || (o.spawn.Some? && TurnSession(o.spawn.value).Some?) ==>
      k.Loop? || TurnSession(k).Some?
  }

  lemma PlainSession(s: Sys, k: Task, on: bool)
    ensures SessionLocal(k, PlainOutcome(s, k, on))
  {
  }

  lemma SendSession(s: Sys, m: Send, bg: bool)
    ensures SessionLocal(SendCall(m, bg), SendOutcome(s, m, bg))
  {
  }

  lemma StepSession(s: Sys, t: nat, on: bool)
    requires t in s.tasks
    ensures SessionLocal(s.tasks[t], Step(s, t, on))
  {
    match s.tasks[t]
    case SendCall(m, bg) => SendSession(s, m, bg);
    case Extract(_, _) =>
    case GoDispatch(_) =>
    case LifeLock(_) =>
    case k => PlainSession(s, k, on);
  }

  lemma NoTurnTaskApply(s: Sys, t: nat, o: Outcome)
    requires NoTurnTask(s) && t in s.tasks && SessionLocal(s.tasks[t], o) && !s.tasks[t].Loop?
    ensures NoTurnTask(Apply(s, t, o))
  {
  }

  lemma NoTurnTaskNext(s: Sys, a: Action)
    requires NoTurnTask(s) && Enabled(s, a) && !MoveOf(s, a).TurnEnded?
    ensures NoTurnTask(Next(s, a))
  {
    if a.Advance? {
      StepSession(s, a.task, a.extractOn);
      NoTurnTaskApply(s, a.task, Step(s, a.task, a.extractOn));
    }
  }

  lemma {:induction false} NoTurnTaskRun(s: Sys, acts: seq<Action>)
    requires NoTurnTask(s) && Runs(s, acts) && NoTurnEnds(s, acts)
    ensures NoTurnTask(After(s, acts))
    decreases |acts|
  {
    if acts != [] {
      NoTurnTaskNext(s, acts[0]);
      NoTurnTaskRun(Next(s, acts[0]), acts[1..]);
    }
  }

  /** A Wait that passes while no ended turn is unregistered does protect the swap for as long as no
      other turn ends: whatever else happens, no task of a turn is there when the section is entered. */
  lemma WaitProtects(s: Sys, acts: seq<Action>)
    requires Reachable(s) && s.wg == 0 && (forall u :: u in s.tasks ==> !Unregistered(s.tasks[u]))
    requires Runs(s, acts) && NoTurnEnds(s, acts)
    ensures NoTurnTask(After(s, acts))
  {
    WaitGroupAccounts(s);
    NoTurnTaskRun(s, acts);
  }

  // ---------------------------------------------------------------- how long a switch waits

  /** The steps of the run that background goroutines take. */
  function BackgroundSteps(s: Sys, acts: seq<Action>): nat
    requires Runs(s, acts)
    decreases |acts|
  {
    if acts == [] then 0 else WorkStep(s, acts[0]) + BackgroundSteps(Next(s, acts[0]), acts[1..])
  }

  function WorkStep(s: Sys, a: Action): nat
    requires Enabled(s, a)
  {
    One(a.Advance? && Work(s.tasks[a.task]) > 0)
  }

  lemma WaitedStep(s: Sys, t: nat, on: bool)
    requires t in s.tasks && !Owns(s.tasks[t]) && s.fsm.state.Busy? && s.fsm.queued.None?
    ensures var o := Step(s, t, on);
            Worth(o.self, Work) + Worth(o.spawn, Work) + One(Work(s.tasks[t]) > 0) <= Work(s.tasks[t])
  {
  }

  /** Task u is a user's switch of backend that waits. */
  predicate Waiting(s: Sys, u: nat) {
    u in s.tasks && s.tasks[u] == AwaitSwitch(false)
  }

  lemma WaitingAdvance(s: Sys, u: nat, t: nat, on: bool)
    requires OwnerInv(s) && Waiting(s, u) && t in s.tasks && t != u
    ensures var n := Apply(s, t, Step(s, t, on));
            Waiting(n, u) && One(Work(s.tasks[t]) > 0) + Total(n.tasks, Work) <= Total(s.tasks, Work)
  {
    WaitedStep(s, t, on);
    TotalAfterApply(s, t, Step(s, t, on), Work);
  }

  lemma WaitingStep(s: Sys, u: nat, a: Action)
    requires OwnerInv(s) && Waiting(s, u) && Enabled(s, a) && (a.Advance? ==> a.task != u)
    ensures Waiting(Next(s, a), u) && WorkStep(s, a) + Total(Next(s, a).tasks, Work) <= Total(s.tasks, Work)
  {
    match a
    case Advance(t, on) => WaitingAdvance(s, u, t, on);
    case CallSend(kind, text) => TotalUpdate(s.tasks, Work, s.next, SendCall(Send(s.next, kind, text), false));
    case CallLifecycle(op) => TotalUpdate(s.tasks, Work, s.next, LifeWait(op));
    case _ =>
  }

  /** While a user's switch of backend waits, every continuation has only boundedly many background
      steps, and until the count is zero one of them can be taken: the Wait ends. */
  lemma {:induction false} SwitchWaitIsBounded(s: Sys, u: nat, acts: seq<Action>)
    requires Inv(s) && Waiting(s, u) && Runs(s, acts)
    requires forall i :: 0 <= i < |acts| && acts[i].Advance? ==> acts[i].task != u
    ensures var n := After(s, acts);
            && Waiting(n, u) && BackgroundSteps(s, acts) + Total(n.tasks, Work) <= Total(s.tasks, Work)
            && (n.wg == 0 || exists t :: t in n.tasks && Work(n.tasks[t]) > 0 && Enabled(n, Advance(t, false)))
    decreases |acts|
  {
    if acts == [] {
      if s.wg != 0 {
        var t := SomePositive(s.tasks, Credit);
        BackgroundLeaves(s, u, t);
        StepWork(s, t);
      }
    } else {
      var n := Next(s, acts[0]);
      WaitingStep(s, u, acts[0]);
      InvNext(s, acts[0]);
      forall i | 0 <= i < |acts[1..]| && acts[1..][i].Advance? ensures acts[1..][i].task != u {
        assert acts[1..][i] == acts[i + 1];
      }
      SwitchWaitIsBounded(n, u, acts[1..]);
    }
  }
  // ---------------------------------------------------------------- how long the agent is held

  /** The steps an owner takes up to its release. */
  function StepsLeft(k: Task): nat {
    if TwoSteps(k) then 2 else if Owns(k) then 1 else 0
  }

  /** The steps of the run that task u takes. */
  function StepsOf(u: nat, acts: seq<Action>): nat {
    if acts == [] then 0 else One(acts[0].Advance? && acts[0].task == u) + StepsOf(u, acts[1..])
  }

  /** The run passes through a state in which the agent is Idle. */
  predicate IdleOnTheWay(s: Sys, acts: seq<Action>)
    requires Runs(s, acts)
    decreases |acts|
  {
    s.fsm.state.Idle? || (acts != [] && IdleOnTheWay(Next(s, acts[0]), acts[1..]))
  }

  lemma OwnerSteps(s: Sys, u: nat, on: bool)
    requires u in s.tasks && Owns(s.tasks[u])
    ensures var o := Step(s, u, on);
            o.fsm.state.Idle? || (o.self.Some? && Owns(o.self.value) && StepsLeft(o.self.value) < StepsLeft(s.tasks[u]))
  {
  }

  lemma OwnerHolds(s: Sys, u: nat, a: Action)
    requires OwnerInv(s) && u in s.tasks && Owns(s.tasks[u]) && Enabled(s, a)
    ensures var n := Next(s, a);
            || n.fsm.state.Idle?
            || (u in n.tasks && Owns(n.tasks[u])
                && StepsLeft(n.tasks[u]) + One(a.Advance? && a.task == u) <= StepsLeft(s.tasks[u]))
  {
    if a.Advance? && a.task == u {
      OwnerSteps(s, u, a.extractOn);
    }
  }

  /** Whatever else happens, whoever holds the agent gives it back within two steps of its own; only a switch of
      backend that waits can be kept from taking the next one. */
  lemma {:induction false} HeldForTwoSteps(s: Sys, u: nat, acts: seq<Action>)
    requires Inv(s) && u in s.tasks && Owns(s.tasks[u]) && Runs(s, acts) && StepsOf(u, acts) >= StepsLeft(s.tasks[u])
    ensures IdleOnTheWay(s, acts)
    ensures !s.tasks[u].AwaitSwitch? ==> forall on :: Enabled(s, Advance(u, on))
    decreases |acts|
  {
    if acts != [] {
      OwnerHolds(s, u, acts[0]);
      InvNext(s, acts[0]);
      var n := Next(s, acts[0]);
      if !n.fsm.state.Idle? {
        HeldForTwoSteps(n, u, acts[1..]);
      }
    }
  }
}
