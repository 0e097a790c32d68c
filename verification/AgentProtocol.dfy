/** The agent under concurrency: a transition system whose steps are the critical sections,
    the WaitGroup operations and the goroutine launches of the turn, title, extraction,
    auto-dispatch and session-lifecycle code. */
module AgentProtocol {
  import opened Options
  import opened AgentFsm
  import opened Totals

  /** A turn in progress; sess is the session pointer agentLoop started with, bg says that the
      turn was auto-dispatched, so that its goroutine is on the WaitGroup. */
  datatype Turn = Turn(m: Send, bg: bool, sess: nat)

  datatype Op = Load(session: nat) | Export | Import | Delete(session: nat)

  /** Where a goroutine (or a user's call) stands: each constructor is the next step it takes. */
  datatype Task =
    | SendCall(m: Send, bg: bool)
    | RunCommand(bg: bool)
    | AwaitSwitch(bg: bool)
    | Opening(m: Send, bg: bool)
    | Loop(turn: Turn)
    | AddTitle(turn: Turn, flight: Option<nat>)
    | GoTitle(turn: Turn, flight: Option<nat>)
    | AddExtract(turn: Turn, gen: nat)
    | GoExtract(turn: Turn, gen: nat)
    | Returning
    | Title(sess: nat)
    | Extract(gen: nat, sess: nat)
    | AddDispatch(m: Send)
    | GoDispatch(m: Send)
    | ExtractExit
    | LifeWait(op: Op)
    | LifeLock(op: Op)
    | LifeBody(op: Op)
    | LifeRelease

  /** How a SEND leaves the queue slot, or the protocol. */
  datatype Fate = Began | RefusedBusy | Overwritten | Aborted | WipedByReset | NoBaseContext | Dispatched

  /** What the record of a run says about a SEND. */
  datatype Event = Called(id: nat) | Enqueued(id: nat) | EnteredLoop(id: nat) | Met(fate: Fate, id: nat)

  /** Who still has a SEND in hand. */
  datatype Holder = ByTask(task: nat) | InSlot | Gone

  /** gen, ledger and holder are bookkeeping that no step reads. */
  datatype Sys = Sys(
    fsm: Fsm, session: nat, wg: int, base: bool, tasks: map<nat, Task>, next: nat,
    gen: nat, ledger: multiset<Event>, holder: map<nat, Holder>)

  /** Session 0 stands for the nil session pointer, session 1 for the implicit "default" one. */
  const INIT := Sys(READY, 0, 0, false, map[], 0, 0, multiset{}, map[])

  datatype Action = CallSend(kind: Kind, text: string) | CallLifecycle(op: Op) | UserAbort | SetBaseContext
                  | Advance(task: nat, extractOn: bool)

  /** What one step of a task does to everything but the map of tasks. */
  datatype Outcome = Outcome(
    fsm: Fsm, session: nat, added: int, self: Option<Task>, spawn: Option<Task>,
    gen: nat, events: multiset<Event>, moves: map<nat, Holder>)

  function Finish(bg: bool): Option<Task> {
    if bg then Some(Returning) else None
  }

  /** The record of whatever message was waiting in the slot meeting the given fate. */
  function Lost(q: Option<Send>, fate: Fate): multiset<Event> {
    if q.Some? then multiset{Met(fate, q.value.id)} else multiset{}
  }

  function Dropped(q: Option<Send>): map<nat, Holder> {
    if q.Some? then map[q.value.id := Gone] else map[]
  }

  function SendOutcome(s: Sys, m: Send, bg: bool): Outcome {
    match EnterSend(s.fsm, m)
    case (f, Queued(displaced)) =>
      Outcome(f, s.session, 0, Finish(bg), None, s.gen,
              multiset{Enqueued(m.id)} + Lost(displaced, Overwritten), Dropped(displaced)[m.id := InSlot])
    case (f, Refused) =>
      Outcome(f, s.session, 0, Finish(bg), None, s.gen, multiset{Met(RefusedBusy, m.id)}, map[m.id := Gone])
    case (f, Started) =>
      var body := match m.kind
        case Plain => Opening(m, bg)
        case Command => RunCommand(bg)
        case ModelSwitch => AwaitSwitch(bg);
      Outcome(f, s.session, 0, Some(body), None, s.gen, multiset{Met(Began, m.id)}, map[m.id := Gone])
  }

  function CleanupOutcome(s: Sys, t: nat): Outcome {
    var f := Clear(s.fsm);
    match s.fsm.queued
    case None => Outcome(f, s.session, 0, Some(ExtractExit), None, s.gen, multiset{}, map[])
    case Some(m) =>
      if s.base then
        Outcome(f, s.session, 0, Some(AddDispatch(m)), None, s.gen, multiset{Met(Dispatched, m.id)}, map[m.id := ByTask(t)])
      else
        Outcome(f, s.session, 0, Some(ExtractExit), None, s.gen, multiset{Met(NoBaseContext, m.id)}, map[m.id := Gone])
  }

  function DispatchOutcome(s: Sys, m: Send): Outcome {
    Outcome(s.fsm, s.session, 0, Some(ExtractExit), Some(SendCall(m, true)), s.gen, multiset{}, map[m.id := ByTask(s.next)])
  }

  function LifecycleOutcome(s: Sys, op: Op): Outcome {
    var (f, ok) := EnterLifecycle(s.fsm, !op.Load?);
    if !ok then Outcome(f, s.session, 0, None, None, s.gen, multiset{}, map[])
    else
      Outcome(f, if op.Load? then op.session else s.session, 0, if op.Load? then None else Some(LifeBody(op)), None,
              s.gen, Lost(s.fsm.queued, WipedByReset), Dropped(s.fsm.queued))
  }

  /** What the remaining steps, which touch no message, do to the fields: the state machine, the
      session pointer and the WaitGroup, the goroutine's own next step and the one it launches. */
  function PlainStep(s: Sys, k: Task, extractOn: bool): (Fsm, nat, int, Option<Task>, Option<Task>) {
    match k
    case RunCommand(bg) => (Release(s.fsm), s.session, 0, Finish(bg), None)
    case Opening(m, bg) =>
      var sess := if s.session == 0 then 1 else s.session;
      (s.fsm, sess, 0, Some(Loop(Turn(m, bg, sess))), None)
    case Loop(turn) =>
      (FinishTurn(s.fsm, extractOn), s.session, 0, Some(AddTitle(turn, if extractOn then Some(s.gen + 1) else None)), None)
    case LifeBody(op) =>
      (s.fsm, if op.Delete? && op.session == s.session then 0 else s.session, 0, Some(LifeRelease), None)
    case LifeRelease => (Release(s.fsm), s.session, 0, None, None)
    case AwaitSwitch(bg) => (s.fsm, s.session, 0, Some(RunCommand(bg)), None)
    case AddTitle(turn, flight) => (s.fsm, s.session, 1, Some(GoTitle(turn, flight)), None)
    case GoTitle(turn, flight) =>
      (s.fsm, s.session, 0, if flight.Some? then Some(AddExtract(turn, flight.value)) else Finish(turn.bg), Some(Title(turn.sess)))
    case AddExtract(turn, gen) => (s.fsm, s.session, 1, Some(GoExtract(turn, gen)), None)
    case GoExtract(turn, gen) => (s.fsm, s.session, 0, Finish(turn.bg), Some(Extract(gen, turn.sess)))
    case AddDispatch(m) => (s.fsm, s.session, 1, Some(GoDispatch(m)), None)
    case LifeWait(op) => (s.fsm, s.session, 0, Some(LifeLock(op)), None)
    case _ => (s.fsm, s.session, -1, None, None)
  }

  function PlainOutcome(s: Sys, k: Task, extractOn: bool): Outcome {
    var (f, session, added, self, spawn) := PlainStep(s, k, extractOn);
    Outcome(f, session, added, self, spawn, if k.Loop? && extractOn then s.gen + 1 else s.gen,
            if k.Opening? then multiset{EnteredLoop(k.m.id)} else multiset{}, map[])
  }

  /** The steps above as one; what falls to the last case of PlainStep is the Done of a goroutine. */
  function Step(s: Sys, t: nat, extractOn: bool): Outcome
    requires t in s.tasks
  {
    match s.tasks[t]
    case SendCall(m, bg) => SendOutcome(s, m, bg)
    case Extract(_, _) => CleanupOutcome(s, t)
    case GoDispatch(m) => DispatchOutcome(s, m)
    case LifeLock(op) => LifecycleOutcome(s, op)
    case k => PlainOutcome(s, k, extractOn)
  }

  function Apply(s: Sys, t: nat, o: Outcome): Sys
    requires t in s.tasks
  {
    var mine := if o.self.Some? then s.tasks[t := o.self.value] else s.tasks - {t};
    Sys(o.fsm, o.session, s.wg + o.added, s.base,
        if o.spawn.Some? then mine[s.next := o.spawn.value] else mine,
        if o.spawn.Some? then s.next + 1 else s.next,
        o.gen, s.ledger + o.events, s.holder + o.moves)
  }

  predicate Enabled(s: Sys, a: Action) {
    a.Advance? ==>
      && a.task in s.tasks
      && (s.tasks[a.task].LifeWait? || s.tasks[a.task].AwaitSwitch? ==> s.wg == 0)
  }

  function Next(s: Sys, a: Action): Sys
    requires Enabled(s, a)
  {
    match a
    case CallSend(kind, text) =>
      s.(tasks := s.tasks[s.next := SendCall(Send(s.next, kind, text), false)], next := s.next + 1,
         ledger := s.ledger + multiset{Called(s.next)}, holder := s.holder[s.next := ByTask(s.next)])
    case CallLifecycle(op) => s.(tasks := s.tasks[s.next := LifeWait(op)], next := s.next + 1)
    case UserAbort =>
      s.(fsm := Clear(s.fsm), ledger := s.ledger + Lost(s.fsm.queued, Aborted), holder := s.holder + Dropped(s.fsm.queued))
    case SetBaseContext => s.(base := true)
    case Advance(t, extractOn) => Apply(s, t, Step(s, t, extractOn))
  }

  /** The actions can be taken one after the other from s. */
  predicate Runs(s: Sys, acts: seq<Action>)
    decreases |acts|
  {
    acts == [] || (Enabled(s, acts[0]) && Runs(Next(s, acts[0]), acts[1..]))
  }

  function After(s: Sys, acts: seq<Action>): Sys
    requires Runs(s, acts)
    decreases |acts|
  {
    if acts == [] then s else After(Next(s, acts[0]), acts[1..])
  }

  ghost predicate Reachable(s: Sys) {
    exists acts :: Runs(INIT, acts) && After(INIT, acts) == s
  }

  // ---------------------------------------------------------------- who owns the agent

  /** The goroutines that took the agent Busy and have not yet released it. */
  predicate Owns(k: Task) {
    k.RunCommand? || k.AwaitSwitch? || k.Opening? || k.Loop? || k.LifeBody? || k.LifeRelease?
  }

  predicate OwnsOpt(k: Option<Task>) {
    k.Some? && Owns(k.value)
  }

  ghost predicate OwnerInv(s: Sys) {
    && Coherent(s.fsm)
    && (forall t :: t in s.tasks ==> t < s.next)
    && (forall t :: t in s.tasks && Owns(s.tasks[t]) ==> s.fsm.state.Busy?)
    && (forall t, u :: t in s.tasks && u in s.tasks && Owns(s.tasks[t]) && Owns(s.tasks[u]) ==> t == u)
    && (s.fsm.state.Busy? ==> exists t :: t in s.tasks && Owns(s.tasks[t]))
    && (forall t :: t in s.tasks && s.tasks[t].Loop? ==> s.tasks[t].turn.sess == s.session && s.session != 0)
  }

  /** A step changes who owns the agent only together with the state field, and moves the session
      pointer only while no other task owns the agent. */
  predicate OwnerLocal(s: Sys, k: Task, o: Outcome) {
    && Coherent(o.fsm)
    && !OwnsOpt(o.spawn)
    && (o.fsm.state == s.fsm.state ==> OwnsOpt(o.self) == Owns(k))
    && (s.fsm.state.Idle? && o.fsm.state.Busy? ==> OwnsOpt(o.self))
    && (s.fsm.state.Busy? && o.fsm.state.Idle? ==> Owns(k) && !OwnsOpt(o.self))
    && (o.session != s.session ==> Owns(k) || s.fsm.state.Idle?)
    && (o.self.Some? && o.self.value.Loop? ==> o.self.value.turn.sess == o.session && o.session != 0)
  }

  lemma OwnerApply(s: Sys, t: nat, o: Outcome)
    requires OwnerInv(s) && t in s.tasks && OwnerLocal(s, s.tasks[t], o)
    ensures OwnerInv(Apply(s, t, o))
  {
    var n := Apply(s, t, o);
    if o.fsm.state.Busy? {
      if OwnsOpt(o.self) {
        assert t in n.tasks && Owns(n.tasks[t]);
      } else {
        var u :| u in s.tasks && Owns(s.tasks[u]);
        assert u in n.tasks && Owns(n.tasks[u]);
      }
    }
  }

  // ---------------------------------------------------------------- the extraction flag

  /** Task k carries the extraction of generation g and has not run its cleanup. */
  predicate InFlight(k: Task, g: nat) {
    match k
    case AddTitle(_, f) => f == Some(g)
    case GoTitle(_, f) => f == Some(g)
    case AddExtract(_, h) => h == g
    case GoExtract(_, h) => h == g
    case Extract(h, _) => h == g
    case _ => false
  }

  predicate InFlightOpt(k: Option<Task>, g: nat) {
    k.Some? && InFlight(k.value, g)
  }

  ghost predicate FlightInv(s: Sys) {
    s.fsm.extracting ==> exists t :: t in s.tasks && InFlight(s.tasks[t], s.gen)
  }

  predicate FlightLocal(s: Sys, k: Task, o: Outcome) {
    o.fsm.extracting ==>
      || InFlightOpt(o.self, o.gen)
      || InFlightOpt(o.spawn, o.gen)
      || (s.fsm.extracting && o.gen == s.gen && !InFlight(k, s.gen))
  }

  lemma FlightApply(s: Sys, t: nat, o: Outcome)
    requires OwnerInv(s) && FlightInv(s) && t in s.tasks && FlightLocal(s, s.tasks[t], o)
    ensures FlightInv(Apply(s, t, o))
  {
    var n := Apply(s, t, o);
    if o.fsm.extracting {
      if InFlightOpt(o.spawn, o.gen) {
        assert s.next in n.tasks && InFlight(n.tasks[s.next], n.gen);
      } else if InFlightOpt(o.self, o.gen) {
        assert t in n.tasks && InFlight(n.tasks[t], n.gen);
      } else {
        var u :| u in s.tasks && InFlight(s.tasks[u], s.gen);
        assert u in n.tasks && InFlight(n.tasks[u], n.gen);
      }
    }
  }

  // ---------------------------------------------------------------- the WaitGroup

  /** The WaitGroup units a task is answerable for: its own pending Done, and the Add it has
      made for a goroutine it is about to launch. */
  function Credit(k: Task): nat {
    match k
    case SendCall(_, bg) => if bg then 1 else 0
    case RunCommand(bg) => if bg then 1 else 0
    case AwaitSwitch(bg) => if bg then 1 else 0
    case Opening(_, bg) => if bg then 1 else 0
    case Loop(turn) => if turn.bg then 1 else 0
    case AddTitle(turn, _) => if turn.bg then 1 else 0
    case GoTitle(turn, _) => if turn.bg then 2 else 1
    case AddExtract(turn, _) => if turn.bg then 1 else 0
    case GoExtract(turn, _) => if turn.bg then 2 else 1
    case GoDispatch(_) => 2
    case Returning => 1
    case Title(_) => 1
    case Extract(_, _) => 1
    case AddDispatch(_) => 1
    case ExtractExit => 1
    case _ => 0
  }

  function Worth(k: Option<Task>, w: Task -> nat): nat {
    if k.Some? then w(k.value) else 0
  }

  predicate CreditLocal(k: Task, o: Outcome) {
    o.added + Credit(k) ==
      (if o.self.Some? then Credit(o.self.value) else 0) + (if o.spawn.Some? then Credit(o.spawn.value) else 0)
  }

  lemma TotalAfterApply(s: Sys, t: nat, o: Outcome, w: Task -> nat)
    requires OwnerInv(s) && t in s.tasks
    ensures Total(Apply(s, t, o).tasks, w) == Total(s.tasks, w) - w(s.tasks[t]) + Worth(o.self, w) + Worth(o.spawn, w)
  {
    if o.self.Some? {
      TotalUpdate(s.tasks, w, t, o.self.value);
    } else {
      TotalSplit(s.tasks, w, t);
    }
    var mine := if o.self.Some? then s.tasks[t := o.self.value] else s.tasks - {t};
    if o.spawn.Some? {
      TotalUpdate(mine, w, s.next, o.spawn.value);
    }
  }

  ghost predicate WgInv(s: Sys) {
    s.wg == Total(s.tasks, Credit)
  }

  // ---------------------------------------------------------------- the fate of every SEND

  /** The message a task has in hand and must still enter, refuse or hand on. */
  function Custody(k: Task): Option<nat> {
    match k
    case SendCall(m, _) => Some(m.id)
    case AddDispatch(m) => Some(m.id)
    case GoDispatch(m) => Some(m.id)
    case _ => None
  }

  function CustodyOpt(k: Option<Task>): Option<nat> {
    if k.Some? then Custody(k.value) else None
  }

  function SlotId(f: Fsm): Option<nat> {
    if f.queued.Some? then Some(f.queued.value.id) else None
  }

  ghost predicate TasksHold(s: Sys) {
    && (forall i :: i in s.holder ==> i < s.next)
    && (forall t :: t in s.tasks && Custody(s.tasks[t]).Some? ==>
          Custody(s.tasks[t]).value in s.holder && s.holder[Custody(s.tasks[t]).value] == ByTask(t))
    && (forall i :: i in s.holder && s.holder[i].ByTask? ==>
          s.holder[i].task in s.tasks && Custody(s.tasks[s.holder[i].task]) == Some(i))
  }

  ghost predicate SlotHolds(s: Sys) {
    && (SlotId(s.fsm).Some? ==> SlotId(s.fsm).value in s.holder && s.holder[SlotId(s.fsm).value] == InSlot)
    && (forall i :: i in s.holder && s.holder[i] == InSlot ==> SlotId(s.fsm) == Some(i))
  }

  /** Every SEND that was called has exactly one holder, and the holder has it. */
  ghost predicate HolderInv(s: Sys) {
    TasksHold(s) && SlotHolds(s)
  }

  /** A step moves only messages that were in hand or in the slot, and records where they went. */
  ghost predicate HolderLocal(s: Sys, t: nat, k: Task, o: Outcome) {
    && (forall i :: i in o.moves ==> Custody(k) == Some(i) || SlotId(s.fsm) == Some(i))
    && (CustodyOpt(o.spawn).Some? ==>
          CustodyOpt(o.spawn).value in o.moves && o.moves[CustodyOpt(o.spawn).value] == ByTask(s.next))
    && (CustodyOpt(o.self).Some? ==>
          if CustodyOpt(o.self).value in o.moves then o.moves[CustodyOpt(o.self).value] == ByTask(t)
          else Custody(k) == CustodyOpt(o.self))
    && (Custody(k).Some? && Custody(k).value !in o.moves ==> CustodyOpt(o.self) == Custody(k))
    && (forall i :: i in o.moves && o.moves[i].ByTask? ==>
          || (o.moves[i].task == t && CustodyOpt(o.self) == Some(i))
          || (o.moves[i].task == s.next && CustodyOpt(o.spawn) == Some(i)))
    && (SlotId(o.fsm).Some? ==>
          if SlotId(o.fsm).value in o.moves then o.moves[SlotId(o.fsm).value] == InSlot
          else SlotId(o.fsm) == SlotId(s.fsm))
    && (SlotId(s.fsm).Some? && SlotId(s.fsm).value !in o.moves ==> SlotId(o.fsm) == SlotId(s.fsm))
    && (forall i :: i in o.moves && o.moves[i] == InSlot ==> SlotId(o.fsm) == Some(i))
  }

  lemma TaskIsHeld(s: Sys, t: nat, o: Outcome, u: nat)
    requires OwnerInv(s) && HolderInv(s) && t in s.tasks && HolderLocal(s, t, s.tasks[t], o)
    requires u in Apply(s, t, o).tasks && Custody(Apply(s, t, o).tasks[u]).Some?
    ensures var n := Apply(s, t, o);
            Custody(n.tasks[u]).value in n.holder && n.holder[Custody(n.tasks[u]).value] == ByTask(u)
  {
    var n := Apply(s, t, o);
    if u != t && !(u == s.next && o.spawn.Some?) {
      assert u in s.tasks && s.tasks[u] == n.tasks[u];
      assert Custody(n.tasks[u]).value !in o.moves;
    }
  }

  lemma HolderIsTask(s: Sys, t: nat, o: Outcome, i: nat)
    requires OwnerInv(s) && HolderInv(s) && t in s.tasks && HolderLocal(s, t, s.tasks[t], o)
    requires i in Apply(s, t, o).holder && Apply(s, t, o).holder[i].ByTask?
    ensures var n := Apply(s, t, o);
            n.holder[i].task in n.tasks && Custody(n.tasks[n.holder[i].task]) == Some(i)
  {
  }

  lemma TasksHoldApply(s: Sys, t: nat, o: Outcome)
    requires OwnerInv(s) && HolderInv(s) && t in s.tasks && HolderLocal(s, t, s.tasks[t], o)
    ensures TasksHold(Apply(s, t, o))
  {
    var n := Apply(s, t, o);
    forall u | u in n.tasks && Custody(n.tasks[u]).Some?
      ensures Custody(n.tasks[u]).value in n.holder && n.holder[Custody(n.tasks[u]).value] == ByTask(u)
    {
      TaskIsHeld(s, t, o, u);
    }
    forall i | i in n.holder && n.holder[i].ByTask?
      ensures n.holder[i].task in n.tasks && Custody(n.tasks[n.holder[i].task]) == Some(i)
    {
      HolderIsTask(s, t, o, i);
    }
  }

  lemma SlotHoldsApply(s: Sys, t: nat, o: Outcome)
    requires OwnerInv(s) && HolderInv(s) && t in s.tasks && HolderLocal(s, t, s.tasks[t], o)
    ensures SlotHolds(Apply(s, t, o))
  {
  }

  /** The ways a SEND leaves the protocol for good. */
  function Ended(l: multiset<Event>, i: nat): nat {
    l[Met(Began, i)] + l[Met(RefusedBusy, i)] + l[Met(Overwritten, i)] + l[Met(Aborted, i)]
    + l[Met(WipedByReset, i)] + l[Met(NoBaseContext, i)]
  }

  /** The ways a stay in the queue slot can end. */
  function LeftSlot(l: multiset<Event>, i: nat): nat {
    l[Met(Overwritten, i)] + l[Met(Aborted, i)] + l[Met(WipedByReset, i)] + l[Met(NoBaseContext, i)]
    + l[Met(Dispatched, i)]
  }

  function One(b: bool): nat {
    if b then 1 else 0
  }

  ghost predicate LedgerOf(s: Sys, i: nat) {
    && Ended(s.ledger, i) == One(i in s.holder && s.holder[i] == Gone)
    && s.ledger[Enqueued(i)] == LeftSlot(s.ledger, i) + One(SlotId(s.fsm) == Some(i))
    && s.ledger[Called(i)] == One(i in s.holder)
    && (i !in s.holder ==> s.ledger[Enqueued(i)] == 0)
  }

  ghost predicate LedgerInv(s: Sys) {
    forall i: nat :: LedgerOf(s, i)
  }

  ghost predicate LedgerLocal(s: Sys, o: Outcome, i: nat) {
    && Ended(o.events, i) == One(i in o.moves && o.moves[i] == Gone)
    && o.events[Enqueued(i)] + One(SlotId(s.fsm) == Some(i)) == LeftSlot(o.events, i) + One(SlotId(o.fsm) == Some(i))
    && o.events[Called(i)] == 0
    && (i !in o.moves ==> o.events[Enqueued(i)] == 0)
  }

  // ---------------------------------------------------------------- one step of one goroutine

  ghost predicate Local(s: Sys, t: nat, k: Task, o: Outcome) {
    && OwnerLocal(s, k, o)
    && FlightLocal(s, k, o)
    && CreditLocal(k, o)
    && HolderLocal(s, t, k, o)
    && (forall i: nat :: LedgerLocal(s, o, i))
  }

  lemma PlainFields(s: Sys, t: nat, k: Task, on: bool)
    requires Coherent(s.fsm) && (Owns(k) ==> s.fsm.state.Busy?)
    requires !k.SendCall? && !k.Extract? && !k.GoDispatch? && !k.LifeLock?
    ensures OwnerLocal(s, k, PlainOutcome(s, k, on)) && FlightLocal(s, k, PlainOutcome(s, k, on))
  {
  }

  lemma PlainLocal(s: Sys, t: nat, k: Task, on: bool)
    requires Coherent(s.fsm) && (Owns(k) ==> s.fsm.state.Busy?)
    requires !k.SendCall? && !k.Extract? && !k.GoDispatch? && !k.LifeLock?
    ensures Local(s, t, k, PlainOutcome(s, k, on))
  {
    PlainFields(s, t, k, on);
  }

  lemma SendFields(s: Sys, t: nat, m: Send, bg: bool)
    requires Coherent(s.fsm)
    ensures var k, o := SendCall(m, bg), SendOutcome(s, m, bg);
            OwnerLocal(s, k, o) && FlightLocal(s, k, o) && CreditLocal(k, o)
  {
  }

  lemma QueuedLedger(s: Sys, m: Send, bg: bool, i: nat)
    requires SlotId(s.fsm) != Some(m.id) && EnterSend(s.fsm, m).1.Queued?
    ensures LedgerLocal(s, SendOutcome(s, m, bg), i)
  {
  }

  lemma EnteredLedger(s: Sys, m: Send, bg: bool, i: nat)
    requires SlotId(s.fsm) != Some(m.id) && !EnterSend(s.fsm, m).1.Queued?
    ensures LedgerLocal(s, SendOutcome(s, m, bg), i)
  {
  }

  lemma SendLedger(s: Sys, m: Send, bg: bool, i: nat)
    requires SlotId(s.fsm) != Some(m.id)
    ensures LedgerLocal(s, SendOutcome(s, m, bg), i)
  {
    if EnterSend(s.fsm, m).1.Queued? {
      QueuedLedger(s, m, bg, i);
    } else {
      EnteredLedger(s, m, bg, i);
    }
  }

  lemma SendLocal(s: Sys, t: nat, m: Send, bg: bool)
    requires Coherent(s.fsm) && SlotId(s.fsm) != Some(m.id)
    ensures Local(s, t, SendCall(m, bg), SendOutcome(s, m, bg))
  {
    SendFields(s, t, m, bg);
    forall i: nat { SendLedger(s, m, bg, i); }
    assert HolderLocal(s, t, SendCall(m, bg), SendOutcome(s, m, bg));
  }

  lemma CleanupLocal(s: Sys, t: nat, gen: nat, sess: nat)
    requires Coherent(s.fsm)
    ensures Local(s, t, Extract(gen, sess), CleanupOutcome(s, t))
  {
  }

  lemma DispatchLocal(s: Sys, t: nat, m: Send)
    requires Coherent(s.fsm) && SlotId(s.fsm) != Some(m.id)
    ensures Local(s, t, GoDispatch(m), DispatchOutcome(s, m))
  {
  }

  lemma LifecycleLocal(s: Sys, t: nat, op: Op)
    requires Coherent(s.fsm)
    ensures Local(s, t, LifeLock(op), LifecycleOutcome(s, op))
  {
  }

  lemma StepLocal(s: Sys, t: nat, on: bool)
    requires OwnerInv(s) && HolderInv(s) && t in s.tasks
    ensures Local(s, t, s.tasks[t], Step(s, t, on))
  {
    var k := s.tasks[t];
    assert Custody(k).Some? ==> SlotId(s.fsm) != Custody(k);
    match k
    case SendCall(m, bg) => SendLocal(s, t, m, bg);
    case Extract(gen, sess) => CleanupLocal(s, t, gen, sess);
    case GoDispatch(m) => DispatchLocal(s, t, m);
    case LifeLock(op) => LifecycleLocal(s, t, op);
    case _ => PlainLocal(s, t, k, on);
  }

  lemma OwnerNext(s: Sys, a: Action)
    requires OwnerInv(s) && HolderInv(s) && Enabled(s, a)
    ensures OwnerInv(Next(s, a))
  {
    if a.Advance? {
      StepLocal(s, a.task, a.extractOn);
      OwnerApply(s, a.task, Step(s, a.task, a.extractOn));
    } else {
      var n := Next(s, a);
      if s.fsm.state.Busy? {
        var u :| u in s.tasks && Owns(s.tasks[u]);
        assert u in n.tasks && Owns(n.tasks[u]);
      }
    }
  }

  lemma FlightNext(s: Sys, a: Action)
    requires OwnerInv(s) && HolderInv(s) && FlightInv(s) && Enabled(s, a)
    ensures FlightInv(Next(s, a))
  {
    if a.Advance? {
      StepLocal(s, a.task, a.extractOn);
      FlightApply(s, a.task, Step(s, a.task, a.extractOn));
    } else if s.fsm.extracting {
      var u :| u in s.tasks && InFlight(s.tasks[u], s.gen);
      assert u in Next(s, a).tasks && InFlight(Next(s, a).tasks[u], s.gen);
    }
  }

  lemma WgNext(s: Sys, a: Action)
    requires OwnerInv(s) && HolderInv(s) && WgInv(s) && Enabled(s, a)
    ensures WgInv(Next(s, a))
  {
    match a
    case Advance(t, on) =>
      StepLocal(s, t, on);
      TotalAfterApply(s, t, Step(s, t, on), Credit);
    case CallSend(kind, text) => TotalUpdate(s.tasks, Credit, s.next, SendCall(Send(s.next, kind, text), false));
    case CallLifecycle(op) => TotalUpdate(s.tasks, Credit, s.next, LifeWait(op));
    case _ =>
  }

  lemma HolderCall(s: Sys, kind: Kind, text: string)
    requires OwnerInv(s) && HolderInv(s)
    ensures HolderInv(Next(s, CallSend(kind, text)))
  {
    assert s.next !in s.holder && s.next !in s.tasks;
  }

  lemma HolderAbort(s: Sys)
    requires OwnerInv(s) && HolderInv(s)
    ensures HolderInv(Next(s, UserAbort))
  {
  }

  lemma HolderOther(s: Sys, a: Action)
    requires OwnerInv(s) && HolderInv(s) && !a.Advance?
    ensures HolderInv(Next(s, a))
  {
    if a.CallSend? {
      HolderCall(s, a.kind, a.text);
    } else if a.UserAbort? {
      HolderAbort(s);
    }
  }

  lemma HolderAdvance(s: Sys, t: nat, o: Outcome)
    requires OwnerInv(s) && HolderInv(s) && t in s.tasks && HolderLocal(s, t, s.tasks[t], o)
    ensures HolderInv(Apply(s, t, o))
  {
    TasksHoldApply(s, t, o);
    SlotHoldsApply(s, t, o);
  }

  lemma HolderNext(s: Sys, a: Action)
    requires OwnerInv(s) && HolderInv(s) && Enabled(s, a)
    ensures HolderInv(Next(s, a))
  {
    if a.Advance? {
      StepLocal(s, a.task, a.extractOn);
      HolderAdvance(s, a.task, Step(s, a.task, a.extractOn));
    } else {
      HolderOther(s, a);
    }
  }

  lemma LedgerApply(s: Sys, t: nat, o: Outcome, i: nat)
    requires HolderInv(s) && t in s.tasks && LedgerOf(s, i) && LedgerLocal(s, o, i) && HolderLocal(s, t, s.tasks[t], o)
    ensures LedgerOf(Apply(s, t, o), i)
  {
    assert i in o.moves ==> i in s.holder && s.holder[i] != Gone;
  }

  lemma LedgerAdvance(s: Sys, t: nat, on: bool, i: nat)
    requires OwnerInv(s) && HolderInv(s) && LedgerOf(s, i) && t in s.tasks
    ensures LedgerOf(Apply(s, t, Step(s, t, on)), i)
  {
    StepLocal(s, t, on);
    assert LedgerLocal(s, Step(s, t, on), i);
    LedgerApply(s, t, Step(s, t, on), i);
  }

  lemma LedgerCall(s: Sys, kind: Kind, text: string, i: nat)
    requires HolderInv(s) && LedgerOf(s, i)
    ensures LedgerOf(Next(s, CallSend(kind, text)), i)
  {
    assert s.next !in s.holder;
  }

  lemma LedgerAbort(s: Sys, i: nat)
    requires HolderInv(s) && LedgerOf(s, i)
    ensures LedgerOf(Next(s, UserAbort), i)
  {
  }

  lemma LedgerOther(s: Sys, a: Action, i: nat)
    requires HolderInv(s) && LedgerOf(s, i) && !a.Advance?
    ensures LedgerOf(Next(s, a), i)
  {
    if a.CallSend? {
      LedgerCall(s, a.kind, a.text, i);
    } else if a.UserAbort? {
      LedgerAbort(s, i);
    }
  }

  lemma LedgerNext(s: Sys, a: Action)
    requires OwnerInv(s) && HolderInv(s) && LedgerInv(s) && Enabled(s, a)
    ensures LedgerInv(Next(s, a))
  {
    forall i: nat ensures LedgerOf(Next(s, a), i) {
      assert LedgerOf(s, i);
      if a.Advance? {
        LedgerAdvance(s, a.task, a.extractOn, i);
      } else {
        LedgerOther(s, a, i);
      }
    }
  }
}
