/** The deferred-extraction state machine of the agent: three fields guarded by one mutex.
    Each function below is what one critical section does to those fields; class Agent holds
    the fields and performs the sections in place. */
module AgentFsm {
  import opened Options

  datatype RunState = Idle | Busy

  /** What a message makes SendWithAttachments do once it holds the agent: an ordinary turn,
      a slash command, or the slash command that switches backend (it drains the WaitGroup). */
  datatype Kind = Plain | Command | ModelSwitch

  /** One call of SEND; the id tells two sends of the same text apart. */
  datatype Send = Send(id: nat, kind: Kind, text: string)

  datatype Fsm = Fsm(state: RunState, extracting: bool, queued: Option<Send>)

  const READY := Fsm(Idle, false, None)

  /** The four rows of the phase table: no other combination of the fields is legal. */
  predicate Coherent(f: Fsm) {
    && (f.state.Busy? ==> !f.extracting && f.queued.None?)
    && (f.queued.Some? ==> f.extracting)
  }

  datatype EnterResult = Queued(displaced: Option<Send>) | Refused | Started

  function EnterSend(f: Fsm, m: Send): (Fsm, EnterResult) {
    if f.state.Idle? && f.extracting then (f.(queued := Some(m)), Queued(f.queued))
    else if f.state.Busy? then (f, Refused)
    else (f.(state := Busy), Started)
  }

  function Release(f: Fsm): Fsm {
    f.(state := Idle)
  }

  function FinishTurn(f: Fsm, extractOn: bool): Fsm {
    f.(state := Idle, extracting := extractOn)
  }

  function Clear(f: Fsm): Fsm {
    f.(extracting := false, queued := None)
  }

  function Reset(f: Fsm): Fsm {
    Fsm(Idle, false, None)
  }

  /** LoadSession takes the agent only inside its section; the other operations keep it Busy. */
  function EnterLifecycle(f: Fsm, keepBusy: bool): (Fsm, bool) {
    if f.state.Busy? then (f, false)
    else (if keepBusy then Reset(f).(state := Busy) else Reset(f), true)
  }

  datatype Phase = PhaseReady | PhaseBusy | PhaseExtracting | PhaseQueued
  datatype AgentSnapshot = AgentSnapshot(phase: Phase, queuedMessage: string)

  function PhaseOf(f: Fsm): Phase {
    if f.state.Busy? then PhaseBusy
    else if f.extracting && f.queued.Some? then PhaseQueued
    else if f.extracting then PhaseExtracting
    else PhaseReady
  }

  function SnapshotOf(f: Fsm): AgentSnapshot {
    AgentSnapshot(PhaseOf(f), if f.queued.Some? then f.queued.value.text else "")
  }

  class Agent {
    var state: RunState
    var extractionInFlight: bool
    var queuedSend: Option<Send>

    function View(): Fsm
      reads this
    {
      Fsm(state, extractionInFlight, queuedSend)
    }

    function Phase(): Phase
      reads this
    {
      PhaseOf(View())
    }

    constructor ()
      ensures View() == READY
    {
      state, extractionInFlight, queuedSend := Idle, false, None;
    }

    /** The section at the head of SendWithAttachments. */
    method EnterSendSection(m: Send) returns (r: EnterResult)
      modifies this
      ensures (View(), r) == EnterSend(old(View()), m)
      ensures old(Coherent(View())) ==>
                && Coherent(View())
                && (r.Started? <==> old(Phase()) == PhaseReady) && (r.Refused? <==> old(Phase()) == PhaseBusy)
                && (r.Started? || r.Refused? ==> Phase() == PhaseBusy)
                && (r.Queued? ==> SnapshotOf(View()) == AgentSnapshot(PhaseQueued, m.text))
                && (r.Queued? ==> (r.displaced.Some? <==> old(Phase()) == PhaseQueued))
    {
      if state == Idle && extractionInFlight {
        r := Queued(queuedSend);
        queuedSend := Some(m);
        return;
      }
      if state != Idle {
        return Refused;
      }
      state := Busy;
      r := Started;
    }

    /** The section that ends a slash command, an export, an import or a delete. */
    method ReleaseSection()
      modifies this
      ensures View() == Release(old(View()))
    {
      state := Idle;
    }

    /** The first section of postResponseTasks. */
    method FinishTurnSection(extractOn: bool)
      modifies this
      ensures View() == FinishTurn(old(View()), extractOn)
      ensures old(Coherent(View())) && old(Phase()) == PhaseBusy ==>
                Coherent(View()) && Phase() == if extractOn then PhaseExtracting else PhaseReady
    {
      extractionInFlight := extractOn;
      state := Idle;
    }

    method Abort() returns (dropped: Option<Send>)
      modifies this
      ensures View() == Clear(old(View())) && dropped == old(queuedSend)
      ensures Coherent(View()) && Phase() == if old(Phase()) == PhaseBusy then PhaseBusy else PhaseReady
      ensures old(Coherent(View())) ==> (dropped.Some? <==> old(Phase()) == PhaseQueued)
    {
      dropped := queuedSend;
      queuedSend := None;
      extractionInFlight := false;
    }

    /** The cleanup section deferred by the extraction goroutine. */
    method ExtractionCleanup() returns (queued: Option<Send>)
      modifies this
      ensures View() == Clear(old(View())) && queued == old(queuedSend)
      ensures Coherent(View()) && Phase() == if old(Phase()) == PhaseBusy then PhaseBusy else PhaseReady
      ensures old(Coherent(View())) ==> (queued.Some? <==> old(Phase()) == PhaseQueued)
    {
      extractionInFlight := false;
      queued := queuedSend;
      queuedSend := None;
    }

    method ResetStateMachine()
      modifies this
      ensures View() == Reset(old(View()))
    {
      extractionInFlight := false;
      queuedSend := None;
      state := Idle;
    }

    /** The entry section shared by LoadSession, ExportSession, ImportSession, DeleteSession. */
    method EnterLifecycleSection(keepBusy: bool) returns (ok: bool)
      modifies this
      ensures (View(), ok) == EnterLifecycle(old(View()), keepBusy)
      ensures ok <==> old(Phase()) != PhaseBusy
      ensures ok ==> Coherent(View()) && Phase() == if keepBusy then PhaseBusy else PhaseReady
    {
      if state != Idle {
        return false;
      }
      ResetStateMachine();
      if keepBusy {
        state := Busy;
      }
      ok := true;
    }

    method Snapshot() returns (s: AgentSnapshot)
      ensures s == SnapshotOf(View())
      ensures Coherent(View()) ==> (s.phase.PhaseQueued? <==> queuedSend.Some?)
    {
      var phase;
      if state == Busy {
        phase := PhaseBusy;
      } else if extractionInFlight && queuedSend.Some? {
        phase := PhaseQueued;
      } else if extractionInFlight {
        phase := PhaseExtracting;
      } else {
        phase := PhaseReady;
      }
      var message := "";
      if queuedSend.Some? {
        message := queuedSend.value.text;
      }
      s := AgentSnapshot(phase, message);
    }
  }
}
