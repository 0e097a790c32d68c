/** Routing a click in the approval dialog to the request it was meant for. */
module Approval {
  import opened Options

  /** A request owns a channel of capacity one. It waits, has received the response of a click, or has also cleared the
      slot and returned that response. */
  datatype Phase = Waiting | Received(click: nat) | Returned(click: nat)
  datatype Request = Request(channel: Option<nat>, phase: Phase)

  /** A click has not looked yet, has read the slot, has put its response into a channel, or has given up. */
  datatype Stage = Fresh | Saw(slot: Option<nat>) | Sent(request: nat) | Dropped
  datatype Click = Click(approved: bool, stage: Stage)

  datatype State = State(requests: seq<Request>, slot: Option<nat>, clicks: seq<Click>)

  /** One critical section or channel operation of the handler or of a resolver. */
  datatype Action =
    | OpenRequest
    | Receive
    | ClearSlot
    | NewClick(approved: bool)
    | Look(c: nat)
    | Send(c: nat)

  function Initial(): State {
    State([], None, [])
  }

  function Current(s: State): nat
    requires s.requests != []
  {
    |s.requests| - 1
  }

  /** The agent asks for one approval at a time, so a request opens only after the one before it returned. */
  predicate Enabled(s: State, a: Action) {
    match a
    case OpenRequest => s.requests == [] || s.requests[Current(s)].phase.Returned?
    case Receive => s.requests != [] && s.requests[Current(s)].phase.Waiting? && s.requests[Current(s)].channel.Some?
    case ClearSlot => s.requests != [] && s.requests[Current(s)].phase.Received?
    case NewClick(_) => true
    case Look(c) => c < |s.clicks| && s.clicks[c].stage.Fresh?
    case Send(c) => c < |s.clicks| && s.clicks[c].stage.Saw?
  }

  function WithRequest(s: State, k: nat, r: Request): State
    requires k < |s.requests|
  {
    s.(requests := s.requests[k := r])
  }

  function WithStage(s: State, c: nat, stage: Stage): State
    requires c < |s.clicks|
  {
    s.(clicks := s.clicks[c := s.clicks[c].(stage := stage)])
  }

  function Next(s: State, a: Action): State
    requires Enabled(s, a)
  {
    match a
    case OpenRequest =>
      s.(requests := s.requests + [Request(None, Waiting)], slot := Some(|s.requests|))
    case Receive =>
      var r := s.requests[Current(s)];
      WithRequest(s, Current(s), Request(None, Received(r.channel.value)))
    case ClearSlot =>
      var r := s.requests[Current(s)];
      WithRequest(s, Current(s), r.(phase := Returned(r.phase.click))).(slot := None)
    case NewClick(approved) => s.(clicks := s.clicks + [Click(approved, Fresh)])
    case Look(c) => WithStage(s, c, Saw(s.slot))
    case Send(c) =>
      var slot := s.clicks[c].stage.slot;
      if slot.None? || slot.value >= |s.requests| || s.requests[slot.value].channel.Some? then WithStage(s, c, Dropped)
      else
        var k := slot.value;
        WithStage(WithRequest(s, k, s.requests[k].(channel := Some(c))), c, Sent(k))
  }

  function Run(steps: seq<Action>): Option<State> {
    if steps == [] then Some(Initial())
    else match Run(steps[..|steps| - 1])
      case None => None
      case Some(s) => if Enabled(s, steps[|steps| - 1]) then Some(Next(s, steps[|steps| - 1])) else None
  }

  // ---- invariants ----

  predicate SentTo(s: State, c: nat, k: nat) {
    c < |s.clicks| && s.clicks[c].stage == Sent(k)
  }

  /** What sits in request k's channel or was received from it came from a click that read the slot while it held k. */
  predicate Routed(s: State, k: nat)
    requires k < |s.requests|
  {
    var r := s.requests[k];
    && (r.channel.Some? ==> SentTo(s, r.channel.value, k))
    && (!r.phase.Waiting? ==> SentTo(s, r.phase.click, k))
    && (r.channel.Some? && !r.phase.Waiting? ==> r.channel.value != r.phase.click)
  }

  predicate Inv(s: State) {
    && (forall k :: 0 <= k < |s.requests| ==> Routed(s, k))
    && (forall k :: 0 <= k < |s.requests| - 1 ==> s.requests[k].phase.Returned?)
    && (match s.slot
        case Some(k) => k + 1 == |s.requests| && !s.requests[k].phase.Returned?
        case None => s.requests == [] || s.requests[Current(s)].phase.Returned?)
    && (forall c :: 0 <= c < |s.clicks| && s.clicks[c].stage.Saw? && s.clicks[c].stage.slot.Some? ==>
          s.clicks[c].stage.slot.value < |s.requests|)
  }

  lemma SendKeepsInv(s: State, c: nat)
    requires Inv(s) && Enabled(s, Send(c))
    ensures Inv(Next(s, Send(c)))
  {
    var t := Next(s, Send(c));
    forall k | 0 <= k < |t.requests| ensures Routed(t, k) {
      assert Routed(s, k);
    }
  }

  lemma NextKeepsInv(s: State, a: Action)
    requires Inv(s) && Enabled(s, a)
    ensures Inv(Next(s, a))
  {
    if a.Send? {
      SendKeepsInv(s, a.c);
    } else {
      var t := Next(s, a);
      forall k | 0 <= k < |t.requests| ensures Routed(t, k) {
        if k < |s.requests| {
          assert Routed(s, k);
        }
      }
    }
  }

  lemma {:induction false} RunKeepsInv(steps: seq<Action>)
    requires Run(steps).Some?
    ensures Inv(Run(steps).value)
  {
    if steps != [] {
      var before := steps[..|steps| - 1];
      RunKeepsInv(before);
      NextKeepsInv(Run(before).value, steps[|steps| - 1]);
    }
  }

  /** In every interleaving, the response a request returns was sent by a click that had read this request's slot, and no
      click's response reaches two requests. */
  lemma ResponsesReachTheirRequest(steps: seq<Action>, j: nat, k: nat)
    requires Run(steps).Some?
    requires var s := Run(steps).value;
             j < |s.requests| && k < |s.requests| && !s.requests[j].phase.Waiting? && !s.requests[k].phase.Waiting?
    ensures var s := Run(steps).value;
            && SentTo(s, s.requests[j].phase.click, j)
            && (s.requests[j].phase.click == s.requests[k].phase.click ==> j == k)
  {
    RunKeepsInv(steps);
    assert Routed(Run(steps).value, j) && Routed(Run(steps).value, k);
  }

  /** A click only ever sends into the channel of the request whose slot it read; a click that found no request, or one
      already answered, changes no request at all. */
  lemma StrayClicksChangeNothing(s: State, c: nat)
    requires Inv(s) && Enabled(s, Send(c))
    ensures var t := Next(s, Send(c));
            var slot := s.clicks[c].stage.slot;
            && (forall k :: 0 <= k < |s.requests| && slot != Some(k) ==> t.requests[k] == s.requests[k])
            && t.slot == s.slot
            && (t.clicks[c].stage == Dropped <==> slot.None? || s.requests[slot.value].channel.Some?)
            && (t.clicks[c].stage != Dropped ==> t.clicks[c].stage == Sent(slot.value))
            && (slot.Some? && !s.requests[slot.value].phase.Waiting? ==> t.requests[slot.value].phase == s.requests[slot.value].phase)
  {
  }

  /** Once received, a request's response never changes. */
  lemma ResponseIsFinal(s: State, a: Action, k: nat)
    requires Enabled(s, a) && Inv(s) && k < |s.requests| && !s.requests[k].phase.Waiting?
    ensures var t := Next(s, a);
            k < |t.requests| && !t.requests[k].phase.Waiting? && t.requests[k].phase.click == s.requests[k].phase.click
  {
  }

  /** No click waits: from every state it has two steps of its own and then is done. */
  lemma ClicksNeverBlock(s: State, c: nat)
    requires c < |s.clicks|
    ensures s.clicks[c].stage.Fresh? ==> Enabled(s, Look(c)) && Enabled(Next(s, Look(c)), Send(c))
    ensures s.clicks[c].stage.Saw? ==> Enabled(s, Send(c)) && !Next(s, Send(c)).clicks[c].stage.Saw?
  {
  }

  /** A click that looks and sends while a request is waiting unanswered is the one it returns: the request then needs
      only its own two steps. */
  lemma PromptClickAnswers(s: State, c: nat)
    requires Inv(s) && c < |s.clicks| && s.clicks[c].stage.Fresh? && s.slot.Some?
    requires s.requests[s.slot.value].phase.Waiting? && s.requests[s.slot.value].channel.None?
    ensures var k := s.slot.value;
            var sent := Next(Next(s, Look(c)), Send(c));
            && Enabled(sent, Receive) && Enabled(Next(sent, Receive), ClearSlot)
            && var done := Next(Next(sent, Receive), ClearSlot);
               done.requests[k].phase == Returned(c) && done.slot == None && Enabled(done, OpenRequest)
  {
  }

  // ---- the binding ----

  /** The slot and the channels as the bindings hold them; a response is known by its click. Each method is one step of
      the transition system. */
  class Bindings {
    var slot: Option<nat>
    var channels: seq<Option<nat>>

    constructor ()
      ensures Shows(Initial())
    {
      slot, channels := None, [];
    }

    ghost predicate Shows(s: State)
      reads this
    {
      && slot == s.slot && |channels| == |s.requests|
      && forall k :: 0 <= k < |channels| ==> channels[k] == s.requests[k].channel
    }

    method Publish(ghost s: State)
      requires Shows(s) && Enabled(s, OpenRequest)
      modifies this
      ensures Shows(Next(s, OpenRequest))
    {
      slot := Some(|channels|);
      channels := channels + [None];
    }

    method TakeResponse(ghost s: State) returns (click: nat)
      requires Shows(s) && Enabled(s, Receive)
      modifies this
      ensures Shows(Next(s, Receive)) && Next(s, Receive).requests[Current(s)].phase == Received(click)
    {
      var k := |channels| - 1;
      click := channels[k].value;
      channels := channels[k := None];
    }

    method ClearRequest(ghost s: State)
      requires Shows(s) && Enabled(s, ClearSlot)
      modifies this
      ensures Shows(Next(s, ClearSlot))
    {
      slot := None;
    }

    method ReadSlot(c: nat, ghost s: State) returns (seen: Option<nat>)
      requires Shows(s) && Enabled(s, Look(c))
      ensures Shows(Next(s, Look(c))) && Next(s, Look(c)).clicks[c].stage == Saw(seen)
    {
      seen := slot;
    }

    /** The send that gives up instead of waiting. */
    method TrySend(c: nat, seen: Option<nat>, ghost s: State)
      requires Shows(s) && Inv(s) && Enabled(s, Send(c)) && s.clicks[c].stage == Saw(seen)
      modifies this
      ensures Shows(Next(s, Send(c)))
    {
      if seen.None? {
        return;
      }
      if channels[seen.value].None? {
        channels := channels[seen.value := Some(c)];
      }
    }
  }
}
