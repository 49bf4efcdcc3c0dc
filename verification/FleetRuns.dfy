/** Whole runs of the fleet, from an empty master on. */
module FleetRuns {
  import opened Protocol
  import opened BrokerModel
  import BrokerSafety
  import BrokerRuns
  import opened EscalationQueue
  import opened MasterModel
  import MasterSafety
  import opened FleetModel
  import opened FleetSafety
  import opened Capacity
  import opened Subsequences

  predicate StepAt(fleets: seq<Fleet>, actions: seq<Action>, i: nat)
    requires i < |actions| < |fleets|
  {
    Possible(fleets[i], actions[i]) && fleets[i + 1] == After(fleets[i], actions[i])
  }

  ghost predicate Run(fleets: seq<Fleet>, actions: seq<Action>) {
    && |fleets| == |actions| + 1
    && fleets[0] == Empty()
    && forall i | 0 <= i < |actions| :: StepAt(fleets, actions, i)
  }

  lemma {:induction false} RunKeeps(fleets: seq<Fleet>, actions: seq<Action>, i: nat)
    requires Run(fleets, actions) && i < |fleets|
    ensures Inv(fleets[i])
  {
    if i > 0 {
      assert StepAt(fleets, actions, i - 1);
      RunKeeps(fleets, actions, i - 1);
      ActionKeeps(fleets[i - 1], actions[i - 1]);
    }
  }

  /** Throughout a run the surfaced escalation is the head of the queue, and what
      one master process announced is a repeat-free subsequence of what it
      accepted. */
  lemma SurfacedThroughout(fleets: seq<Fleet>, actions: seq<Action>, i: nat)
    requires Run(fleets, actions) && i < |fleets|
    ensures fleets[i].master.surfaced == Head(fleets[i].master.queue)
    ensures Subsequence(fleets[i].master.announced, fleets[i].master.accepted)
    ensures NoRepeats(fleets[i].master.announced)
  {
    RunKeeps(fleets, actions, i);
    MasterSafety.AnnouncedInOrderOnce(fleets[i].master);
  }

  // ----- the marker of the decision in flight

  /** The acknowledgement of a dispatch arrives after its escalation left the
      head of the queue. */
  predicate Overtaken(f: Fleet, action: Action) {
    action.DispatchAck? && f.master.sending != Head(f.master.queue)
  }

  lemma HandleMarker(f: Fleet, s: SessionId, ok: bool)
    requires Inv(f) && MasterSafety.MarkerFits(f.master) && Possible(f, Handle(s, ok))
    ensures MasterSafety.MarkerFits(HandleStep(f, s, ok).master)
  {
    var n := f.nodes[s];
    assert NodeInv(f, n);
    MasterSafety.OnRequestKeeps(f.master, s, Outstanding(n.broker.pc).value);
  }

  /** An action leaves a fitting marker fitting unless it is an acknowledgement
      that was overtaken. */
  lemma MarkerFitsUnlessOvertaken(f: Fleet, action: Action)
    requires Inv(f) && MasterSafety.MarkerFits(f.master) && Possible(f, action)
    ensures MasterSafety.MarkerFits(After(f, action).master) <==> !Overtaken(f, action)
  {
    match action
    case Handle(s, ok) => HandleMarker(f, s, ok);
    case DispatchAck => MasterSafety.DispatchKeeps(f.master, 0);
    case Attach(s, _, _, _) => MasterSafety.RetractStrandedKeeps(f.master, s);
    case RestartMaster(finished) => MasterSafety.RestartEstablishes(f.master, finished);
    case _ =>
  }

  ghost predicate NoneOvertaken(fleets: seq<Fleet>, actions: seq<Action>, j: nat)
    requires j <= |actions| <= |fleets|
  {
    forall i | 0 <= i < j :: !Overtaken(fleets[i], actions[i])
  }

  /** As long as no acknowledgement was overtaken, the decision in flight answers
      the head, or there is none. */
  lemma {:induction false} MarkerFitsThroughout(fleets: seq<Fleet>, actions: seq<Action>, j: nat)
    requires Run(fleets, actions) && j <= |actions| && NoneOvertaken(fleets, actions, j)
    ensures MasterSafety.MarkerFits(fleets[j].master)
  {
    if j > 0 {
      assert StepAt(fleets, actions, j - 1);
      MarkerFitsThroughout(fleets, actions, j - 1);
      RunKeeps(fleets, actions, j - 1);
      MarkerFitsUnlessOvertaken(fleets[j - 1], actions[j - 1]);
    }
  }

  // ----- dispatched escalations

  lemma HandleMoves(f: Fleet, s: SessionId, ok: bool)
    requires Inv(f) && Possible(f, Handle(s, ok))
    ensures QueueMoves(f, HandleStep(f, s, ok)) && f.taken.Keys <= HandleStep(f, s, ok).taken.Keys
  {
    HandleMasterKeeps(f, s, ok);
  }

  lemma ActionMoves(f: Fleet, action: Action)
    requires Inv(f) && Possible(f, action)
    ensures QueueMoves(f, After(f, action)) && f.taken.Keys <= After(f, action).taken.Keys
  {
    match action
    case Handle(s, ok) => HandleMoves(f, s, ok);
    case Attach(s, _, _, _) =>
      StrandedChanges(f.master, s);
      WithoutShrinks(f.master.queue, PositionFor(f.master.queue, s));
    case RestartMaster(finished) => RestartMoves(f, finished);
    case _ => WithoutShrinks(f.master.queue, |f.master.queue|);
  }

  lemma RestartMoves(f: Fleet, finished: seq<SessionId>)
    requires MasterInv(f) && Possible(f, RestartMaster(finished))
    ensures Shrinks(f.master.queue, After(f, RestartMaster(finished)).master.queue)
  {
    DropAllShrinks(f.master, finished);
    RestartQueue(f.master, finished);
  }

  lemma RestartQueue(m: Master, finished: seq<SessionId>)
    ensures Restart(m, finished).queue == DropAll(m, finished).queue
  {
  }

  /** `id` was taken into the queue and is its head, or has left it. */
  ghost predicate HeadOrGone(f: Fleet, id: EscalationId) {
    id in f.taken && (Queued(f.master.queue, id) ==> Head(f.master.queue) == Some(id))
  }

  lemma HeadOrGoneStays(f: Fleet, r: Fleet, id: EscalationId)
    requires HeadOrGone(f, id) && NoRepeats(Ids(f.master.queue))
    requires QueueMoves(f, r) && f.taken.Keys <= r.taken.Keys
    ensures HeadOrGone(r, id)
  {
    if Queued(r.master.queue, id) {
      assert Queued(f.master.queue, id);
      assert f.master.queue[0].id == id;
    }
  }

  /** From its dispatch on, an escalation stays the head until it leaves the
      queue, whatever is raised, retracted or restarted meanwhile. */
  lemma {:induction false} DispatchedStaysHead(fleets: seq<Fleet>, actions: seq<Action>, i: nat, j: nat)
    requires Run(fleets, actions) && i < j < |fleets| && actions[i].DispatchSend?
    ensures HeadOrGone(fleets[j], actions[i].id)
  {
    assert StepAt(fleets, actions, i) && StepAt(fleets, actions, j - 1);
    RunKeeps(fleets, actions, j - 1);
    if j - 1 == i {
      assert fleets[i].master.queue[0].id in fleets[i].master.accepted;
    } else {
      DispatchedStaysHead(fleets, actions, i, j - 1);
      ActionMoves(fleets[j - 1], actions[j - 1]);
      HeadOrGoneStays(fleets[j - 1], fleets[j], actions[i].id);
    }
  }

  /** The master handles the report that the decision for `id` was typed. */
  predicate HandlesDelivered(f: Fleet, action: Action, id: EscalationId) {
    && action.Handle? && Possible(f, action)
    && Outstanding(f.nodes[action.session].broker.pc) == Some(DecisionDelivered(id))
  }

  /** The broker of `s` confirms that the decision for `id` reached its pane. */
  predicate TypesAt(f: Fleet, action: Action, s: SessionId, id: EscalationId) {
    && action.Act? && action.session == s && Possible(f, action)
    && BrokerRuns.TypesDecision(f.nodes[s].broker, action.input, id)
  }

  lemma StillConfirming(f: Fleet, action: Action, s: SessionId, id: EscalationId)
    requires Possible(f, action) && s in After(f, action).nodes
    requires s in f.nodes ==> NodeInv(f, f.nodes[s])
    requires BrokerRuns.Confirming(After(f, action).nodes[s].broker.pc, id)
    ensures s in f.nodes && (BrokerRuns.Confirming(f.nodes[s].broker.pc, id) || TypesAt(f, action, s, id))
  {
    if action.Act? && action.session == s {
      BrokerRuns.ConfirmsTyped(f.nodes[s].broker, action.input, id);
    }
  }

  /** The broker of `s` typed the decision for `id` before step `j`. */
  ghost predicate TypedBefore(fleets: seq<Fleet>, actions: seq<Action>, j: nat, s: SessionId, id: EscalationId)
    requires j <= |actions| <= |fleets|
  {
    exists i | 0 <= i < j :: TypesAt(fleets[i], actions[i], s, id)
  }

  lemma {:induction false} ConfirmingOnlyIfTyped(
      fleets: seq<Fleet>, actions: seq<Action>, j: nat, s: SessionId, id: EscalationId)
    requires Run(fleets, actions) && j < |fleets|
    requires s in fleets[j].nodes && BrokerRuns.Confirming(fleets[j].nodes[s].broker.pc, id)
    ensures TypedBefore(fleets, actions, j, s, id)
  {
    if j > 0 {
      assert StepAt(fleets, actions, j - 1);
      RunKeeps(fleets, actions, j - 1);
      StillConfirming(fleets[j - 1], actions[j - 1], s, id);
      if BrokerRuns.Confirming(fleets[j - 1].nodes[s].broker.pc, id) {
        ConfirmingOnlyIfTyped(fleets, actions, j - 1, s, id);
      }
    }
  }

  /** The queue without `id`, if that is its head. */
  function Popped(q: seq<Entry>, id: EscalationId): seq<Entry> {
    if Head(q) == Some(id) then q[1..] else q
  }

  lemma DeliveredPops(f: Fleet, action: Action, id: EscalationId)
    requires HandlesDelivered(f, action, id) && DispatchInv(f, f.nodes[action.session])
    ensures After(f, action).master.queue == Popped(f.master.queue, id)
    ensures Queued(f.master.queue, id) ==> Head(f.master.queue) == Some(id)
  {
    assert BrokerRuns.DeliveryPending(f.nodes[action.session].broker, id);
    DeliveredChanges(f.master, id);
    assert f.master.queue != [] ==> Without(f.master.queue, 0) == f.master.queue[1..];
  }

  lemma DeliveredConfirms(f: Fleet, action: Action, id: EscalationId)
    requires HandlesDelivered(f, action, id)
    ensures action.session in f.nodes && BrokerRuns.Confirming(f.nodes[action.session].broker.pc, id)
  {
  }

  /** A DELIVERED report follows the typing of that very decision. If its
      escalation still waits, it is the head, and the report pops exactly that
      entry; otherwise it pops nothing. */
  lemma DeliveredPopsTheTyped(fleets: seq<Fleet>, actions: seq<Action>, j: nat, id: EscalationId)
    requires Run(fleets, actions) && j < |actions| && HandlesDelivered(fleets[j], actions[j], id)
    ensures TypedBefore(fleets, actions, j, actions[j].session, id)
    ensures Queued(fleets[j].master.queue, id) ==> Head(fleets[j].master.queue) == Some(id)
    ensures fleets[j + 1].master.queue == Popped(fleets[j].master.queue, id)
  {
    DeliveredConfirms(fleets[j], actions[j], id);
    ConfirmingOnlyIfTyped(fleets, actions, j, actions[j].session, id);
    StepPops(fleets, actions, j, id);
  }

  lemma StepPops(fleets: seq<Fleet>, actions: seq<Action>, j: nat, id: EscalationId)
    requires Run(fleets, actions) && j < |actions| && HandlesDelivered(fleets[j], actions[j], id)
    ensures Queued(fleets[j].master.queue, id) ==> Head(fleets[j].master.queue) == Some(id)
    ensures fleets[j + 1].master.queue == Popped(fleets[j].master.queue, id)
  {
    assert StepAt(fleets, actions, j);
    RunKeeps(fleets, actions, j);
    DeliveredPops(fleets[j], actions[j], id);
  }

  // ----- at most one decision per escalation, in the whole fleet

  /** `id` was used, and no broker has it active. */
  predicate Over(f: Fleet, id: EscalationId) {
    id in f.ids && forall s <- f.nodes :: f.nodes[s].broker.active != Some(id)
  }

  lemma ActStaysOver(f: Fleet, s: SessionId, input: Input, id: EscalationId)
    requires Possible(f, Act(s, input)) && NodeInv(f, f.nodes[s]) && Over(f, id)
    ensures ActStep(f, s, input).nodes[s].broker.active != Some(id)
  {
    if BrokerSafety.IsHandler(input) {
      BrokerSafety.HandlerHandled(f.nodes[s].broker, input);
    } else {
      BrokerSafety.SegmentAdvances(f.nodes[s].broker, input);
    }
  }

  /** Only a step of its own broker, or a new one, touches a node's escalation. */
  lemma NodeStaysOver(f: Fleet, action: Action, t: SessionId, id: EscalationId)
    requires Possible(f, action) && !action.Act? && Over(f, id) && t in After(f, action).nodes
    ensures After(f, action).nodes[t].broker.active != Some(id)
  {
  }

  lemma StaysOver(f: Fleet, action: Action, id: EscalationId)
    requires Inv(f) && Possible(f, action) && Over(f, id)
    ensures Over(After(f, action), id)
  {
    var r := After(f, action);
    forall t | t in r.nodes
      ensures r.nodes[t].broker.active != Some(id)
    {
      if action.Act? {
        assert NodeInv(f, f.nodes[action.session]);
        ActStaysOver(f, action.session, action.input, id);
      } else {
        NodeStaysOver(f, action, t, id);
      }
    }
  }

  lemma {:induction false} OverForever(fleets: seq<Fleet>, actions: seq<Action>, i: nat, j: nat, id: EscalationId)
    requires Run(fleets, actions) && i <= j < |fleets| && Over(fleets[i], id)
    ensures Over(fleets[j], id)
  {
    if i < j {
      assert StepAt(fleets, actions, j - 1);
      OverForever(fleets, actions, i, j - 1, id);
      RunKeeps(fleets, actions, j - 1);
      StaysOver(fleets[j - 1], actions[j - 1], id);
    }
  }

  /** Typing the decision ends the escalation for every broker. */
  lemma TypingEnds(f: Fleet, action: Action, s: SessionId, id: EscalationId)
    requires Inv(f) && TypesAt(f, action, s, id)
    ensures Over(After(f, action), id)
  {
    var b := f.nodes[s].broker;
    assert NodeInv(f, f.nodes[s]);
    assert b.active == Some(id) && Step(b, action.input).active == None;
    forall t | t in f.nodes && t != s
      ensures f.nodes[t].broker.active != Some(id)
    {
      assert NodeInv(f, f.nodes[t]) && f.nodes[t].broker.used !! b.used;
    }
  }

  lemma TypedIsActive(f: Fleet, action: Action, s: SessionId, id: EscalationId)
    requires Inv(f) && TypesAt(f, action, s, id)
    ensures !Over(f, id)
  {
    assert NodeInv(f, f.nodes[s]);
  }

  /** Nothing is typed for an escalation after a decision for it was. */
  lemma NothingTypedAfter(
      fleets: seq<Fleet>, actions: seq<Action>, i: nat, j: nat, s: SessionId, t: SessionId, id: EscalationId)
    requires Run(fleets, actions) && i < j < |actions|
    requires TypesAt(fleets[i], actions[i], s, id)
    ensures !TypesAt(fleets[j], actions[j], t, id)
  {
    assert StepAt(fleets, actions, i);
    RunKeeps(fleets, actions, i);
    RunKeeps(fleets, actions, j);
    TypingEnds(fleets[i], actions[i], s, id);
    OverForever(fleets, actions, i + 1, j, id);
    if TypesAt(fleets[j], actions[j], t, id) {
      TypedIsActive(fleets[j], actions[j], t, id);
    }
  }

  /** In a whole run, with brokers crashing and being replaced and the master
      restarting and dispatching again, at most one decision per escalation
      reaches any pane. */
  lemma TypedAtMostOnce(
      fleets: seq<Fleet>, actions: seq<Action>, i: nat, j: nat, s: SessionId, t: SessionId, id: EscalationId)
    requires Run(fleets, actions) && i < |actions| && j < |actions|
    requires TypesAt(fleets[i], actions[i], s, id) && TypesAt(fleets[j], actions[j], t, id)
    ensures i == j
  {
    if i < j {
      NothingTypedAfter(fleets, actions, i, j, s, t, id);
    } else if j < i {
      NothingTypedAfter(fleets, actions, j, i, t, s, id);
    }
  }

  // ----- capacity

  /** No request failed and no queued entry was abandoned before `j`. */
  ghost predicate Faultless(fleets: seq<Fleet>, actions: seq<Action>, j: nat)
    requires j <= |actions| <= |fleets|
  {
    forall i | 0 <= i < j :: !RequestFails(fleets[i], actions[i]) && !Abandons(fleets[i], actions[i])
  }

  lemma {:induction false} CoveredThroughout(fleets: seq<Fleet>, actions: seq<Action>, j: nat)
    requires Run(fleets, actions) && j <= |actions| && Faultless(fleets, actions, j)
    ensures Covered(fleets[j])
  {
    if j > 0 {
      assert StepAt(fleets, actions, j - 1);
      CoveredThroughout(fleets, actions, j - 1);
      RunKeeps(fleets, actions, j - 1);
      CoveredUnlessAbandoned(fleets[j - 1], actions[j - 1]);
    }
  }

  /** The master refuses a raise because the session already has an entry. */
  predicate RefusedForCapacity(f: Fleet, action: Action) {
    && action.Handle? && Possible(f, action) && f.nodes[action.session].broker.pc.Raising?
    && EscalationReply(f.master, Entry(f.nodes[action.session].broker.pc.id, action.session)).SlotTaken?
  }

  /** While no request fails and no entry is abandoned, no raise is refused for
      capacity. */
  lemma NeverRefusedForCapacity(fleets: seq<Fleet>, actions: seq<Action>, j: nat)
    requires Run(fleets, actions) && j < |actions| && Faultless(fleets, actions, j)
    ensures !RefusedForCapacity(fleets[j], actions[j])
  {
    assert StepAt(fleets, actions, j);
    CoveredThroughout(fleets, actions, j);
  }
}
