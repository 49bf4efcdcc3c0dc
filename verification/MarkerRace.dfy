/** A stale marker is reached: a run in which every request is answered, no
    session is reassigned and no acknowledgement is lost, and yet every dispatch
    is refused from its end on until the master restarts.

    The broker types the decision and reports it delivered, and the master pops
    the escalation, before the dispatch resumes with the acknowledgement. */
module MarkerRace {
  import opened Protocol
  import opened BrokerModel
  import opened EscalationQueue
  import opened MasterModel
  import opened FleetModel
  import opened FleetRuns
  import opened StaleMarkers
  import opened MarkerFate
  import opened SoloRuns

  /** The decision for the head is sent. */
  lemma Send(m: Master, b: Broker, reply: Option<bool>, id: EscalationId, next: EscalationId)
    requires Reaches(m, b, reply, next) && m.sending == None && MayDispatch(m, id) && m.queue[0].session == Only
    ensures Reaches(DispatchSent(m, id), Enqueue(b, Deliver(id)), reply, next)
  {
    var ids, taken :| Below(ids, next) && Reachable(Solo(m, b, reply, ids, taken));
    var f := Solo(m, b, reply, ids, taken);
    ReachStep(f, DispatchSend(Only, id));
    assert After(f, DispatchSend(Only, id)) == Solo(DispatchSent(m, id), Enqueue(b, Deliver(id)), reply, ids, taken);
  }

  lemma Acknowledge(m: Master, b: Broker, reply: Option<bool>, next: EscalationId)
    requires Reaches(m, b, reply, next) && m.sending.Some?
    ensures Reaches(DispatchAcked(m), b, reply, next)
  {
    var ids, taken :| Below(ids, next) && Reachable(Solo(m, b, reply, ids, taken));
    var f := Solo(m, b, reply, ids, taken);
    ReachStep(f, DispatchAck);
    assert After(f, DispatchAck) == Solo(DispatchAcked(m), b, reply, ids, taken);
  }

  /** The dispatched decision is typed and reported; the report is handled. */
  function Typed(b: Broker, id: EscalationId): Broker {
    b.(active := None, state := Driving, budget := 0, jobs := [], pc := Delivering(id, DeliveredAck))
  }

  lemma Delivers(m: Master, b: Broker, id: EscalationId, next: EscalationId)
    requires Reaches(m, b, None, next) && b.pc.Idle? && b.jobs == [Deliver(id)] && b.active == Some(id)
    requires !Occupied(b) && Only in m.known
    ensures Reaches(m, Typed(b, id), None, next + 3)
  {
    Moves(m, b, None, Dequeue(Blank, next), next);
    var writing := Step(b, Dequeue(Blank, next));
    Proceed(m, writing, Blank, next + 1);
    var contact := Continue(writing, Blank);
    Proceed(m, contact, Blank, next + 2);
    assert Continue(contact, Blank) == Typed(b, id);
  }

  /** The master pops the delivered escalation, then sees the acknowledgement. */
  lemma Overtakes(m: Master, b: Broker, id: EscalationId, next: EscalationId)
    requires Reaches(m, b, None, next) && b.pc == Delivering(id, DeliveredAck)
    requires m.sending == Some(id) && m.inflight == None && |m.queue| == 1 && m.queue[0].id == id
    ensures exists r: Master | Reaches(r, b, Some(true), next) :: r.inflight == Some(id) && r.queue == []
  {
    Answer(m, b, true, next);
    var popped := OnDelivered(m, id);
    assert popped.queue == [] && popped.sending == Some(id);
    Acknowledge(popped, b, Some(true), next);
  }

  /** An escalation is raised, accepted and its decision sent. */
  function Waiting(b: Broker, id: EscalationId): Broker
    requires b.jobs != []
  {
    Escalating(b, id).(pc := Idle)
  }

  lemma Dispatches(b: Broker, next: EscalationId)
    requires Reaches(Known([]), b, None, next) && b.pc.Idle? && b.state.Driving? && b.jobs == [TurnEnd]
    requires b.menu.None? && !b.shutdown && b.launched
    ensures Reaches(DispatchSent(Known([Entry(next + 1, Only)]), next + 1),
                    Enqueue(Waiting(b, next + 1), Deliver(next + 1)), None, next + 3)
  {
    var m := Known([Entry(next + 1, Only)]);
    Escalates(Known([]), b, next);
    assert OnRequest(Known([]), Only, Escalation(next + 1)) == m;
    Proceed(Known([]), Escalating(b, next + 1), Blank, next + 2);
    Send(m, Waiting(b, next + 1), None, next + 1, next + 3);
  }

  lemma Collides(b: Broker, next: EscalationId)
    requires Reaches(Known([]), b, None, next) && b.pc.Idle? && b.state.Driving? && b.jobs == [TurnEnd]
    requires b.menu.None? && !b.shutdown && b.launched && !b.permissionPrompt
    ensures exists m: Master, r: Broker | Reaches(m, r, Some(true), next + 6) ::
              m.inflight == Some(next + 1) && m.queue == [] && r.pc == Delivering(next + 1, DeliveredAck)
              && r.active == None && r.jobs == [] && !r.shutdown
  {
    var id := next + 1;
    Dispatches(b, next);
    var sent := DispatchSent(Known([Entry(id, Only)]), id);
    Delivers(sent, Enqueue(Waiting(b, id), Deliver(id)), id, next + 3);
    Overtakes(sent, Typed(Enqueue(Waiting(b, id), Deliver(id)), id), id, next + 6);
  }

  /** With nothing queued and the broker done with the delivery, it is stuck. */
  lemma IsStuck(m: Master, b: Broker, id: EscalationId, next: EscalationId)
    requires Reaches(m, b, Some(true), next) && m.inflight == Some(id) && m.queue == []
    requires b.pc == Delivering(id, DeliveredAck) && b.active == None && b.jobs == []
    ensures exists f | Reachable(f) :: Stuck(f, id)
  {
    var ids, taken :| Below(ids, next) && Reachable(Solo(m, b, Some(true), ids, taken));
    var f := Solo(m, b, Some(true), ids, taken);
    var fleets, actions :| Run(fleets, actions) && Orderly(fleets, actions) && fleets[|actions|] == f;
    RunOwned(fleets, actions, |actions|);
    assert HeadOrGone(f, id);
    assert Spent(f, Only, f.nodes[Only], id);
  }

  /** There is a run without a failing request and without a reassignment after
      which the marker stays until the master restarts. */
  lemma StuckAfterRace()
    ensures exists f, id | Reachable(f) :: Stuck(f, id)
  {
    Launches();
    var driving := Spawned(1, 0).(state := Driving, launched := true, pc := Idle);
    Moves(Known([]), driving, None, StopHook, 5);
    var b := Step(driving, StopHook);
    Collides(b, 6);
    var m: Master, r: Broker :| Reaches(m, r, Some(true), 12)
      && m.inflight == Some(7) && m.queue == [] && r.pc == Delivering(7, DeliveredAck)
      && r.active == None && r.jobs == [] && !r.shutdown;
    IsStuck(m, r, 7, 12);
  }
}
