/** The marker of a decision in flight whose escalation left the queue: when it
    stays until the master restarts, and so refuses every dispatch. */
module StaleMarkers {
  import opened Protocol
  import opened BrokerModel
  import BrokerSafety
  import BrokerLoop
  import opened BrokerSilence
  import opened EscalationQueue
  import opened MasterModel
  import MasterSafety
  import opened FleetModel
  import opened FleetSafety
  import FleetRuns
  import opened FleetOwners

  /** A report of the reset budget is accepted, or will be. */
  predicate Heard(f: Fleet, s: SessionId, n: Node) {
    n.reply == Some(true) || (n.reply.None? && s in f.master.known)
  }

  /** The broker of `s` has no report on `id` unhandled, and if it runs at all
      none can come. */
  predicate Spent(f: Fleet, s: SessionId, n: Node, id: EscalationId) {
    && !(BrokerLoop.ReportsOn(n.broker.pc, id) && n.reply.None?)
    && (n.up ==> !MayReport(n.broker, Heard(f, s, n), id))
  }

  ghost predicate AllSpent(f: Fleet, id: EscalationId) {
    forall s | s in f.nodes :: Spent(f, s, f.nodes[s], id)
  }

  /** The marker names an escalation that left the queue, and no broker will
      report on it any more. */
  ghost predicate Stuck(f: Fleet, id: EscalationId) {
    f.master.inflight == Some(id) && Gone(f, id) && AllSpent(f, id)
  }

  // ----- a stuck marker stays

  lemma ReportsNamed(pc: Pc, id: EscalationId)
    ensures Outstanding(pc).Some? && MasterSafety.Names(Outstanding(pc).value, id) <==> BrokerLoop.ReportsOn(pc, id)
  {
  }

  /** A report that cannot come without being heard cannot come unheard. */
  lemma UnheardSilent(b: Broker, heard: bool, heard': bool, id: EscalationId)
    requires (heard' ==> heard) && !MayReport(b, heard, id)
    ensures !MayReport(b, heard', id)
  {
  }

  lemma ActSpent(f: Fleet, s: SessionId, input: Input, id: EscalationId)
    requires Possible(f, Act(s, input)) && NodeInv(f, f.nodes[s]) && Owns(f, s, f.nodes[s])
    requires LeftBehind(f, f.nodes[s]) && Gone(f, id) && id in f.ids && Spent(f, s, f.nodes[s], id)
    ensures Spent(ActStep(f, s, input), s, ActStep(f, s, input).nodes[s], id)
  {
    var n := f.nodes[s];
    var b := n.broker;
    var heard := Heard(f, s, n);
    assert Left(b, id);
    if input.Dequeue? {
      StartSilent(b, input.transcript, input.newId, heard, id);
      SilentSpent(f, s, Step(b, input), id);
    } else if input.Resume? {
      ResumeSilent(b, input.outcome, input.transcript, input.newId, heard, id);
      SilentSpent(f, s, Step(b, input), id);
    } else {
      BrokerSafety.HandlerHandled(b, input);
      if MayReport(Step(b, input), heard, id) {
        HandlerSilent(b, input, heard, id);
      }
    }
  }

  lemma SilentSpent(f: Fleet, s: SessionId, b: Broker, id: EscalationId)
    requires Silent(b, id)
    ensures Spent(f, s, Node(b, true, None), id)
  {
    UnheardSilent(b, true, Heard(f, s, Node(b, true, None)), id);
  }

  /** A node that did not move stays spent if its session's standing is kept. */
  lemma BystanderSpent(f: Fleet, r: Fleet, t: SessionId, n: Node, id: EscalationId)
    requires Spent(f, t, n, id) && (t in r.master.known ==> t in f.master.known)
    ensures Spent(r, t, n, id)
  {
    if n.up {
      UnheardSilent(n.broker, Heard(f, t, n), Heard(r, t, n), id);
    }
  }

  lemma ActAllSpent(f: Fleet, s: SessionId, input: Input, id: EscalationId)
    requires Owned(f) && Possible(f, Act(s, input)) && Gone(f, id) && AllSpent(f, id)
    ensures AllSpent(ActStep(f, s, input), id)
  {
    var r := ActStep(f, s, input);
    assert NodeInv(f, f.nodes[s]) && Owns(f, s, f.nodes[s]) && LeftBehind(f, f.nodes[s]);
    ActSpent(f, s, input, id);
    forall t | t in r.nodes
      ensures Spent(r, t, r.nodes[t], id)
    {
      if t != s {
        BystanderSpent(f, r, t, f.nodes[t], id);
      }
    }
  }

  /** Handling a request makes nothing known that was not. */
  lemma KnownShrinks(m: Master, s: SessionId, request: Request)
    ensures OnRequest(m, s, request).known <= m.known
  {
    if request.Escalation? && EscalationReply(m, Entry(request.id, s)).Accepted? {
      AcceptChanges(m, Entry(request.id, s));
    } else {
      OnRequestChanges(m, s, request);
    }
  }

  lemma HandleSpent(f: Fleet, s: SessionId, ok: bool, id: EscalationId)
    requires Possible(f, Handle(s, ok)) && Spent(f, s, f.nodes[s], id)
    ensures Spent(HandleStep(f, s, ok), s, HandleStep(f, s, ok).nodes[s], id)
  {
    var n := f.nodes[s];
    if n.broker.pc != Delivering(id, DecisionContact) {
      assert MayReport(n.broker, true, id) == MayReport(n.broker, false, id);
    }
  }

  lemma HandleAllSpent(f: Fleet, s: SessionId, ok: bool, id: EscalationId)
    requires Possible(f, Handle(s, ok)) && AllSpent(f, id)
    ensures AllSpent(HandleStep(f, s, ok), id)
  {
    var r := HandleStep(f, s, ok);
    HandleSpent(f, s, ok, id);
    KnownShrinks(f.master, s, Outstanding(f.nodes[s].broker.pc).value);
    forall t | t in r.nodes
      ensures Spent(r, t, r.nodes[t], id)
    {
      if t != s {
        BystanderSpent(f, r, t, f.nodes[t], id);
      }
    }
  }

  /** The broker of `s` is new or down, the others did not move. */
  lemma MoveAllSpent(f: Fleet, r: Fleet, s: SessionId, n: Node, id: EscalationId)
    requires AllSpent(f, id) && r.nodes == f.nodes[s := n] && Spent(r, s, n, id)
    requires forall t | t in f.nodes && t != s && t in r.master.known :: t in f.master.known
    ensures AllSpent(r, id)
  {
    forall t | t in r.nodes
      ensures Spent(r, t, r.nodes[t], id)
    {
      if t != s {
        BystanderSpent(f, r, t, f.nodes[t], id);
      }
    }
  }

  lemma NewNodeSpent(f: Fleet, s: SessionId, b: Broker, id: EscalationId)
    requires BrokerModel.Initial(b)
    ensures Spent(f, s, Node(b, true, None), id)
  {
  }

  lemma NodeAllSpent(f: Fleet, s: SessionId, action: Action, id: EscalationId)
    requires Possible(f, action) && AllSpent(f, id)
    requires action == Crash(s) || action == Lose(s) || action == Stop(s)
             || ((action.Spawn? || action.Attach? || action.Reassign?) && action.session == s)
    ensures AllSpent(After(f, action), id)
  {
    var r := After(f, action);
    if action.Spawn? || action.Attach? || action.Reassign? {
      NewNodeSpent(r, s, r.nodes[s].broker, id);
    }
    MoveAllSpent(f, r, s, r.nodes[s], id);
  }

  lemma ActionAllSpent(f: Fleet, action: Action, id: EscalationId)
    requires Owned(f) && Possible(f, action) && !action.RestartMaster? && Stuck(f, id)
    ensures AllSpent(After(f, action), id)
  {
    match action
    case Act(s, input) => ActAllSpent(f, s, input, id);
    case Handle(s, ok) => HandleAllSpent(f, s, ok, id);
    case Spawn(s, _) => NodeAllSpent(f, s, action, id);
    case Crash(s) => NodeAllSpent(f, s, action, id);
    case Lose(s) => NodeAllSpent(f, s, action, id);
    case Stop(s) => NodeAllSpent(f, s, action, id);
    case Attach(s, _, _, _) => NodeAllSpent(f, s, action, id);
    case Reassign(s, _) => NodeAllSpent(f, s, action, id);
    case _ =>
  }

  /** What took an escalation out of the queue does not bring it back. */
  lemma StaysGone(f: Fleet, action: Action, id: EscalationId)
    requires Inv(f) && Possible(f, action) && Gone(f, id)
    ensures Gone(After(f, action), id)
  {
    FleetRuns.ActionMoves(f, action);
    NotBack(f, After(f, action), id);
  }

  lemma NotBack(f: Fleet, r: Fleet, id: EscalationId)
    requires QueueMoves(f, r) && f.taken.Keys <= r.taken.Keys && Gone(f, id)
    ensures Gone(r, id)
  {
    var q := r.master.queue;
    NotListed(f.master.queue, id);
    forall i | 0 <= i < |q|
      ensures q[i].id != id
    {
      if Shrinks(f.master.queue, q) {
        assert q[i] in f.master.queue;
      } else if i < |q| - 1 {
        assert q[..|q| - 1][i] == f.master.queue[i];
      }
    }
  }

  lemma HandleKeepsMarker(f: Fleet, s: SessionId, ok: bool, id: EscalationId)
    requires Possible(f, Handle(s, ok)) && Stuck(f, id)
    ensures HandleStep(f, s, ok).master.inflight == Some(id)
  {
    var n := f.nodes[s];
    assert Spent(f, s, n, id);
    ReportsNamed(n.broker.pc, id);
    NotListed(f.master.queue, id);
    MasterSafety.UnqueuedMarkerBlocks(f.master, id, id, s, Outstanding(n.broker.pc).value);
  }

  lemma NotListed(q: seq<Entry>, id: EscalationId)
    requires !Queued(q, id)
    ensures id !in Ids(q) && forall i | 0 <= i < |q| :: q[i].id != id
  {
  }

  lemma ActionKeepsMarker(f: Fleet, action: Action, id: EscalationId)
    requires Inv(f) && Possible(f, action) && !action.RestartMaster? && Stuck(f, id)
    ensures After(f, action).master.inflight == Some(id)
  {
    NotListed(f.master.queue, id);
    match action
    case Handle(s, ok) => HandleKeepsMarker(f, s, ok, id);
    case _ =>
  }

  /** Nothing but a restart of the master frees a stuck marker. */
  lemma StuckStays(f: Fleet, action: Action, id: EscalationId)
    requires Owned(f) && Possible(f, action) && !action.RestartMaster? && Stuck(f, id)
    ensures Stuck(After(f, action), id)
  {
    StaysGone(f, action, id);
    ActionAllSpent(f, action, id);
    ActionKeepsMarker(f, action, id);
  }
}
