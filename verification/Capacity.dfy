/** When is a raise refused because the session already has an escalation queued?
    The master holds one entry per session, so a broker must not raise while it
    still does. */
module Capacity {
  import opened Protocol
  import opened BrokerModel
  import BrokerSafety
  import BrokerRuns
  import opened EscalationQueue
  import opened MasterModel
  import opened FleetModel
  import opened FleetSafety
  import opened Subsequences

  /** The running job of a live broker is about to send, or has sent and the
      master has not handled, a report that ends `id`. */
  predicate EndInTransit(n: Node, id: EscalationId) {
    || (BrokerSafety.ReportsEnd(n.broker.pc, id) &&
        (n.reply.None? || (n.broker.pc.Delivering? && n.broker.pc.delivery.DecisionContact?)))
    || (n.broker.pc.Reporting? && (n.broker.pc.report.FatalAck? || n.broker.pc.report.EndedAck?) && n.reply.None?)
  }

  /** The broker accounts for the entry `id` its session has in the queue. A
      broker that is down accounts for it by having to be attached first; one
      whose raise is unhandled has no entry to account for. */
  predicate Accounts(n: Node, id: EscalationId) {
    !RaiseUnhandled(n) && (n.up ==> n.broker.active == Some(id) || EndInTransit(n, id))
  }

  /** Every entry of the queue is accounted for by its session's broker. */
  ghost predicate Covered(f: Fleet) {
    forall i | 0 <= i < |f.master.queue| ::
      f.master.queue[i].session in f.nodes && Accounts(f.nodes[f.master.queue[i].session], f.master.queue[i].id)
  }

  /** A request to the master raised instead of being answered. */
  predicate RequestFails(f: Fleet, action: Action) {
    && action.Act? && action.session in f.nodes
    && action.input.Resume? && action.input.outcome.Failed?
    && Outstanding(f.nodes[action.session].broker.pc).Some?
  }

  /** The action abandons the entry its session has queued: it starts a job that
      forgets the active escalation, or hands the session to a new broker. */
  predicate Abandons(f: Fleet, action: Action) {
    match action
    case Act(s, input) =>
      && s in f.nodes && input.Dequeue? && f.nodes[s].broker.jobs != []
      && BrokerSafety.Forgets(f.nodes[s].broker.jobs[0]) && Holds(f.master.queue, s)
    case Reassign(s, _) => Holds(f.master.queue, s)
    case _ => false
  }

  /** A covered fleet never refuses a raise for capacity. */
  lemma CoveredAccepts(f: Fleet, s: SessionId, ok: bool)
    requires Covered(f) && Possible(f, Handle(s, ok)) && f.nodes[s].broker.pc.Raising?
    ensures !EscalationReply(f.master, Entry(f.nodes[s].broker.pc.id, s)).SlotTaken?
  {
  }

  // ----- brokers

  lemma HandlerStillAccounts(n: Node, input: Input, id: EscalationId)
    requires Enabled(n.broker, input) && BrokerSafety.IsHandler(input) && Accounts(n, id)
    ensures Accounts(n.(broker := Step(n.broker, input)), id)
  {
    BrokerSafety.HandlerHandled(n.broker, input);
  }

  /** A segment that ran after the awaited request was answered. */
  lemma SegmentStillAccounts(n: Node, r: Broker, t: Transcript, newId: EscalationId, job: Option<Job>, id: EscalationId)
    requires BrokerSafety.Advances(n.broker, r, t, newId, job)
    requires !(job.Some? && BrokerSafety.Forgets(job.value))
    requires n.up ==> n.broker.active == Some(id)
    ensures n.up ==> Accounts(Node(r, true, None), id)
  {
  }

  /** While the end of `id` is in transit the loop waits for the master, but for
      the one report that follows the reset of the budget. */
  lemma InTransitWaits(n: Node, input: Input, id: EscalationId)
    requires BrokerSafety.Inv(n.broker) && Enabled(n.broker, input) && !BrokerSafety.IsHandler(input)
    requires SeesReply(n, input) && !(input.Resume? && input.outcome.Failed? && Outstanding(n.broker.pc).Some?)
    requires EndInTransit(n, id)
    ensures EndInTransit(Node(Step(n.broker, input), n.up, None), id)
  {
  }

  lemma ActStillAccounts(f: Fleet, s: SessionId, input: Input, id: EscalationId)
    requires Inv(f) && Possible(f, Act(s, input)) && !RequestFails(f, Act(s, input))
    requires Accounts(f.nodes[s], id)
    requires !(input.Dequeue? && BrokerSafety.Forgets(f.nodes[s].broker.jobs[0]))
    ensures Accounts(ActStep(f, s, input).nodes[s], id)
  {
    var n := f.nodes[s];
    assert NodeInv(f, n);
    if BrokerSafety.IsHandler(input) {
      HandlerStillAccounts(n, input, id);
    } else if EndInTransit(n, id) {
      InTransitWaits(n, input, id);
      assert !Step(n.broker, input).pc.Raising?;
    } else {
      BrokerSafety.SegmentAdvances(n.broker, input);
      var start := if input.Dequeue? then n.broker.(jobs := n.broker.jobs[1..]) else n.broker;
      SegmentStillAccounts(n.(broker := start), Step(n.broker, input), input.transcript, input.newId,
                           BrokerSafety.SegmentJob(n.broker, input), id);
    }
  }

  /** A job that forgets the active escalation leaves a queued entry without a
      broker that accounts for it. */
  lemma ForgettingUncovers(f: Fleet, s: SessionId, input: Input, id: EscalationId)
    requires Possible(f, Act(s, input)) && Accounts(f.nodes[s], id)
    requires input.Dequeue? && BrokerSafety.Forgets(f.nodes[s].broker.jobs[0])
    ensures !Accounts(ActStep(f, s, input).nodes[s], id)
  {
    var r := ActStep(f, s, input).nodes[s];
    if f.nodes[s].broker.jobs[0].VerifyFailed? {
      assert RaiseUnhandled(r);
    } else {
      assert r.broker.active == None && r.broker.pc == Opening(ReactivateContact);
    }
  }

  lemma ActCovers(f: Fleet, s: SessionId, input: Input)
    requires Inv(f) && Covered(f) && Possible(f, Act(s, input)) && !RequestFails(f, Act(s, input))
    ensures Covered(ActStep(f, s, input)) <==> !Abandons(f, Act(s, input))
  {
    var q := f.master.queue;
    var r := ActStep(f, s, input);
    if Abandons(f, Act(s, input)) {
      var i :| 0 <= i < |q| && q[i].session == s;
      ForgettingUncovers(f, s, input, q[i].id);
      assert !Accounts(r.nodes[r.master.queue[i].session], r.master.queue[i].id);
    } else {
      forall i | 0 <= i < |q|
        ensures Accounts(r.nodes[q[i].session], q[i].id)
      {
        if q[i].session == s {
          ActStillAccounts(f, s, input, q[i].id);
        }
      }
    }
  }

  // ----- the master

  /** An entry of `s` still queued once the master handled a request of `s` that
      takes no new entry. */
  lemma HandleStillAccounts(f: Fleet, s: SessionId, ok: bool, entry: Entry)
    requires MasterInv(f) && Possible(f, Handle(s, ok)) && DispatchInv(f, f.nodes[s])
    requires !f.nodes[s].broker.pc.Raising? && Accounts(f.nodes[s], entry.id) && entry.session == s
    requires entry in QueueAfter(f.master, s, Outstanding(f.nodes[s].broker.pc).value)
    ensures Accounts(f.nodes[s].(reply := Some(ok)), entry.id)
  {
    var n := f.nodes[s];
    if n.up && n.broker.active != Some(entry.id) && !EndInTransit(n.(reply := Some(ok)), entry.id) {
      ReportEnds(f, s, n, entry);
      assert false;
    }
  }

  /** Handling the report that ends `entry` takes it out of the queue. */
  lemma ReportEnds(f: Fleet, s: SessionId, n: Node, entry: Entry)
    requires MasterInv(f) && Unhandled(n) && DispatchInv(f, n) && entry.session == s
    requires EndInTransit(n, entry.id) && !EndInTransit(n.(reply := Some(true)), entry.id)
    ensures entry !in QueueAfter(f.master, s, Outstanding(n.broker.pc).value)
  {
    if n.broker.pc.Reporting? {
      GoneForSession(f.master, s, entry);
    } else if n.broker.pc.Delivering? {
      assert BrokerRuns.DeliveryPending(n.broker, entry.id);
      DeliveredGone(f, n, entry);
    } else {
      GoneOnce(f.master.queue, PositionOf(f.master.queue, entry.id), entry);
    }
  }

  lemma DeliveredGone(f: Fleet, n: Node, entry: Entry)
    requires NoRepeats(Ids(f.master.queue)) && DispatchInv(f, n) && BrokerRuns.DeliveryPending(n.broker, entry.id)
    ensures entry !in (if Head(f.master.queue) == Some(entry.id) then Without(f.master.queue, 0) else f.master.queue)
  {
    var q := f.master.queue;
    if entry in q {
      assert Queued(q, entry.id);
      GoneOnce(q, 0, entry);
    }
  }

  lemma GoneForSession(m: Master, s: SessionId, entry: Entry)
    requires OnePerSession(m.queue) && entry.session == s
    requires forall i | 0 <= i < |m.queue| :: m.queue[i].session in m.known
    ensures entry !in QueueAfter(m, s, FatalError) && entry !in QueueAfter(m, s, SessionEnded)
  {
  }

  lemma GoneOnce(q: seq<Entry>, i: nat, entry: Entry)
    requires NoRepeats(Ids(q)) && (i < |q| ==> q[i].id == entry.id) && (i >= |q| ==> entry !in q)
    ensures entry !in Without(q, i)
  {
    if i < |q| {
      forall j | 0 <= j < |q| && j != i
        ensures q[j] != entry
      {
        assert Ids(q)[j] == q[j].id && Ids(q)[i] == entry.id;
      }
    }
  }

  /** Every entry of the queue `q` is accounted for. */
  ghost predicate CoveredIn(nodes: map<SessionId, Node>, q: seq<Entry>) {
    forall i | 0 <= i < |q| :: q[i].session in nodes && Accounts(nodes[q[i].session], q[i].id)
  }

  lemma AcceptCovers(f: Fleet, s: SessionId)
    requires Covered(f) && Possible(f, Handle(s, true)) && f.nodes[s].broker.pc.Raising? && NodeInv(f, f.nodes[s])
    ensures Covered(HandleStep(f, s, true))
  {
    var n := f.nodes[s];
    AcceptChanges(f.master, Entry(n.broker.pc.id, s));
    AcceptCoversIn(f.nodes, f.master.queue, s, n, n.broker.pc.id);
    assert HandleStep(f, s, true).nodes == f.nodes[s := n.(reply := Some(true))];
    assert CoveredIn(HandleStep(f, s, true).nodes, HandleStep(f, s, true).master.queue);
  }

  lemma AcceptCoversIn(nodes: map<SessionId, Node>, q: seq<Entry>, s: SessionId, n: Node, id: EscalationId)
    requires CoveredIn(nodes, q) && !Holds(q, s) && Accounts(n.(reply := Some(true)), id)
    ensures CoveredIn(nodes[s := n.(reply := Some(true))], q + [Entry(id, s)])
  {
  }

  lemma RefuseCovers(f: Fleet, s: SessionId, ok: bool)
    requires MasterInv(f) && Covered(f) && Possible(f, Handle(s, ok)) && DispatchInv(f, f.nodes[s])
    requires !(f.nodes[s].broker.pc.Raising? && ok)
    ensures Covered(HandleStep(f, s, ok))
  {
    var n := f.nodes[s];
    var request := Outstanding(n.broker.pc).value;
    var q := QueueAfter(f.master, s, request);
    OnRequestChanges(f.master, s, request);
    QueueAfterShrinks(f.master, s, request);
    forall i | 0 <= i < |q|
      ensures q[i].session in f.nodes
      ensures Accounts(f.nodes[s := n.(reply := Some(ok))][q[i].session], q[i].id)
    {
      assert q[i] in f.master.queue;
      if q[i].session == s && !n.broker.pc.Raising? {
        HandleStillAccounts(f, s, ok, q[i]);
      }
    }
    assert CoveredIn(HandleStep(f, s, ok).nodes, HandleStep(f, s, ok).master.queue);
  }

  lemma HandleCovers(f: Fleet, s: SessionId, ok: bool)
    requires Inv(f) && Covered(f) && Possible(f, Handle(s, ok))
    ensures Covered(HandleStep(f, s, ok))
  {
    assert NodeInv(f, f.nodes[s]) && DispatchInv(f, f.nodes[s]);
    if f.nodes[s].broker.pc.Raising? && ok {
      AcceptCovers(f, s);
    } else {
      RefuseCovers(f, s, ok);
    }
  }

  // ----- sessions and restarts

  /** The session of the action has no entry left, or its broker still accounts
      for it; the queue only lost entries and the others did not move. */
  lemma MoveCovers(f: Fleet, r: Fleet, s: SessionId, n: Node)
    requires Covered(f) && Shrinks(f.master.queue, r.master.queue) && r.nodes == f.nodes[s := n]
    requires Holds(r.master.queue, s) ==> s in f.nodes && forall id: EscalationId | Accounts(f.nodes[s], id) ::
        Accounts(n, id)
    ensures Covered(r)
  {
    forall i | 0 <= i < |r.master.queue|
      ensures r.master.queue[i].session in r.nodes
      ensures Accounts(r.nodes[r.master.queue[i].session], r.master.queue[i].id)
    {
      assert r.master.queue[i] in f.master.queue;
    }
  }

  lemma StopCovers(f: Fleet, s: SessionId, action: Action)
    requires Inv(f) && Covered(f) && Possible(f, action)
    requires action == Crash(s) || action == Lose(s) || action == Stop(s) || (action.DispatchSend?
        && action.session == s)
    ensures Covered(After(f, action))
  {
    var r := After(f, action);
    WithoutShrinks(f.master.queue, |f.master.queue|);
    MoveCovers(f, r, s, r.nodes[s]);
  }

  lemma SpawnCovers(f: Fleet, s: SessionId, budgetMax: nat)
    requires Inv(f) && Covered(f) && Possible(f, Spawn(s, budgetMax))
    ensures Covered(After(f, Spawn(s, budgetMax)))
  {
    var r := After(f, Spawn(s, budgetMax));
    WithoutShrinks(f.master.queue, |f.master.queue|);
    MoveCovers(f, r, s, r.nodes[s]);
  }

  /** Attaching withdraws the entry the lost broker left behind. */
  lemma AttachCovers(f: Fleet, s: SessionId, action: Action)
    requires Inv(f) && Covered(f) && Possible(f, action) && action.Attach? && action.session == s
    ensures Covered(After(f, action))
  {
    var r := After(f, action);
    StrandedChanges(f.master, s);
    WithoutShrinks(f.master.queue, PositionFor(f.master.queue, s));
    EndedLeaves(f.master, s);
    MoveCovers(f, r, s, r.nodes[s]);
  }

  /** Reassigning keeps the entry, and the new broker knows nothing of it. */
  lemma ReassignCovers(f: Fleet, s: SessionId, budgetMax: nat)
    requires Inv(f) && Covered(f) && Possible(f, Reassign(s, budgetMax))
    ensures Covered(After(f, Reassign(s, budgetMax))) <==> !Abandons(f, Reassign(s, budgetMax))
  {
    var r := After(f, Reassign(s, budgetMax));
    WithoutShrinks(f.master.queue, |f.master.queue|);
    if Holds(f.master.queue, s) {
      var i :| 0 <= i < |f.master.queue| && f.master.queue[i].session == s;
      assert !Accounts(r.nodes[s], r.master.queue[i].id);
    } else {
      MoveCovers(f, r, s, r.nodes[s]);
    }
  }

  lemma RestartCovers(f: Fleet, finished: seq<SessionId>)
    requires Inv(f) && Covered(f) && Possible(f, RestartMaster(finished))
    ensures Covered(After(f, RestartMaster(finished)))
  {
    var r := After(f, RestartMaster(finished));
    DropAllShrinks(f.master, finished);
    assert r.master.queue == DropAll(f.master, finished).queue;
    forall i | 0 <= i < |r.master.queue|
      ensures r.master.queue[i].session in r.nodes
      ensures Accounts(r.nodes[r.master.queue[i].session], r.master.queue[i].id)
    {
      assert r.master.queue[i] in f.master.queue;
    }
  }

  /** Without failing requests, an action keeps every queued entry accounted for
      if and only if it does not abandon one. */
  lemma CoveredUnlessAbandoned(f: Fleet, action: Action)
    requires Inv(f) && Covered(f) && Possible(f, action) && !RequestFails(f, action)
    ensures Covered(After(f, action)) <==> !Abandons(f, action)
  {
    match action
    case Spawn(s, budgetMax) => SpawnCovers(f, s, budgetMax);
    case Act(s, input) => ActCovers(f, s, input);
    case Handle(s, ok) => HandleCovers(f, s, ok);
    case DispatchSend(s, _) => StopCovers(f, s, action);
    case DispatchAck =>
    case DispatchLose =>
    case Crash(s) => StopCovers(f, s, action);
    case Lose(s) => StopCovers(f, s, action);
    case Stop(s) => StopCovers(f, s, action);
    case Attach(s, _, _, _) => AttachCovers(f, s, action);
    case Reassign(s, budgetMax) => ReassignCovers(f, s, budgetMax);
    case RestartMaster(finished) => RestartCovers(f, finished);
  }
}
