/** What every run of the fleet keeps: brokers may crash, be stopped, attached
    or reassigned, requests may fail, the master may restart. */
module FleetSafety {
  import opened Protocol
  import opened BrokerModel
  import BrokerSafety
  import BrokerRuns
  import opened EscalationQueue
  import opened MasterModel
  import MasterSafety
  import opened FleetModel
  import opened Subsequences

  /** The broker waits for the master to take a new escalation. */
  predicate RaiseUnhandled(n: Node) {
    n.broker.pc.Raising? && n.reply.None?
  }

  ghost predicate NodeInv(f: Fleet, n: Node) {
    && BrokerSafety.Inv(n.broker)
    && n.broker.used <= f.ids
    && (RaiseUnhandled(n) ==> n.broker.pc.id !in f.taken)
  }

  /** A decision waiting to be typed answers the head, or an escalation that has
      left the queue for good. */
  ghost predicate DispatchInv(f: Fleet, n: Node) {
    forall id: EscalationId | BrokerRuns.DeliveryPending(n.broker, id) ::
      id in f.taken && (Queued(f.master.queue, id) ==> Head(f.master.queue) == Some(id))
  }

  ghost predicate MasterInv(f: Fleet) {
    && MasterSafety.Inv(f.master)
    && OnePerSession(f.master.queue)
    && (forall i | 0 <= i < |f.master.queue| ::
          f.master.queue[i].session in f.nodes && f.master.queue[i].session in f.master.known)
    && (forall id | id in f.master.accepted :: id in f.taken)
    && f.taken.Keys <= f.ids
  }

  ghost predicate Apart(f: Fleet) {
    forall s, t | s in f.nodes && t in f.nodes && s != t :: f.nodes[s].broker.used !! f.nodes[t].broker.used
  }

  ghost predicate Inv(f: Fleet) {
    && MasterInv(f)
    && (forall s | s in f.nodes :: NodeInv(f, f.nodes[s]) && DispatchInv(f, f.nodes[s]))
    && Apart(f)
  }

  // ----- what handling a request does to the queue

  ghost predicate Queued(q: seq<Entry>, id: EscalationId) {
    exists i | 0 <= i < |q| :: q[i].id == id
  }

  /** `r` is what is left of `q` after entries were taken out. */
  ghost predicate Shrinks(q: seq<Entry>, r: seq<Entry>) {
    && (forall i | 0 <= i < |r| :: r[i] in q)
    && (OnePerSession(q) ==> OnePerSession(r))
    && (q != [] && NoRepeats(Ids(q)) ==> forall i | 0 <= i < |r| :: r[i].id == q[0].id ==> i == 0)
  }

  lemma HeadOnce(q: seq<Entry>)
    requires q != [] && NoRepeats(Ids(q))
    ensures forall j | 0 <= j < |q| :: q[j].id == q[0].id ==> j == 0
  {
    forall j | 0 <= j < |q|
      ensures q[j].id == q[0].id ==> j == 0
    {
      assert Ids(q)[j] == q[j].id && Ids(q)[0] == q[0].id;
    }
  }

  lemma WithoutShrinks(q: seq<Entry>, i: nat)
    ensures Shrinks(q, Without(q, i))
  {
    var r := Without(q, i);
    assert forall k | 0 <= k < |r| :: r[k] == if k < i then q[k] else q[k + 1];
    if q != [] && NoRepeats(Ids(q)) {
      HeadOnce(q);
    }
  }

  /** The queue after a request was handled. */
  function QueueAfter(m: Master, s: SessionId, request: Request): seq<Entry> {
    match request
    case Escalation(id) =>
      if EscalationReply(m, Entry(id, s)).Accepted? then m.queue + [Entry(id, s)] else m.queue
    case EscalationRetract(id) => Without(m.queue, PositionOf(m.queue, id))
    case DecisionDelivered(id) => if Head(m.queue) == Some(id) then Without(m.queue, 0) else m.queue
    case DecisionUndelivered(id, stillLive) =>
      if stillLive then m.queue else Without(m.queue, PositionOf(m.queue, id))
    case FatalError => Without(m.queue, PositionFor(m.queue, s))
    case SessionEnded => if s in m.known then Without(m.queue, PositionFor(m.queue, s)) else m.queue
    case _ => m.queue
  }

  /** `r` differs from `m` in the queue, now `q`, and in the two markers only. */
  predicate OnlyQueue(m: Master, r: Master, q: seq<Entry>) {
    r.queue == q && r.known == m.known && r.accepted == m.accepted
  }

  lemma RetractChanges(m: Master, id: EscalationId)
    ensures OnlyQueue(m, OnRetract(m, id), Without(m.queue, PositionOf(m.queue, id)))
  {
  }

  lemma StrandedChanges(m: Master, s: SessionId)
    ensures OnlyQueue(m, RetractStranded(m, s), Without(m.queue, PositionFor(m.queue, s)))
  {
  }

  lemma DeliveredChanges(m: Master, id: EscalationId)
    ensures OnlyQueue(m, OnDelivered(m, id), if Head(m.queue) == Some(id) then Without(m.queue, 0) else m.queue)
  {
    assert m.queue != [] ==> m.queue[1..] == Without(m.queue, 0);
  }

  lemma OnRequestChanges(m: Master, s: SessionId, request: Request)
    requires !(request.Escalation? && EscalationReply(m, Entry(request.id, s)).Accepted?)
    ensures OnlyQueue(if request.SessionEnded? then m.(known := m.known - {s}) else m,
                      OnRequest(m, s, request), QueueAfter(m, s, request))
  {
    match request
    case EscalationRetract(id) => RetractChanges(m, id);
    case DecisionDelivered(id) => DeliveredChanges(m, id);
    case DecisionUndelivered(id, _) => RetractChanges(m, id);
    case FatalError => StrandedChanges(m, s);
    case SessionEnded => StrandedChanges(m.(known := m.known - {s}), s); assert s !in m.known ==>
        m.known - {s} == m.known;
    case _ =>
  }

  lemma QueueAfterShrinks(m: Master, s: SessionId, request: Request)
    requires !(request.Escalation? && EscalationReply(m, Entry(request.id, s)).Accepted?)
    ensures Shrinks(m.queue, QueueAfter(m, s, request))
  {
    WithoutShrinks(m.queue, 0);
    WithoutShrinks(m.queue, |m.queue|);
    if request.EscalationRetract? || request.DecisionUndelivered? {
      WithoutShrinks(m.queue, PositionOf(m.queue, request.id));
    }
    WithoutShrinks(m.queue, PositionFor(m.queue, s));
  }

  // ----- one action at a time

  /** The queue only lost entries, or gained one that was never in it. */
  ghost predicate QueueMoves(f: Fleet, r: Fleet) {
    || Shrinks(f.master.queue, r.master.queue)
    || (r.master.queue != [] && r.master.queue[..|r.master.queue| - 1] == f.master.queue &&
        r.master.queue[|r.master.queue| - 1].id !in f.taken)
  }

  /** A broker that did not move keeps its part of the invariant. */
  lemma BystanderKeeps(f: Fleet, r: Fleet, n: Node)
    requires NodeInv(f, n) && DispatchInv(f, n) && NoRepeats(Ids(f.master.queue))
    requires f.ids <= r.ids && f.taken.Keys <= r.taken.Keys && QueueMoves(f, r)
    requires RaiseUnhandled(n) ==> n.broker.pc.id !in r.taken
    ensures NodeInv(r, n) && DispatchInv(r, n)
  {
    forall id: EscalationId | BrokerRuns.DeliveryPending(n.broker, id) && Queued(r.master.queue, id)
      ensures Head(r.master.queue) == Some(id)
    {
      assert Queued(f.master.queue, id);
      assert f.master.queue[0].id == id;
    }
  }

  lemma ActNodeKeeps(f: Fleet, s: SessionId, input: Input)
    requires Inv(f) && Possible(f, Act(s, input))
    ensures NodeInv(ActStep(f, s, input), ActStep(f, s, input).nodes[s])
    ensures DispatchInv(ActStep(f, s, input), ActStep(f, s, input).nodes[s])
    ensures ActStep(f, s, input).nodes[s].broker.used <= f.nodes[s].broker.used + (ActStep(f, s, input).ids - f.ids)
  {
    var b := f.nodes[s].broker;
    var r := ActStep(f, s, input);
    BrokerSafety.StepKeeps(b, input);
    if BrokerSafety.IsHandler(input) {
      BrokerSafety.HandlerHandled(b, input);
    } else {
      BrokerSafety.SegmentAdvances(b, input);
    }
    forall id: EscalationId | BrokerRuns.DeliveryPending(r.nodes[s].broker, id)
      ensures BrokerRuns.DeliveryPending(b, id)
    {
      BrokerRuns.StepDeliversDispatched(b, input, id);
    }
  }

  /** A step of one broker leaves the others and what they used alone. */
  lemma ActOthersKeep(f: Fleet, s: SessionId, input: Input, t: SessionId)
    requires Possible(f, Act(s, input)) && t in f.nodes && t != s
    requires NodeInv(f, f.nodes[t]) && DispatchInv(f, f.nodes[t]) && NoRepeats(Ids(f.master.queue))
    requires ActStep(f, s, input).nodes[s].broker.used <=
             f.nodes[s].broker.used + (ActStep(f, s, input).ids - f.ids)
    requires f.nodes[t].broker.used !! f.nodes[s].broker.used
    ensures NodeInv(ActStep(f, s, input), f.nodes[t]) && DispatchInv(ActStep(f, s, input), f.nodes[t])
    ensures f.nodes[t].broker.used !! ActStep(f, s, input).nodes[s].broker.used
  {
    WithoutShrinks(f.master.queue, |f.master.queue|);
    BystanderKeeps(f, ActStep(f, s, input), f.nodes[t]);
  }

  lemma ActKeeps(f: Fleet, s: SessionId, input: Input)
    requires Inv(f) && Possible(f, Act(s, input))
    ensures Inv(ActStep(f, s, input))
  {
    var r := ActStep(f, s, input);
    ActNodeKeeps(f, s, input);
    assert r.master == f.master && r.taken == f.taken;
    forall t | t in r.nodes && t != s
      ensures NodeInv(r, r.nodes[t]) && DispatchInv(r, r.nodes[t])
      ensures r.nodes[t].broker.used !! r.nodes[s].broker.used
    {
      ActOthersKeep(f, s, input, t);
    }
  }

  lemma AcceptChanges(m: Master, entry: Entry)
    requires EscalationReply(m, entry).Accepted?
    ensures OnEscalation(m, entry).queue == m.queue + [entry]
    ensures OnEscalation(m, entry).known == m.known
    ensures OnEscalation(m, entry).accepted == m.accepted + [entry.id]
  {
  }

  /** The master's part of the invariant once it took the entry of `s`. */
  lemma TakeKeeps(f: Fleet, r: Fleet, entry: Entry)
    requires MasterInv(f) && entry.id in f.ids && entry.id !in f.taken
    requires EscalationReply(f.master, entry).Accepted? && entry.session in f.nodes
    requires r.master == OnEscalation(f.master, entry) && r.nodes.Keys == f.nodes.Keys
    requires r.ids == f.ids && r.taken == f.taken[entry.id := entry.session]
    ensures MasterInv(r) && QueueMoves(f, r)
  {
    MasterSafety.OnEscalationKeeps(f.master, entry);
    AcceptChanges(f.master, entry);
    var q := f.master.queue;
    assert (q + [entry])[..|q|] == q;
    assert r.master.queue[|r.master.queue| - 1] == entry;
    forall i | 0 <= i < |q|
      ensures q[i].session != entry.session
    {
    }
  }

  lemma AcceptKeeps(f: Fleet, s: SessionId)
    requires MasterInv(f) && Possible(f, Handle(s, true)) && f.nodes[s].broker.pc.Raising? && NodeInv(f, f.nodes[s])
    ensures MasterInv(HandleStep(f, s, true)) && QueueMoves(f, HandleStep(f, s, true))
  {
    var n := f.nodes[s];
    var entry := Entry(n.broker.pc.id, s);
    assert n.broker.pc.id in n.broker.used;
    assert Outstanding(n.broker.pc) == Some(Escalation(entry.id));
    assert HandleStep(f, s, true).nodes.Keys == f.nodes.Keys;
    TakeKeeps(f, HandleStep(f, s, true), entry);
  }

  /** The sessions of the entries left are known to the master that is left. */
  lemma WithdrawKnown(f: Fleet, s: SessionId, request: Request)
    requires MasterInv(f) && !(request.Escalation? && EscalationReply(f.master, Entry(request.id, s)).Accepted?)
    ensures forall i | 0 <= i < |QueueAfter(f.master, s, request)| ::
              QueueAfter(f.master, s, request)[i].session in f.nodes
              && QueueAfter(f.master, s, request)[i].session in OnRequest(f.master, s, request).known
  {
    var q := QueueAfter(f.master, s, request);
    OnRequestChanges(f.master, s, request);
    QueueAfterShrinks(f.master, s, request);
    if request.SessionEnded? && s in f.master.known {
      EndedLeaves(f.master, s);
    }
    forall i | 0 <= i < |q|
      ensures q[i].session in f.nodes && q[i].session in OnRequest(f.master, s, request).known
    {
      assert q[i] in f.master.queue;
    }
  }

  lemma WithdrawKeeps(f: Fleet, s: SessionId, ok: bool)
    requires Inv(f) && Possible(f, Handle(s, ok)) && !(f.nodes[s].broker.pc.Raising? && ok)
    ensures MasterInv(HandleStep(f, s, ok)) && QueueMoves(f, HandleStep(f, s, ok))
  {
    var n := f.nodes[s];
    var request := Outstanding(n.broker.pc).value;
    assert NodeInv(f, n);
    MasterSafety.OnRequestKeeps(f.master, s, request);
    OnRequestChanges(f.master, s, request);
    QueueAfterShrinks(f.master, s, request);
    WithdrawKnown(f, s, request);
  }

  lemma EndedLeaves(m: Master, s: SessionId)
    requires OnePerSession(m.queue)
    ensures !Holds(Without(m.queue, PositionFor(m.queue, s)), s)
  {
  }

  lemma HandleMasterKeeps(f: Fleet, s: SessionId, ok: bool)
    requires Inv(f) && Possible(f, Handle(s, ok))
    ensures MasterInv(HandleStep(f, s, ok)) && QueueMoves(f, HandleStep(f, s, ok))
  {
    assert NodeInv(f, f.nodes[s]);
    if f.nodes[s].broker.pc.Raising? && ok {
      AcceptKeeps(f, s);
    } else {
      WithdrawKeeps(f, s, ok);
    }
  }

  /** An escalation taken into the queue is not one another broker raises. */
  lemma HandleTakesOwn(f: Fleet, s: SessionId, ok: bool, t: SessionId)
    requires Inv(f) && Possible(f, Handle(s, ok)) && t in f.nodes && t != s && RaiseUnhandled(f.nodes[t])
    ensures f.nodes[t].broker.pc.id !in HandleStep(f, s, ok).taken
  {
    assert NodeInv(f, f.nodes[t]) && NodeInv(f, f.nodes[s]);
    assert f.nodes[t].broker.used !! f.nodes[s].broker.used;
    assert f.nodes[t].broker.pc.id in f.nodes[t].broker.used;
  }

  lemma HandleKeeps(f: Fleet, s: SessionId, ok: bool)
    requires Inv(f) && Possible(f, Handle(s, ok))
    ensures Inv(HandleStep(f, s, ok))
  {
    var r := HandleStep(f, s, ok);
    HandleMasterKeeps(f, s, ok);
    forall t | t in r.nodes
      ensures NodeInv(r, r.nodes[t]) && DispatchInv(r, r.nodes[t])
    {
      assert NodeInv(f, f.nodes[t]) && DispatchInv(f, f.nodes[t]);
      if t == s {
        BystanderKeeps(f, r, r.nodes[s]);
      } else {
        if RaiseUnhandled(f.nodes[t]) {
          HandleTakesOwn(f, s, ok, t);
        }
        BystanderKeeps(f, r, f.nodes[t]);
      }
    }
  }

  /** An action that leaves every other broker alone and keeps the queue, or
      only takes entries out of it. */
  lemma MoveNodeKeeps(f: Fleet, r: Fleet, s: SessionId, n: Node)
    requires Inv(f) && MasterInv(r) && Shrinks(f.master.queue, r.master.queue)
    requires r.nodes == f.nodes[s := n] && r.ids == f.ids && r.taken == f.taken
    requires NodeInv(r, n) && DispatchInv(r, n)
    requires n.broker.used == {} || (s in f.nodes && n.broker.used == f.nodes[s].broker.used)
    ensures Inv(r)
  {
    forall t | t in r.nodes
      ensures NodeInv(r, r.nodes[t]) && DispatchInv(r, r.nodes[t])
    {
      if t != s {
        BystanderKeeps(f, r, f.nodes[t]);
      }
    }
  }

  /** A new broker has raised nothing and has nothing to deliver. */
  lemma NewNodeFits(f: Fleet, b: Broker)
    requires BrokerModel.Initial(b)
    ensures NodeInv(f, Node(b, true, None)) && DispatchInv(f, Node(b, true, None))
  {
  }

  lemma SpawnKeeps(f: Fleet, s: SessionId, budgetMax: nat)
    requires Inv(f) && Possible(f, Spawn(s, budgetMax))
    ensures Inv(After(f, Spawn(s, budgetMax)))
  {
    var r := After(f, Spawn(s, budgetMax));
    NewNodeFits(r, Spawned(budgetMax, 0));
    WithoutShrinks(f.master.queue, |f.master.queue|);
    MoveNodeKeeps(f, r, s, r.nodes[s]);
  }

  lemma DispatchSendKeeps(f: Fleet, s: SessionId, id: EscalationId)
    requires Inv(f) && Possible(f, DispatchSend(s, id))
    ensures Inv(After(f, DispatchSend(s, id)))
  {
    var r := After(f, DispatchSend(s, id));
    assert NodeInv(f, f.nodes[s]) && DispatchInv(f, f.nodes[s]);
    assert f.master.queue[0].id in f.master.accepted;
    WithoutShrinks(f.master.queue, |f.master.queue|);
    MasterSafety.DispatchKeeps(f.master, id);
    MoveNodeKeeps(f, r, s, r.nodes[s]);
  }

  /** The end of a dispatch touches the markers only. */
  lemma DispatchEndKeeps(f: Fleet, action: Action)
    requires Inv(f) && Possible(f, action) && (action.DispatchAck? || action.DispatchLose?)
    ensures Inv(After(f, action))
  {
    var r := After(f, action);
    MasterSafety.DispatchKeeps(f.master, 0);
    WithoutShrinks(f.master.queue, |f.master.queue|);
    forall t | t in r.nodes
      ensures NodeInv(r, r.nodes[t]) && DispatchInv(r, r.nodes[t])
    {
      BystanderKeeps(f, r, f.nodes[t]);
    }
  }

  lemma StoppedMoves(f: Fleet, s: SessionId, action: Action)
    requires Possible(f, action) && (action == Crash(s) || action == Lose(s) || action == Stop(s))
    ensures var r := After(f, action);
            && r.master.queue == f.master.queue && r.taken == f.taken && r.ids == f.ids
            && r.nodes == f.nodes[s := r.nodes[s]]
            && (r.nodes[s] == f.nodes[s].(up := false) || r.nodes[s] == f.nodes[s].(reply := Some(false)))
  {
  }

  lemma StoppedMaster(f: Fleet, s: SessionId, action: Action)
    requires MasterInv(f) && Possible(f, action) && (action == Crash(s) || action == Lose(s) || action == Stop(s))
    ensures MasterInv(After(f, action))
  {
  }

  lemma StoppedFits(f: Fleet, n: Node, stopped: Node)
    requires NodeInv(f, n) && DispatchInv(f, n)
    requires stopped == n.(up := false) || stopped == n.(reply := Some(false))
    ensures NodeInv(f, stopped) && DispatchInv(f, stopped)
  {
  }

  lemma StopKeeps(f: Fleet, s: SessionId, action: Action)
    requires Inv(f) && Possible(f, action) && (action == Crash(s) || action == Lose(s) || action == Stop(s))
    ensures Inv(After(f, action))
  {
    var r := After(f, action);
    assert NodeInv(f, f.nodes[s]) && DispatchInv(f, f.nodes[s]);
    StoppedMoves(f, s, action);
    StoppedMaster(f, s, action);
    StoppedFits(f, f.nodes[s], r.nodes[s]);
    WithoutShrinks(f.master.queue, |f.master.queue|);
    BystanderKeeps(f, r, r.nodes[s]);
    MoveNodeKeeps(f, r, s, r.nodes[s]);
  }

  lemma AttachKeeps(f: Fleet, s: SessionId, budgetMax: nat, budget: nat, completed: bool)
    requires Inv(f) && Possible(f, Attach(s, budgetMax, budget, completed))
    ensures Inv(After(f, Attach(s, budgetMax, budget, completed)))
  {
    var r := After(f, Attach(s, budgetMax, budget, completed));
    NewNodeFits(r, Attached(budgetMax, budget, completed));
    MasterSafety.RetractStrandedKeeps(f.master, s);
    StrandedChanges(f.master, s);
    WithoutShrinks(f.master.queue, PositionFor(f.master.queue, s));
    MoveNodeKeeps(f, r, s, r.nodes[s]);
  }

  lemma ReassignKeeps(f: Fleet, s: SessionId, budgetMax: nat)
    requires Inv(f) && Possible(f, Reassign(s, budgetMax))
    ensures Inv(After(f, Reassign(s, budgetMax)))
  {
    var r := After(f, Reassign(s, budgetMax));
    NewNodeFits(r, Reassigned(budgetMax));
    WithoutShrinks(f.master.queue, |f.master.queue|);
    MoveNodeKeeps(f, r, s, r.nodes[s]);
  }

  lemma ShrinksTwice(q: seq<Entry>, r: seq<Entry>, u: seq<Entry>)
    requires Shrinks(q, r) && Shrinks(r, u) && NoRepeats(Ids(r))
    ensures Shrinks(q, u)
  {
    if q != [] && NoRepeats(Ids(q)) {
      forall i | 0 <= i < |u| && u[i].id == q[0].id
        ensures i == 0
      {
        assert u[i] in r;
      }
    }
  }

  lemma {:induction false} DropAllShrinks(m: Master, finished: seq<SessionId>)
    requires OnePerSession(m.queue) && NoRepeats(Ids(m.queue))
    requires forall i | 0 <= i < |m.queue| :: m.queue[i].session in m.known
    ensures Shrinks(m.queue, DropAll(m, finished).queue)
    ensures forall i | 0 <= i < |DropAll(m, finished).queue| ::
              DropAll(m, finished).queue[i].session in DropAll(m, finished).known
    decreases |finished|
  {
    if finished == [] {
      WithoutShrinks(m.queue, |m.queue|);
    } else {
      var dropped := Drop(m, finished[0]);
      EndedLeaves(m, finished[0]);
      WithoutShrinks(m.queue, PositionFor(m.queue, finished[0]));
      MasterSafety.DropKeepsQueue(m, finished[0]);
      DropAllShrinks(dropped, finished[1..]);
      MasterSafety.DropAllKeepsQueue(dropped, finished[1..]);
      ShrinksTwice(m.queue, dropped.queue, DropAll(m, finished).queue);
    }
  }

  /** A restart reloads what is left of the queue. */
  lemma RestartMasterKeeps(f: Fleet, finished: seq<SessionId>)
    requires MasterInv(f) && Possible(f, RestartMaster(finished))
    ensures MasterInv(After(f, RestartMaster(finished)))
    ensures Shrinks(f.master.queue, After(f, RestartMaster(finished)).master.queue)
  {
    var m, r := DropAll(f.master, finished), Restart(f.master, finished);
    DropAllShrinks(f.master, finished);
    MasterSafety.RestartEstablishes(f.master, finished);
    assert r.queue == m.queue && r.known == m.known && r.accepted == Ids(m.queue);
    ReloadedKeeps(f, After(f, RestartMaster(finished)));
  }

  lemma ReloadedKeeps(f: Fleet, r: Fleet)
    requires MasterInv(f) && MasterSafety.Inv(r.master) && Shrinks(f.master.queue, r.master.queue)
    requires r.nodes == f.nodes && r.ids == f.ids && r.taken == f.taken && r.master.accepted == Ids(r.master.queue)
    requires forall i | 0 <= i < |r.master.queue| :: r.master.queue[i].session in r.master.known
    ensures MasterInv(r)
  {
    var q := r.master.queue;
    forall i | 0 <= i < |q|
      ensures q[i].session in r.nodes && q[i].id in r.taken
    {
      assert q[i] in f.master.queue;
    }
    forall id | id in r.master.accepted
      ensures id in r.taken
    {
      var i :| 0 <= i < |q| && Ids(q)[i] == id;
      assert q[i].id == id;
    }
  }

  lemma RestartKeeps(f: Fleet, finished: seq<SessionId>)
    requires Inv(f) && Possible(f, RestartMaster(finished))
    ensures Inv(After(f, RestartMaster(finished)))
  {
    var r := After(f, RestartMaster(finished));
    RestartMasterKeeps(f, finished);
    forall t | t in r.nodes
      ensures NodeInv(r, r.nodes[t]) && DispatchInv(r, r.nodes[t])
    {
      BystanderKeeps(f, r, f.nodes[t]);
    }
  }

  /** Every action keeps the invariant of the fleet. */
  lemma ActionKeeps(f: Fleet, action: Action)
    requires Inv(f) && Possible(f, action)
    ensures Inv(After(f, action))
  {
    match action
    case Spawn(s, budgetMax) => SpawnKeeps(f, s, budgetMax);
    case Act(s, input) => ActKeeps(f, s, input);
    case Handle(s, ok) => HandleKeeps(f, s, ok);
    case DispatchSend(s, id) => DispatchSendKeeps(f, s, id);
    case DispatchAck => DispatchEndKeeps(f, action);
    case DispatchLose => DispatchEndKeeps(f, action);
    case Crash(s) => StopKeeps(f, s, action);
    case Lose(s) => StopKeeps(f, s, action);
    case Stop(s) => StopKeeps(f, s, action);
    case Attach(s, budgetMax, budget, completed) => AttachKeeps(f, s, budgetMax, budget, completed);
    case Reassign(s, budgetMax) => ReassignKeeps(f, s, budgetMax);
    case RestartMaster(finished) => RestartKeeps(f, finished);
  }
}
