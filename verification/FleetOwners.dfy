/** Which session an escalation belongs to, and what is left at its broker once
    it is out of the queue. */
module FleetOwners {
  import opened Protocol
  import opened BrokerModel
  import BrokerSafety
  import BrokerLoop
  import BrokerRuns
  import opened BrokerSilence
  import opened EscalationQueue
  import opened MasterModel
  import opened FleetModel
  import opened FleetSafety
  import opened Subsequences

  /** What the broker of `s` raised and what it is to deliver belongs to `s`. */
  ghost predicate Owns(f: Fleet, s: SessionId, n: Node) {
    && BrokerLoop.Loop(n.broker)
    && (forall id | id in n.broker.used && id in f.taken :: f.taken[id] == s)
    && (forall id: EscalationId | BrokerRuns.DeliveryPending(n.broker, id) :: id in f.taken && f.taken[id] == s)
  }

  ghost predicate QueueOwned(f: Fleet) {
    forall i | 0 <= i < |f.master.queue| ::
      f.master.queue[i].id in f.taken && f.taken[f.master.queue[i].id] == f.master.queue[i].session
  }

  /** `id` was in the queue and is not any more. */
  ghost predicate Gone(f: Fleet, id: EscalationId) {
    id in f.taken && !Queued(f.master.queue, id)
  }

  ghost predicate LeftBehind(f: Fleet, n: Node) {
    n.up ==> forall id: EscalationId | Gone(f, id) :: Left(n.broker, id)
  }

  ghost predicate Owned(f: Fleet) {
    && Inv(f) && QueueOwned(f)
    && forall s | s in f.nodes :: Owns(f, s, f.nodes[s]) && LeftBehind(f, f.nodes[s])
  }

  /** From `f` to `r` only escalations of `mover` left the queue. */
  ghost predicate OnlyLeft(f: Fleet, r: Fleet, mover: set<SessionId>) {
    && (forall id | id in f.taken :: id in r.taken && r.taken[id] == f.taken[id])
    && (forall id: EscalationId | Gone(r, id) && !Gone(f, id) :: id in f.taken && f.taken[id] in mover)
  }

  /** A broker of another session has nothing to do with what left. */
  lemma BystanderOwns(f: Fleet, r: Fleet, t: SessionId, n: Node, mover: set<SessionId>)
    requires BrokerSafety.Inv(n.broker) && Owns(f, t, n) && LeftBehind(f, n) && OnlyLeft(f, r, mover)
    requires t !in mover || !n.up
    requires forall id | id in n.broker.used && id in r.taken && id !in f.taken :: r.taken[id] == t
    ensures Owns(r, t, n) && LeftBehind(r, n)
  {
    if n.up {
      forall id: EscalationId | Gone(r, id)
        ensures Left(n.broker, id)
      {
        if !Gone(f, id) {
          assert f.taken[id] != t;
          assert !BrokerRuns.DeliveryPending(n.broker, id);
        }
      }
    }
  }

  /** A new broker owns nothing and has nothing left. */
  lemma NewNodeOwns(f: Fleet, s: SessionId, b: Broker)
    requires BrokerModel.Initial(b)
    ensures Owns(f, s, Node(b, true, None)) && LeftBehind(f, Node(b, true, None))
  {
  }

  // ----- the broker moves

  lemma ActOwns(f: Fleet, s: SessionId, input: Input)
    requires Owned(f) && Possible(f, Act(s, input))
    ensures Owns(ActStep(f, s, input), s, ActStep(f, s, input).nodes[s])
  {
    var b := f.nodes[s].broker;
    var r := ActStep(f, s, input);
    assert NodeInv(f, f.nodes[s]) && Owns(f, s, f.nodes[s]);
    BrokerLoop.StepKeepsLoop(b, input);
    ActNodeKeeps(f, s, input);
    forall id: EscalationId | BrokerRuns.DeliveryPending(r.nodes[s].broker, id)
      ensures BrokerRuns.DeliveryPending(b, id)
    {
      BrokerRuns.StepDeliversDispatched(b, input, id);
    }
  }

  lemma ActLeaves(f: Fleet, s: SessionId, input: Input)
    requires Owned(f) && Possible(f, Act(s, input))
    ensures LeftBehind(ActStep(f, s, input), ActStep(f, s, input).nodes[s])
  {
    var n := f.nodes[s];
    var r := ActStep(f, s, input);
    assert NodeInv(f, n) && Owns(f, s, n) && LeftBehind(f, n);
    forall id: EscalationId | Gone(r, id)
      ensures Left(r.nodes[s].broker, id)
    {
      assert Gone(f, id);
      LeftStays(n.broker, input, id);
    }
  }

  lemma ActOwned(f: Fleet, s: SessionId, input: Input)
    requires Owned(f) && Possible(f, Act(s, input))
    ensures Owned(ActStep(f, s, input))
  {
    var r := ActStep(f, s, input);
    ActKeeps(f, s, input);
    ActOwns(f, s, input);
    ActLeaves(f, s, input);
    forall t | t in r.nodes
      ensures Owns(r, t, r.nodes[t]) && LeftBehind(r, r.nodes[t])
    {
      if t != s {
        assert NodeInv(f, f.nodes[t]) && Owns(f, t, f.nodes[t]) && LeftBehind(f, f.nodes[t]);
        BystanderOwns(f, r, t, f.nodes[t], {});
      }
    }
  }

  // ----- the master handles a request

  /** The request takes the entry out of the queue, if it is in there. */
  predicate TakesOut(s: SessionId, request: Request, entry: Entry) {
    match request
    case EscalationRetract(id) => id == entry.id
    case DecisionDelivered(id) => id == entry.id
    case DecisionUndelivered(id, stillLive) => id == entry.id && !stillLive
    case FatalError => entry.session == s
    case SessionEnded => entry.session == s
    case _ => false
  }

  lemma NotTakenOut(m: Master, s: SessionId, request: Request, i: nat)
    requires i < |m.queue| && !TakesOut(s, request, m.queue[i])
    requires !(request.Escalation? && EscalationReply(m, Entry(request.id, s)).Accepted?)
    ensures Queued(QueueAfter(m, s, request), m.queue[i].id)
  {
    assert Queued(m.queue, m.queue[i].id);
    match request
    case EscalationRetract(id) => StillThere(m.queue, PositionOf(m.queue, id), i);
    case DecisionDelivered(id) => if Head(m.queue) == Some(id) { StillThere(m.queue, 0, i); }
    case DecisionUndelivered(id, stillLive) => if !stillLive { StillThere(m.queue, PositionOf(m.queue, id), i); }
    case FatalError => StillThere(m.queue, PositionFor(m.queue, s), i);
    case SessionEnded => StillThere(m.queue, PositionFor(m.queue, s), i);
    case _ =>
  }

  /** Only its own session's entry leaves the queue with a request. */
  lemma HandleTakesOut(f: Fleet, s: SessionId, ok: bool, id: EscalationId)
    requires QueueOwned(f) && s in f.nodes && NodeInv(f, f.nodes[s]) && Owns(f, s, f.nodes[s])
    requires Possible(f, Handle(s, ok)) && !(f.nodes[s].broker.pc.Raising? && ok)
    requires Queued(f.master.queue, id) && !Queued(HandleStep(f, s, ok).master.queue, id)
    ensures f.taken[id] == s && Left(f.nodes[s].broker, id)
  {
    var q := f.master.queue;
    var request := Outstanding(f.nodes[s].broker.pc).value;
    OnRequestChanges(f.master, s, request);
    var i :| 0 <= i < |q| && q[i].id == id;
    assert f.taken[id] == q[i].session;
    if TakesOut(s, request, q[i]) {
      OwnTakenOut(f, s, f.nodes[s], q[i]);
    } else {
      NotTakenOut(f.master, s, request, i);
    }
  }

  lemma OwnTakenOut(f: Fleet, s: SessionId, n: Node, entry: Entry)
    requires BrokerSafety.Inv(n.broker) && Owns(f, s, n) && Outstanding(n.broker.pc).Some?
    requires entry.id in f.taken && f.taken[entry.id] == entry.session
    requires TakesOut(s, Outstanding(n.broker.pc).value, entry)
    ensures f.taken[entry.id] == s && Left(n.broker, entry.id)
  {
    if n.broker.pc.Delivering? {
      assert BrokerRuns.DeliveryPending(n.broker, entry.id);
    }
  }

  lemma StillThere(q: seq<Entry>, k: nat, i: nat)
    requires i < |q| && i != k
    ensures Queued(Without(q, k), q[i].id)
  {
    var r := Without(q, k);
    var j := if i < k then i else if k < |q| then i - 1 else i;
    assert r[j] == q[i];
  }

  lemma AcceptKeepsQueued(f: Fleet, s: SessionId, id: EscalationId)
    requires Possible(f, Handle(s, true)) && f.nodes[s].broker.pc.Raising?
    requires Queued(f.master.queue, id)
    ensures Queued(HandleStep(f, s, true).master.queue, id)
  {
    AcceptChanges(f.master, Entry(f.nodes[s].broker.pc.id, s));
    var i :| 0 <= i < |f.master.queue| && f.master.queue[i].id == id;
    assert HandleStep(f, s, true).master.queue[i].id == id;
  }

  lemma AcceptQueues(f: Fleet, s: SessionId)
    requires Possible(f, Handle(s, true)) && NodeInv(f, f.nodes[s]) && f.nodes[s].broker.pc.Raising?
    ensures Queued(HandleStep(f, s, true).master.queue, f.nodes[s].broker.pc.id)
    ensures f.nodes[s].broker.pc.id !in f.taken
  {
    var q := f.master.queue;
    AcceptChanges(f.master, Entry(f.nodes[s].broker.pc.id, s));
    assert HandleStep(f, s, true).master.queue[|q|].id == f.nodes[s].broker.pc.id;
  }

  lemma HandleLeft(f: Fleet, s: SessionId, ok: bool, id: EscalationId)
    requires QueueOwned(f) && s in f.nodes && NodeInv(f, f.nodes[s]) && Owns(f, s, f.nodes[s])
    requires Possible(f, Handle(s, ok))
    requires Gone(HandleStep(f, s, ok), id) && !Gone(f, id)
    ensures id in f.taken && f.taken[id] == s && Left(f.nodes[s].broker, id)
  {
    if f.nodes[s].broker.pc.Raising? && ok {
      AcceptQueues(f, s);
      if Queued(f.master.queue, id) {
        AcceptKeepsQueued(f, s, id);
      }
    } else {
      HandleTakesOut(f, s, ok, id);
    }
  }

  lemma HandleTakes(f: Fleet, s: SessionId, ok: bool, id: EscalationId)
    requires s in f.nodes && NodeInv(f, f.nodes[s])
    requires Possible(f, Handle(s, ok)) && id in HandleStep(f, s, ok).taken
    ensures if id in f.taken then HandleStep(f, s, ok).taken[id] == f.taken[id]
            else id in f.nodes[s].broker.used
  {
  }

  lemma HandleOnlyLeft(f: Fleet, s: SessionId, ok: bool)
    requires Owned(f) && Possible(f, Handle(s, ok))
    ensures OnlyLeft(f, HandleStep(f, s, ok), {s})
  {
    forall id | id in f.taken
      ensures id in HandleStep(f, s, ok).taken && HandleStep(f, s, ok).taken[id] == f.taken[id]
    {
      HandleTakes(f, s, ok, id);
    }
    forall id: EscalationId | Gone(HandleStep(f, s, ok), id) && !Gone(f, id)
      ensures id in f.taken && f.taken[id] == s
    {
      HandleLeft(f, s, ok, id);
    }
  }

  lemma HandleQueueOwned(f: Fleet, s: SessionId, ok: bool)
    requires Owned(f) && Possible(f, Handle(s, ok))
    ensures QueueOwned(HandleStep(f, s, ok))
  {
    var n := f.nodes[s];
    var r := HandleStep(f, s, ok);
    assert NodeInv(f, n);
    if n.broker.pc.Raising? && ok {
      AcceptChanges(f.master, Entry(n.broker.pc.id, s));
    } else {
      var request := Outstanding(n.broker.pc).value;
      OnRequestChanges(f.master, s, request);
      QueueAfterShrinks(f.master, s, request);
      ShrinksOwned(f, r);
    }
  }

  lemma ShrinksOwned(f: Fleet, r: Fleet)
    requires QueueOwned(f) && Shrinks(f.master.queue, r.master.queue) && r.taken == f.taken
    ensures QueueOwned(r)
  {
    forall i | 0 <= i < |r.master.queue|
      ensures r.master.queue[i].id in r.taken
      ensures r.taken[r.master.queue[i].id] == r.master.queue[i].session
    {
      assert r.master.queue[i] in f.master.queue;
    }
  }

  lemma HandleOwns(f: Fleet, s: SessionId, ok: bool)
    requires Owned(f) && Possible(f, Handle(s, ok))
    ensures Owns(HandleStep(f, s, ok), s, HandleStep(f, s, ok).nodes[s])
    ensures LeftBehind(HandleStep(f, s, ok), HandleStep(f, s, ok).nodes[s])
  {
    var n := f.nodes[s];
    var r := HandleStep(f, s, ok);
    assert NodeInv(f, n) && Owns(f, s, n) && LeftBehind(f, n);
    HandleOnlyLeft(f, s, ok);
    if n.up {
      forall id: EscalationId | Gone(r, id)
        ensures Left(n.broker, id)
      {
        if !Gone(f, id) {
          HandleLeft(f, s, ok, id);
        }
      }
    }
  }

  lemma OthersOwn(f: Fleet, s: SessionId, ok: bool, t: SessionId)
    requires Owned(f) && Possible(f, Handle(s, ok)) && t in f.nodes && t != s
    ensures Owns(HandleStep(f, s, ok), t, f.nodes[t]) && LeftBehind(HandleStep(f, s, ok), f.nodes[t])
  {
    assert NodeInv(f, f.nodes[t]) && Owns(f, t, f.nodes[t]) && LeftBehind(f, f.nodes[t]);
    assert f.nodes[t].broker.used !! f.nodes[s].broker.used;
    HandleOnlyLeft(f, s, ok);
    forall id | id in f.nodes[t].broker.used && id in HandleStep(f, s, ok).taken
      ensures id in f.taken
    {
      HandleTakes(f, s, ok, id);
    }
    BystanderOwns(f, HandleStep(f, s, ok), t, f.nodes[t], {s});
  }

  lemma HandleOwned(f: Fleet, s: SessionId, ok: bool)
    requires Owned(f) && Possible(f, Handle(s, ok))
    ensures Owned(HandleStep(f, s, ok))
  {
    var r := HandleStep(f, s, ok);
    HandleKeeps(f, s, ok);
    HandleQueueOwned(f, s, ok);
    HandleOwns(f, s, ok);
    forall t | t in r.nodes
      ensures Owns(r, t, r.nodes[t]) && LeftBehind(r, r.nodes[t])
    {
      if t != s {
        OthersOwn(f, s, ok, t);
      }
    }
  }

  // ----- sessions, dispatches and restarts

  /** The broker of `s` is now `n`; of the queue only entries of `s` went. */
  lemma MoveOwned(f: Fleet, r: Fleet, s: SessionId, n: Node)
    requires Owned(f) && Inv(r) && QueueOwned(r)
    requires r.nodes == f.nodes[s := n] && r.taken == f.taken
    requires OnlyLeft(f, r, {s}) && Owns(r, s, n) && LeftBehind(r, n)
    ensures Owned(r)
  {
    forall t | t in r.nodes
      ensures Owns(r, t, r.nodes[t]) && LeftBehind(r, r.nodes[t])
    {
      if t != s {
        assert NodeInv(f, f.nodes[t]) && Owns(f, t, f.nodes[t]) && LeftBehind(f, f.nodes[t]);
        BystanderOwns(f, r, t, f.nodes[t], {s});
      }
    }
  }

  /** A broker that stopped, or whose lost request is answered. */
  lemma StopOwned(f: Fleet, s: SessionId, action: Action)
    requires Owned(f) && Possible(f, action) && (action == Crash(s) || action == Lose(s) || action == Stop(s))
    ensures Owned(After(f, action))
  {
    var r := After(f, action);
    ActionKeeps(f, action);
    assert Owns(f, s, f.nodes[s]) && LeftBehind(f, f.nodes[s]);
    MoveOwned(f, r, s, r.nodes[s]);
  }

  lemma NewNodeMoves(f: Fleet, s: SessionId, action: Action)
    requires Possible(f, action) && (action.Spawn? || action.Reassign?) && action.session == s
    ensures var r := After(f, action);
            && r.master.queue == f.master.queue && r.taken == f.taken && r.nodes == f.nodes[s := r.nodes[s]]
            && r.nodes[s] == Node(r.nodes[s].broker, true, None) && BrokerModel.Initial(r.nodes[s].broker)
  {
  }

  lemma NewNodeOwned(f: Fleet, s: SessionId, action: Action)
    requires Owned(f) && Possible(f, action) && (action.Spawn? || action.Reassign?) && action.session == s
    ensures Owned(After(f, action))
  {
    var r := After(f, action);
    ActionKeeps(f, action);
    NewNodeMoves(f, s, action);
    NewNodeOwns(r, s, r.nodes[s].broker);
    MoveOwned(f, r, s, r.nodes[s]);
  }

  lemma SendOwned(f: Fleet, s: SessionId, id: EscalationId)
    requires Owned(f) && Possible(f, DispatchSend(s, id))
    ensures Owned(After(f, DispatchSend(s, id)))
  {
    var r := After(f, DispatchSend(s, id));
    var n := r.nodes[s];
    ActionKeeps(f, DispatchSend(s, id));
    assert Owns(f, s, f.nodes[s]) && LeftBehind(f, f.nodes[s]);
    assert f.master.queue[0].id == id && f.taken[id] == s;
    assert r.master.queue == f.master.queue;
    SendOwns(f, r, s, f.nodes[s], id);
    MoveOwned(f, r, s, n);
  }

  lemma SendOwns(f: Fleet, r: Fleet, s: SessionId, n: Node, id: EscalationId)
    requires Owns(f, s, n) && LeftBehind(f, n) && id in f.taken && f.taken[id] == s && Queued(f.master.queue, id)
    requires r.taken == f.taken && r.master.queue == f.master.queue
    ensures Owns(r, s, n.(broker := Enqueue(n.broker, Deliver(id))))
    ensures LeftBehind(r, n.(broker := Enqueue(n.broker, Deliver(id))))
  {
    if n.up {
      forall other: EscalationId | Gone(r, other)
        ensures Left(Enqueue(n.broker, Deliver(id)), other)
      {
        assert Gone(f, other) && Left(n.broker, other) && other != id;
      }
    }
  }

  lemma SameOwns(f: Fleet, r: Fleet, t: SessionId, n: Node)
    requires Owns(f, t, n) && LeftBehind(f, n) && r.taken == f.taken && r.master.queue == f.master.queue
    ensures Owns(r, t, n) && LeftBehind(r, n)
  {
    if n.up {
      forall id: EscalationId | Gone(r, id)
        ensures Left(n.broker, id)
      {
        assert Gone(f, id);
      }
    }
  }

  lemma EndOwned(f: Fleet, action: Action)
    requires Owned(f) && Possible(f, action) && (action.DispatchAck? || action.DispatchLose?)
    ensures Owned(After(f, action))
  {
    var r := After(f, action);
    ActionKeeps(f, action);
    forall t | t in r.nodes
      ensures Owns(r, t, r.nodes[t]) && LeftBehind(r, r.nodes[t])
    {
      SameOwns(f, r, t, f.nodes[t]);
    }
  }

  /** Without its `k`-th entry the queue misses that escalation at most. */
  lemma WithoutOnlyLeft(f: Fleet, r: Fleet, k: nat, s: SessionId)
    requires QueueOwned(f) && r.taken == f.taken && r.master.queue == Without(f.master.queue, k)
    requires k < |f.master.queue| ==> f.master.queue[k].session == s
    ensures OnlyLeft(f, r, {s}) && QueueOwned(r)
  {
    WithoutShrinks(f.master.queue, k);
    ShrinksOwned(f, r);
    forall id: EscalationId | Gone(r, id) && !Gone(f, id)
      ensures id in f.taken && f.taken[id] == s
    {
      var i :| 0 <= i < |f.master.queue| && f.master.queue[i].id == id;
      if i != k {
        StillThere(f.master.queue, k, i);
      }
    }
  }

  lemma AttachOwned(f: Fleet, s: SessionId, action: Action)
    requires Owned(f) && Possible(f, action) && action.Attach? && action.session == s
    ensures Owned(After(f, action))
  {
    var r := After(f, action);
    ActionKeeps(f, action);
    StrandedChanges(f.master, s);
    WithoutOnlyLeft(f, r, PositionFor(f.master.queue, s), s);
    NewNodeOwns(r, s, r.nodes[s].broker);
    MoveOwned(f, r, s, r.nodes[s]);
  }

  /** Dropping finished sessions takes out their entries only. */
  lemma {:induction false} DropAllTakesOut(m: Master, finished: seq<SessionId>, i: nat)
    requires i < |m.queue| && !Queued(DropAll(m, finished).queue, m.queue[i].id)
    ensures m.queue[i].session in finished
    decreases |finished|
  {
    if finished == [] {
      assert Queued(m.queue, m.queue[i].id);
    } else if m.queue[i].session != finished[0] {
      var k := PositionFor(m.queue, finished[0]);
      var q := Without(m.queue, k);
      var j := if i < k || k >= |m.queue| then i else i - 1;
      assert q[j] == m.queue[i];
      DropAllTakesOut(Drop(m, finished[0]), finished[1..], j);
    }
  }

  lemma RestartOnlyLeft(f: Fleet, r: Fleet, finished: seq<SessionId>)
    requires QueueOwned(f) && OnePerSession(f.master.queue) && NoRepeats(Ids(f.master.queue))
    requires forall i | 0 <= i < |f.master.queue| :: f.master.queue[i].session in f.master.known
    requires r.taken == f.taken && r.master.queue == DropAll(f.master, finished).queue
    ensures OnlyLeft(f, r, set s | s in finished) && QueueOwned(r)
  {
    DropAllShrinks(f.master, finished);
    ShrinksOwned(f, r);
    forall id: EscalationId | Gone(r, id) && !Gone(f, id)
      ensures id in f.taken && f.taken[id] in finished
    {
      var i :| 0 <= i < |f.master.queue| && f.master.queue[i].id == id;
      DropAllTakesOut(f.master, finished, i);
    }
  }

  /** The owners of what a restart dropped are down. */
  lemma FinishedOwn(f: Fleet, r: Fleet, finished: seq<SessionId>, t: SessionId, n: Node)
    requires NodeInv(f, n) && Owns(f, t, n) && LeftBehind(f, n) && r.taken == f.taken
    requires OnlyLeft(f, r, set s | s in finished) && (t in finished ==> !n.up)
    ensures Owns(r, t, n) && LeftBehind(r, n)
  {
    BystanderOwns(f, r, t, n, set s | s in finished);
  }

  /** And a broker that is up has nothing to do with what they left. */
  lemma FinishedOwned(f: Fleet, r: Fleet, finished: seq<SessionId>)
    requires Owned(f) && Inv(r) && QueueOwned(r) && r.nodes == f.nodes && r.taken == f.taken
    requires OnlyLeft(f, r, set s | s in finished)
    requires forall t | t in f.nodes && t in finished :: !f.nodes[t].up
    ensures Owned(r)
  {
    forall t | t in r.nodes
      ensures Owns(r, t, r.nodes[t]) && LeftBehind(r, r.nodes[t])
    {
      FinishedOwn(f, r, finished, t, f.nodes[t]);
    }
  }

  lemma RestartQueue(m: Master, finished: seq<SessionId>)
    ensures Restart(m, finished).queue == DropAll(m, finished).queue
  {
  }

  lemma RestartOwned(f: Fleet, finished: seq<SessionId>)
    requires Owned(f) && Possible(f, RestartMaster(finished))
    ensures Owned(After(f, RestartMaster(finished)))
  {
    var r := After(f, RestartMaster(finished));
    ActionKeeps(f, RestartMaster(finished));
    assert r == f.(master := Restart(f.master, finished));
    RestartQueue(f.master, finished);
    RestartOnlyLeft(f, r, finished);
    FinishedOwned(f, r, finished);
  }

  /** Every action keeps owners apart and what is left behind harmless. */
  lemma ActionOwned(f: Fleet, action: Action)
    requires Owned(f) && Possible(f, action)
    ensures Owned(After(f, action))
  {
    match action
    case Spawn(s, _) => NewNodeOwned(f, s, action);
    case Act(s, input) => ActOwned(f, s, input);
    case Handle(s, ok) => HandleOwned(f, s, ok);
    case DispatchSend(s, id) => SendOwned(f, s, id);
    case DispatchAck => EndOwned(f, action);
    case DispatchLose => EndOwned(f, action);
    case Crash(s) => StopOwned(f, s, action);
    case Lose(s) => StopOwned(f, s, action);
    case Stop(s) => StopOwned(f, s, action);
    case Attach(s, _, _, _) => AttachOwned(f, s, action);
    case Reassign(s, _) => NewNodeOwned(f, s, action);
    case RestartMaster(finished) => RestartOwned(f, finished);
  }
}
