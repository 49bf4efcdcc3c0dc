/** The master and all session brokers together. A broker waits for the answer
    to each request it sends before its loop goes on, so the request in transit
    from a session is read off the program counter of its broker; `reply` is the
    master's answer once it handled it. A dispatch is two steps: the decision is
    queued by the broker as it is sent, and what happens until the master sees the
    acknowledgement, if it does, is up to the run. */
module FleetModel {
  import opened Protocol
  import opened BrokerModel
  import BrokerSafety
  import opened EscalationQueue
  import opened MasterModel

  datatype Node = Node(broker: Broker, up: bool, reply: Option<bool>)

  /** `ids` are all escalation ids used so far; `taken` gives for those that ever
      entered the queue the session that raised them. */
  datatype Fleet = Fleet(
    master: Master,
    nodes: map<SessionId, Node>,
    ids: set<EscalationId>,
    taken: map<EscalationId, SessionId>)

  datatype Action =
    | Spawn(session: SessionId, budgetMax: nat)
    | Act(session: SessionId, input: Input)
    | Handle(session: SessionId, ok: bool)
    | DispatchSend(session: SessionId, id: EscalationId)
    | DispatchAck
    | DispatchLose
    | Crash(session: SessionId)
    | Lose(session: SessionId)
    | Stop(session: SessionId)
    | Attach(session: SessionId, budgetMax: nat, budget: nat, completed: bool)
    | Reassign(session: SessionId, budgetMax: nat)
    | RestartMaster(finished: seq<SessionId>)

  /** The session's broker waits for the master to handle a request. */
  predicate Unhandled(n: Node) {
    Outstanding(n.broker.pc).Some? && n.reply.None?
  }

  /** The answer the master gives to a request. Only a pane escalation is
      answered by parts of the master that are not modelled. */
  predicate AnswersWith(m: Master, session: SessionId, request: Request, ok: bool) {
    match request
    case Escalation(id) => ok == EscalationReply(m, Entry(id, session)).Accepted?
    case BudgetUpdate(_) => ok == (session in m.known)
    case PaneEscalation(_) => true
    case _ => ok
  }

  /** A resumed job sees the answer the master gave; `Failed` is a request that
      raised, whether or not it was handled. */
  predicate SeesReply(n: Node, input: Input) {
    input.Resume? && Outstanding(n.broker.pc).Some? ==>
      (input.outcome.Ok? ==> n.reply == Some(true)) && (input.outcome.Refused? ==> n.reply == Some(false))
  }

  predicate Possible(f: Fleet, action: Action) {
    match action
    case Spawn(s, _) => s !in f.nodes && s !in f.master.known
    case Act(s, input) =>
      && s in f.nodes && f.nodes[s].up
      && Enabled(f.nodes[s].broker, input) && !input.DispatchDecision?
      && SeesReply(f.nodes[s], input)
      && (BrokerSafety.IsHandler(input) || input.newId !in f.ids)
    case Handle(s, ok) =>
      && s in f.nodes && Unhandled(f.nodes[s])
      && AnswersWith(f.master, s, Outstanding(f.nodes[s].broker.pc).value, ok)
    case DispatchSend(s, id) =>
      && s in f.nodes && f.nodes[s].up && f.master.sending == None
      && MayDispatch(f.master, id) && f.master.queue[0].session == s
    case DispatchAck => f.master.sending.Some?
    case DispatchLose => f.master.sending.Some?
    case Crash(s) => s in f.nodes
    case Lose(s) => s in f.nodes && !f.nodes[s].up && Unhandled(f.nodes[s])
    case Stop(s) => s in f.nodes
    case Attach(s, _, _, _) => s in f.nodes && s in f.master.known && !f.nodes[s].up && !Unhandled(f.nodes[s])
    case Reassign(s, _) => s in f.nodes && s in f.master.known && !f.nodes[s].up && !Unhandled(f.nodes[s])
    case RestartMaster(finished) => forall s <- finished :: s in f.nodes && !f.nodes[s].up
  }

  function Put(f: Fleet, s: SessionId, n: Node): Fleet {
    f.(nodes := f.nodes[s := n])
  }

  /** The broker of `s` runs one step; a new await has no reply yet. */
  function ActStep(f: Fleet, s: SessionId, input: Input): Fleet
    requires Possible(f, Act(s, input))
  {
    var n := f.nodes[s];
    var broker := Step(n.broker, input);
    if BrokerSafety.IsHandler(input) then Put(f, s, n.(broker := broker))
    else Put(f, s, n.(broker := broker, reply := None)).(ids := f.ids + {input.newId})
  }

  /** The master handles the request the broker of `s` waits on. */
  function HandleStep(f: Fleet, s: SessionId, ok: bool): Fleet
    requires Possible(f, Handle(s, ok))
  {
    var n := f.nodes[s];
    var request := Outstanding(n.broker.pc).value;
    Put(f, s, n.(reply := Some(ok))).(
      master := OnRequest(f.master, s, request),
      taken := if request.Escalation? && ok then f.taken[request.id := s] else f.taken)
  }

  function After(f: Fleet, action: Action): Fleet
    requires Possible(f, action)
  {
    match action
    case Spawn(s, budgetMax) =>
      Put(f, s, Node(Spawned(budgetMax, 0), true, None)).(master := AddSession(f.master, s))
    case Act(s, input) => ActStep(f, s, input)
    case Handle(s, ok) => HandleStep(f, s, ok)
    case DispatchSend(s, id) =>
      var n := f.nodes[s];
      Put(f, s, n.(broker := Enqueue(n.broker, Deliver(id)))).(master := DispatchSent(f.master, id))
    case DispatchAck => f.(master := DispatchAcked(f.master))
    case DispatchLose => f.(master := DispatchLost(f.master))
    case Crash(s) => Put(f, s, f.nodes[s].(up := false))
    case Lose(s) => Put(f, s, f.nodes[s].(reply := Some(false)))
    case Stop(s) => Put(f, s, f.nodes[s].(up := false)).(master := StopSession(f.master, s))
    case Attach(s, budgetMax, budget, completed) =>
      Put(f, s, Node(Attached(budgetMax, budget, completed), true, None)).(master := RetractStranded(f.master, s))
    case Reassign(s, budgetMax) => Put(f, s, Node(Reassigned(budgetMax), true, None))
    case RestartMaster(finished) => f.(master := Restart(f.master, finished))
  }

  /** A new master with nothing queued and no sessions. */
  function Empty(): Fleet {
    Fleet(Master([], None, None, None, {}, [], []), map[], {}, map[])
  }
}
