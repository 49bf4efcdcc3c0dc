/** The master's handling of decision escalations as a state machine. Every
    handler reads and writes the queue, the surfaced marker and the in-flight
    marker between two awaits, so each is one step; a dispatch is two, cut at the
    wait for the broker's acknowledgement. */
module MasterModel {
  import opened Protocol
  import opened EscalationQueue

  /** `sending` is the dispatch whose acknowledgement is awaited: the developer's
      tools run one at a time, so there is one at most. `announced` and
      `accepted` record, for the current master process, the escalations shown to
      the developer and the ones taken into the queue (the loaded ones first),
      oldest first. */
  datatype Master = Master(
    queue: seq<Entry>,
    surfaced: Option<EscalationId>,
    inflight: Option<EscalationId>,
    sending: Option<EscalationId>,
    known: set<SessionId>,
    announced: seq<EscalationId>,
    accepted: seq<EscalationId>)

  function SurfaceHead(m: Master): Master {
    if m.queue == [] || m.surfaced == Some(m.queue[0].id) then m
    else m.(surfaced := Some(m.queue[0].id), announced := m.announced + [m.queue[0].id])
  }

  function ClearInflight(m: Master, id: EscalationId): Master {
    if m.inflight == Some(id) then m.(inflight := None) else m
  }

  /** Removes the `i`-th entry and forgets that it was surfaced. */
  function Clear(m: Master, i: nat): Master {
    if i < |m.queue| then
      m.(queue := Without(m.queue, i), surfaced := if m.surfaced == Some(m.queue[i].id) then None else m.surfaced)
    else m
  }

  datatype Reply = Accepted | UnknownSession | SlotTaken

  function EscalationReply(m: Master, entry: Entry): Reply {
    if entry.session !in m.known then UnknownSession
    else if Holds(m.queue, entry.session) then SlotTaken
    else Accepted
  }

  function OnEscalation(m: Master, entry: Entry): Master {
    if EscalationReply(m, entry).Accepted?
    then SurfaceHead(m.(queue := m.queue + [entry], accepted := m.accepted + [entry.id]))
    else m
  }

  function OnRetract(m: Master, id: EscalationId): Master {
    var cleared := ClearInflight(m, id);
    SurfaceHead(Clear(cleared, PositionOf(m.queue, id)))
  }

  function OnDelivered(m: Master, id: EscalationId): Master {
    var cleared := ClearInflight(m, id);
    if Head(m.queue) == Some(id) then SurfaceHead(cleared.(queue := m.queue[1..], surfaced := None)) else cleared
  }

  function OnUndelivered(m: Master, id: EscalationId, stillLive: bool): Master {
    if stillLive then ClearInflight(m, id) else OnRetract(m, id)
  }

  /** Withdraws the entry of a session whose broker is gone or failed. */
  function RetractStranded(m: Master, session: SessionId): Master {
    var i := PositionFor(m.queue, session);
    if i < |m.queue| then SurfaceHead(Clear(ClearInflight(m, m.queue[i].id), i)) else m
  }

  function OnSessionEnded(m: Master, session: SessionId): Master {
    if session in m.known then RetractStranded(m.(known := m.known - {session}), session) else m
  }

  /** The state after a request of `session` was handled. */
  function OnRequest(m: Master, session: SessionId, request: Request): Master {
    match request
    case Escalation(id) => OnEscalation(m, Entry(id, session))
    case EscalationRetract(id) => OnRetract(m, id)
    case DecisionDelivered(id) => OnDelivered(m, id)
    case DecisionUndelivered(id, stillLive) => OnUndelivered(m, id, stillLive)
    case FatalError => RetractStranded(m, session)
    case SessionEnded => OnSessionEnded(m, session)
    case _ => m
  }

  /** A decision for `id` may be sent: it is the head and none is in flight. */
  predicate MayDispatch(m: Master, id: EscalationId) {
    Head(m.queue) == Some(id) && m.inflight == None
  }

  /** The decision for `id` is sent; nothing is marked before the broker answers. */
  function DispatchSent(m: Master, id: EscalationId): Master {
    m.(sending := Some(id))
  }

  /** The broker's acknowledgement arrived: the marker is set without another look
      at the queue. */
  function DispatchAcked(m: Master): Master {
    m.(inflight := m.sending, sending := None)
  }

  /** The acknowledgement did not arrive in time. */
  function DispatchLost(m: Master): Master {
    m.(sending := None)
  }

  /** A session was stopped: its entry is kept, its marker is not. */
  function StopSession(m: Master, session: SessionId): Master {
    if m.queue != [] && m.queue[0].session == session then ClearInflight(m, m.queue[0].id) else m
  }

  function AddSession(m: Master, session: SessionId): Master {
    m.(known := m.known + {session})
  }

  /** Startup found `session` finished: it leaves the registry and the queue. */
  function Drop(m: Master, session: SessionId): Master {
    m.(queue := Without(m.queue, PositionFor(m.queue, session)), known := m.known - {session})
  }

  function DropAll(m: Master, finished: seq<SessionId>): Master
    decreases |finished|
  {
    if finished == [] then m else DropAll(Drop(m, finished[0]), finished[1..])
  }

  /** A new master process: the queue and the registry are reloaded, finished
      sessions dropped, both markers forgotten, and the head announced. */
  function Restart(m: Master, finished: seq<SessionId>): Master {
    var reloaded := DropAll(m, finished);
    SurfaceHead(reloaded.(surfaced := None, inflight := None, sending := None, announced := [],
        accepted := Ids(reloaded.queue)))
  }
}
