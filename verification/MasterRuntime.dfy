/** The master process: handlers that update the queue and the two markers step
    by step. Each one is proved to take the state the model gives. */
module MasterRuntime {
  import opened Protocol
  import opened EscalationQueue
  import opened MasterModel
  import MasterSafety
  import opened Subsequences

  datatype DispatchResult = Dispatched | NotLive | AlreadyInFlight(id: EscalationId) | Rejected

  /** Why a decision for `id` may not be sent, if it may not. */
  function DispatchRefusal(m: Master, id: EscalationId): (refusal: Option<DispatchResult>)
    ensures refusal.None? <==> MayDispatch(m, id)
    ensures refusal.Some? ==> !refusal.value.Dispatched?
  {
    if Head(m.queue) != Some(id) then Some(NotLive)
    else if m.inflight.Some? then Some(AlreadyInFlight(m.inflight.value))
    else None
  }

  class Runtime {
    const queue: Queue
    var surfaced: Option<EscalationId>
    var inflight: Option<EscalationId>
    var sending: Option<EscalationId>
    var known: set<SessionId>
    ghost var announced: seq<EscalationId>
    ghost var accepted: seq<EscalationId>

    ghost function State(): Master
      reads this, queue
    {
      Master(queue.entries, surfaced, inflight, sending, known, announced, accepted)
    }

    /** The invariant of the model: the surfaced escalation is the head, and what
        was announced follows what was accepted. Every handler keeps it. */
    ghost predicate Valid()
      reads this, queue
    {
      MasterSafety.Inv(State())
    }

    /** Starts a process on the reloaded queue and registry; `finished` are the
        sessions startup finds to be over. */
    constructor (loaded: seq<Entry>, registered: set<SessionId>, finished: seq<SessionId>, ghost last: Master)
      requires last.queue == loaded && last.known == registered && NoRepeats(Ids(loaded))
      ensures State() == Restart(last, finished) && Valid()
      ensures fresh(queue)
    {
      queue := new Queue(loaded);
      surfaced := None;
      inflight := None;
      sending := None;
      known := registered;
      announced := [];
      new;
      ghost var m := last;
      for i := 0 to |finished|
        invariant fresh(queue) && fresh(this) && queue.entries == m.queue && known == m.known
        invariant surfaced == inflight == sending == None && announced == []
        invariant DropAll(m, finished[i..]) == DropAll(last, finished)
      {
        var _ := queue.RetractForSession(finished[i]);
        known := known - {finished[i]};
        m := Drop(m, finished[i]);
        assert finished[i..][1..] == finished[i + 1..];
      }
      accepted := Ids(queue.entries);
      Surface();
      MasterSafety.RestartEstablishes(last, finished);
    }

    /** Announces the head, unless it was announced already. */
    method Surface()
      modifies this
      ensures State() == SurfaceHead(old(State()))
    {
      if queue.entries != [] && surfaced != Some(queue.entries[0].id) {
        surfaced := Some(queue.entries[0].id);
        announced := announced + [queue.entries[0].id];
      }
    }

    method DropInflight(id: EscalationId)
      modifies this
      ensures State() == ClearInflight(old(State()), id)
    {
      if inflight == Some(id) {
        inflight := None;
      }
    }

    method ReceiveEscalation(entry: Entry) returns (reply: Reply)
      requires Valid() && entry.id !in accepted
      modifies this, queue
      ensures reply == EscalationReply(old(State()), entry)
      ensures State() == OnEscalation(old(State()), entry)
      ensures Valid() && surfaced == Head(queue.entries)
    {
      MasterSafety.OnEscalationKeeps(State(), entry);
      if entry.session !in known {
        return UnknownSession;
      }
      var taken := queue.Accept(entry);
      if !taken {
        return SlotTaken;
      }
      accepted := accepted + [entry.id];
      Surface();
      return Accepted;
    }

    /** Forgets the surfaced marker of an entry taken out of the queue. */
    method Unsurface(cleared: Option<Entry>)
      modifies this
      ensures State() == old(State()).(surfaced :=
                if cleared.Some? && old(surfaced) == Some(cleared.value.id) then None else old(surfaced))
    {
      if cleared.Some? && surfaced == Some(cleared.value.id) {
        surfaced := None;
      }
    }

    method ReceiveRetract(id: EscalationId)
      requires Valid()
      modifies this, queue
      ensures State() == OnRetract(old(State()), id)
      ensures Valid() && surfaced == Head(queue.entries)
    {
      MasterSafety.OnRetractKeeps(State(), id);
      DropInflight(id);
      var cleared := queue.Retract(id);
      Unsurface(cleared);
      Surface();
    }

    method ReceiveDelivered(id: EscalationId)
      requires Valid()
      modifies this, queue
      ensures State() == OnDelivered(old(State()), id)
      ensures Valid() && surfaced == Head(queue.entries)
    {
      MasterSafety.OnDeliveredKeeps(State(), id);
      DropInflight(id);
      var cleared := queue.Resolve(id);
      if cleared.Some? {
        surfaced := None;
        Surface();
      }
    }

    method ReceiveUndelivered(id: EscalationId, stillLive: bool)
      requires Valid()
      modifies this, queue
      ensures State() == OnUndelivered(old(State()), id, stillLive)
      ensures Valid() && surfaced == Head(queue.entries)
    {
      MasterSafety.OnRetractKeeps(State(), id);
      DropInflight(id);
      if stillLive {
        return;
      }
      var cleared := queue.Retract(id);
      Unsurface(cleared);
      Surface();
    }

    method WithdrawFor(session: SessionId)
      requires Valid()
      modifies this, queue
      ensures State() == RetractStranded(old(State()), session)
      ensures Valid() && surfaced == Head(queue.entries)
    {
      MasterSafety.RetractStrandedKeeps(State(), session);
      var cleared := queue.RetractForSession(session);
      if cleared.None? {
        return;
      }
      DropInflight(cleared.value.id);
      Unsurface(cleared);
      Surface();
    }

    method ReceiveSessionEnded(session: SessionId)
      requires Valid()
      modifies this, queue
      ensures State() == OnSessionEnded(old(State()), session)
      ensures Valid() && surfaced == Head(queue.entries)
    {
      if session in known {
        known := known - {session};
        WithdrawFor(session);
      }
    }

    /** The first half of a dispatch: the decision is sent, or refused. */
    method BeginDispatch(id: EscalationId) returns (refusal: Option<DispatchResult>)
      requires Valid() && sending.None?
      modifies this`sending
      ensures refusal == DispatchRefusal(old(State()), id)
      ensures State() == if refusal.None? then DispatchSent(old(State()), id) else old(State())
      ensures Valid() && surfaced == Head(queue.entries)
    {
      if queue.entries == [] || queue.entries[0].id != id {
        return Some(NotLive);
      }
      if inflight.Some? {
        return Some(AlreadyInFlight(inflight.value));
      }
      sending := Some(id);
      return None;
    }

    /** The second half: the broker acknowledged, or did not in time. */
    method EndDispatch(acknowledged: bool) returns (r: DispatchResult)
      requires sending.Some?
      requires Valid()
      modifies this`sending, this`inflight
      ensures r == if acknowledged then Dispatched else Rejected
      ensures State() == if acknowledged then DispatchAcked(old(State())) else DispatchLost(old(State()))
      ensures Valid() && surfaced == Head(queue.entries)
    {
      if acknowledged {
        inflight := sending;
        r := Dispatched;
      } else {
        r := Rejected;
      }
      sending := None;
    }

    method Stop(session: SessionId)
      requires Valid()
      modifies this
      ensures State() == StopSession(old(State()), session)
      ensures Valid() && surfaced == Head(queue.entries)
    {
      if queue.entries != [] && queue.entries[0].session == session {
        DropInflight(queue.entries[0].id);
      }
    }

    /** A session was spawned. */
    method Register(session: SessionId)
      requires Valid()
      modifies this`known
      ensures State() == AddSession(old(State()), session)
      ensures Valid() && surfaced == Head(queue.entries)
    {
      known := known + {session};
    }

    /** Handles one message or tool call. */
    method Serve(message: Message)
      requires Valid() && NewMessage(State(), message)
      modifies this, queue
      ensures State() == Served(old(State()), message)
      ensures Valid() && surfaced == Head(queue.entries)
    {
      match message
      case Received(session, request) => Receive(session, request);
      case Decided(id) => if sending.None? { var _ := BeginDispatch(id); }
      case Answered(ok) => if sending.Some? { var _ := EndDispatch(ok); }
      case Stopped(session) => Stop(session);
      case Spawned(session) => Register(session);
    }

    method Receive(session: SessionId, request: Request)
      requires Valid() && MasterSafety.NewId(State(), request)
      modifies this, queue
      ensures State() == OnRequest(old(State()), session, request)
      ensures Valid() && surfaced == Head(queue.entries)
    {
      match request
      case Escalation(id) => var _ := ReceiveEscalation(Entry(id, session));
      case EscalationRetract(id) => ReceiveRetract(id);
      case DecisionDelivered(id) => ReceiveDelivered(id);
      case DecisionUndelivered(id, stillLive) => ReceiveUndelivered(id, stillLive);
      case FatalError => WithdrawFor(session);
      case SessionEnded => ReceiveSessionEnded(session);
      case _ =>
    }
  }

  // ----- a whole process

  /** What a master process handles: requests, the two halves of a dispatch, and
      sessions stopped and spawned. */
  datatype Message =
    | Received(session: SessionId, request: Request)
    | Decided(id: EscalationId)
    | Answered(ok: bool)
    | Stopped(session: SessionId)
    | Spawned(session: SessionId)

  function Served(m: Master, message: Message): Master {
    match message
    case Received(session, request) => OnRequest(m, session, request)
    case Decided(id) =>
      if m.sending.None? && DispatchRefusal(m, id).None? then DispatchSent(m, id) else m
    case Answered(ok) => if m.sending.None? then m else if ok then DispatchAcked(m) else DispatchLost(m)
    case Stopped(session) => StopSession(m, session)
    case Spawned(session) => AddSession(m, session)
  }

  predicate NewMessage(m: Master, message: Message) {
    message.Received? ==> MasterSafety.NewId(m, message.request)
  }

  function ServedAll(m: Master, messages: seq<Message>): Master {
    if messages == [] then m
    else Served(ServedAll(m, messages[..|messages| - 1]), messages[|messages| - 1])
  }

  /** Every raise carries an id of its own. */
  ghost predicate NewMessages(m: Master, messages: seq<Message>) {
    forall i | 0 <= i < |messages| :: NewMessage(ServedAll(m, messages[..i]), messages[i])
  }

  /** Runs a process from its start on all its messages: at its end as after each
      of them the head is surfaced, and what was announced is a repeat-free
      subsequence of what was accepted. */
  method Run(
      loaded: seq<Entry>, registered: set<SessionId>, finished: seq<SessionId>, ghost last: Master,
      messages: seq<Message>)
    returns (runtime: Runtime)
    requires last.queue == loaded && last.known == registered && NoRepeats(Ids(loaded))
    requires NewMessages(Restart(last, finished), messages)
    ensures runtime.State() == ServedAll(Restart(last, finished), messages)
    ensures runtime.surfaced == Head(runtime.queue.entries)
    ensures Subsequence(runtime.announced, runtime.accepted) && NoRepeats(runtime.announced)
  {
    runtime := new Runtime(loaded, registered, finished, last);
    ghost var start := Restart(last, finished);
    for i := 0 to |messages|
      invariant fresh(runtime) && fresh(runtime.queue) && runtime.Valid()
      invariant runtime.State() == ServedAll(start, messages[..i])
    {
      assert NewMessage(ServedAll(start, messages[..i]), messages[i]);
      assert messages[..i + 1][..i] == messages[..i];
      runtime.Serve(messages[i]);
    }
    assert messages[..|messages|] == messages;
    MasterSafety.AnnouncedInOrderOnce(runtime.State());
  }
}
