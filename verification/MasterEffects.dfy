/** What each message and each restart does to the master's queue and marker, said
    of the entries themselves. */
module MasterEffects {
  import opened Protocol
  import opened EscalationQueue
  import opened MasterModel
  import opened Subsequences
  import FleetSafety

  /** What is left of the queue, in its order. */
  function Remaining(leaves: Entry -> bool, q: seq<Entry>): seq<Entry> {
    if q == [] then []
    else Remaining(leaves, q[..|q| - 1]) + if leaves(q[|q| - 1]) then [] else [q[|q| - 1]]
  }

  lemma {:induction false} NoneLeave(leaves: Entry -> bool, q: seq<Entry>)
    requires forall e <- q :: !leaves(e)
    ensures Remaining(leaves, q) == q
  {
    if q != [] {
      var front, last := q[..|q| - 1], q[|q| - 1];
      assert q == front + [last] && last in q;
      NoneLeave(leaves, front);
    }
  }

  lemma {:induction false} OneLeaves(leaves: Entry -> bool, q: seq<Entry>, i: nat)
    requires forall j | 0 <= j < |q| :: leaves(q[j]) <==> j == i
    ensures Remaining(leaves, q) == Without(q, i)
  {
    if i >= |q| {
      NoneLeave(leaves, q);
    } else {
      var front := q[..|q| - 1];
      if i == |front| {
        NoneLeave(leaves, front);
        assert Without(q, i) == front + [];
      } else {
        OneLeaves(leaves, front, i);
        assert Without(q, i) == Without(front, i) + [q[|q| - 1]];
      }
    }
  }

  // ----- requests

  /** Handling the request takes `e` out of the queue: a retract or the report of a
      miss that is over names it, it is the head and was delivered, or its session
      failed or ended. */
  predicate Leaves(m: Master, session: SessionId, request: Request, e: Entry) {
    match request
    case EscalationRetract(id) => e.id == id
    case DecisionUndelivered(id, stillLive) => e.id == id && !stillLive
    case DecisionDelivered(id) => e.id == id && m.queue != [] && e == m.queue[0]
    case FatalError => e.session == session
    case SessionEnded => e.session == session && session in m.known
    case _ => false
  }

  /** The request is a new escalation of a known session without an entry. */
  predicate Taken(m: Master, session: SessionId, request: Request) {
    request.Escalation? && session in m.known && forall e <- m.queue :: e.session != session
  }

  /** The request is the report on the decision in flight, or takes its entry out. */
  predicate EndsFlight(m: Master, session: SessionId, request: Request, id: EscalationId) {
    || request == EscalationRetract(id) || request == DecisionDelivered(id)
    || request == DecisionUndelivered(id, true) || request == DecisionUndelivered(id, false)
    || exists e <- m.queue :: e.id == id && Leaves(m, session, request, e)
  }

  lemma LeavesById(q: seq<Entry>, leaves: Entry -> bool, id: EscalationId)
    requires NoRepeats(Ids(q)) && forall e <- q :: leaves(e) <==> e.id == id
    ensures Remaining(leaves, q) == Without(q, PositionOf(q, id))
  {
    var i := PositionOf(q, id);
    forall j | 0 <= j < |q|
      ensures leaves(q[j]) <==> j == i
    {
      assert q[j] in q && Ids(q)[j] == q[j].id && (i < |q| ==> Ids(q)[i] == q[i].id);
    }
    OneLeaves(leaves, q, i);
  }

  lemma LeavesBySession(q: seq<Entry>, leaves: Entry -> bool, session: SessionId)
    requires OnePerSession(q) && forall e <- q :: leaves(e) <==> e.session == session
    ensures Remaining(leaves, q) == Without(q, PositionFor(q, session))
  {
    var i := PositionFor(q, session);
    forall j | 0 <= j < |q|
      ensures leaves(q[j]) <==> j == i
    {
      assert q[j] in q;
    }
    OneLeaves(leaves, q, i);
  }

  lemma LeavesHead(q: seq<Entry>, leaves: Entry -> bool, id: EscalationId)
    requires NoRepeats(Ids(q)) && forall e <- q :: leaves(e) <==> e.id == id && e == q[0]
    ensures Remaining(leaves, q) == if Head(q) == Some(id) then q[1..] else q
  {
    forall j | 0 <= j < |q|
      ensures q[j] == q[0] <==> j == 0
    {
      assert Ids(q)[j] == q[j].id && Ids(q)[0] == q[0].id;
    }
    assert forall j | 0 <= j < |q| :: q[j] in q;
    if Head(q) == Some(id) {
      OneLeaves(leaves, q, 0);
    } else {
      NoneLeave(leaves, q);
    }
  }

  /** The queue a request leaves, entry by entry. */
  lemma RemainsAfter(m: Master, session: SessionId, request: Request)
    requires NoRepeats(Ids(m.queue)) && OnePerSession(m.queue) && !Taken(m, session, request)
    ensures FleetSafety.QueueAfter(m, session, request) ==
            Remaining(e => Leaves(m, session, request, e), m.queue)
  {
    var leaves := e => Leaves(m, session, request, e);
    var q := m.queue;
    match request
    case Escalation(id) => NoneLeave(leaves, q);
    case EscalationRetract(id) => LeavesById(q, leaves, id);
    case DecisionUndelivered(id, stillLive) =>
      if stillLive { NoneLeave(leaves, q); } else { LeavesById(q, leaves, id); }
    case DecisionDelivered(id) => LeavesHead(q, leaves, id);
    case FatalError => LeavesBySession(q, leaves, session);
    case SessionEnded =>
      if session in m.known { LeavesBySession(q, leaves, session); } else { NoneLeave(leaves, q); }
    case _ => NoneLeave(leaves, q);
  }

  lemma AcceptsExactly(m: Master, session: SessionId, id: EscalationId)
    ensures EscalationReply(m, Entry(id, session)).Accepted? <==> Taken(m, session, Escalation(id))
    ensures Taken(m, session, Escalation(id)) ==>
              OnEscalation(m, Entry(id, session)).queue == m.queue + [Entry(id, session)]
  {
    assert Holds(m.queue, session) <==> exists e <- m.queue :: e.session == session;
  }

  /** After a request the queue is what remains of it, in order, followed by the
      entry taken in. */
  lemma QueueExactly(m: Master, session: SessionId, request: Request)
    requires NoRepeats(Ids(m.queue)) && OnePerSession(m.queue)
    ensures OnRequest(m, session, request).queue ==
            Remaining(e => Leaves(m, session, request, e), m.queue)
            + if Taken(m, session, request) then [Entry(request.id, session)] else []
  {
    if request.Escalation? {
      AcceptsExactly(m, session, request.id);
    }
    if Taken(m, session, request) {
      NoneLeave(e => Leaves(m, session, request, e), m.queue);
    } else {
      FleetSafety.OnRequestChanges(m, session, request);
      RemainsAfter(m, session, request);
    }
  }

  /** The marker goes exactly with the report on its decision or with its entry. */
  lemma MarkerExactly(m: Master, session: SessionId, request: Request)
    requires NoRepeats(Ids(m.queue)) && OnePerSession(m.queue)
    ensures OnRequest(m, session, request).inflight ==
            if m.inflight.Some? && EndsFlight(m, session, request, m.inflight.value) then None else m.inflight
  {
    match request
    case FatalError => StrandedEnds(m, m, session, request);
    case SessionEnded =>
      if session in m.known {
        StrandedEnds(m, m.(known := m.known - {session}), session, request);
      }
    case EscalationRetract(id) => NamedEnds(m, session, request, id);
    case DecisionDelivered(id) => NamedEnds(m, session, request, id);
    case DecisionUndelivered(id, _) => NamedEnds(m, session, request, id);
    case _ =>
  }

  /** A report ends the flight of the decision it names and of no other. */
  lemma NamedEnds(m: Master, session: SessionId, request: Request, id: EscalationId)
    requires request in {EscalationRetract(id), DecisionDelivered(id), DecisionUndelivered(id, true),
                         DecisionUndelivered(id, false)}
    ensures forall other: EscalationId :: EndsFlight(m, session, request, other) <==> other == id
    ensures OnRequest(m, session, request).inflight == if m.inflight == Some(id) then None else m.inflight
  {
  }

  lemma StrandedEnds(m: Master, rest: Master, session: SessionId, request: Request)
    requires NoRepeats(Ids(m.queue)) && OnePerSession(m.queue)
    requires rest.queue == m.queue && rest.inflight == m.inflight
    requires request == FatalError || (request == SessionEnded && session in m.known)
    ensures RetractStranded(rest, session).inflight ==
            if m.inflight.Some? && EndsFlight(m, session, request, m.inflight.value) then None else m.inflight
  {
    if m.inflight.Some? {
      StrandedMarker(rest, session, m.inflight.value);
    } else {
      assert RetractStranded(rest, session).inflight == None;
    }
  }

  lemma StrandedMarker(m: Master, session: SessionId, id: EscalationId)
    requires NoRepeats(Ids(m.queue)) && OnePerSession(m.queue) && m.inflight == Some(id)
    ensures RetractStranded(m, session).inflight == None <==> exists e <- m.queue :: e.id == id && e.session == session
    ensures RetractStranded(m, session).inflight == None || RetractStranded(m, session).inflight == Some(id)
  {
    var i := PositionFor(m.queue, session);
    if e :| e in m.queue && e.id == id && e.session == session {
      var j :| 0 <= j < |m.queue| && m.queue[j] == e;
      assert i == j;
    }
    if i < |m.queue| {
      assert m.queue[i] in m.queue;
    }
  }

  // ----- restarts

  lemma {:induction false} RemainingTwice(a: Entry -> bool, b: Entry -> bool, q: seq<Entry>)
    ensures Remaining(a, Remaining(b, q)) == Remaining(e => a(e) || b(e), q)
  {
    if q != [] {
      var front, last := q[..|q| - 1], q[|q| - 1];
      RemainingTwice(a, b, front);
      var rest := Remaining(b, front);
      assert (rest + [last])[..|rest|] == rest && rest + [] == rest;
    }
  }

  lemma {:induction false} RemainingAlike(a: Entry -> bool, b: Entry -> bool, q: seq<Entry>)
    requires forall e :: a(e) <==> b(e)
    ensures Remaining(a, q) == Remaining(b, q)
  {
    if q != [] {
      RemainingAlike(a, b, q[..|q| - 1]);
    }
  }

  lemma {:induction false} DropAllRemaining(m: Master, finished: seq<SessionId>)
    requires OnePerSession(m.queue)
    ensures DropAll(m, finished).queue == Remaining((e: Entry) => e.session in finished, m.queue)
    ensures DropAll(m, finished).known == m.known - set s | s in finished
    decreases |finished|
  {
    if finished == [] {
      NoneLeave((e: Entry) => e.session in finished, m.queue);
    } else {
      var first, rest := finished[0], finished[1..];
      var gone, later := (e: Entry) => e.session == first, (e: Entry) => e.session in rest;
      LeavesBySession(m.queue, gone, first);
      DropAllRemaining(Drop(m, first), rest);
      RemainingTwice(later, gone, m.queue);
      RemainingAlike(e => later(e) || gone(e), (e: Entry) => e.session in finished, m.queue);
    }
  }

  /** A restarted master has the entries and sessions that are not finished, in
      order, nothing in flight, and announces the head anew. */
  lemma RestartExactly(m: Master, finished: seq<SessionId>)
    requires OnePerSession(m.queue)
    ensures var r := Restart(m, finished);
      && r.queue == Remaining((e: Entry) => e.session in finished, m.queue)
      && r.known == m.known - (set s | s in finished)
      && r.inflight == None && r.sending == None
      && r.announced == (if r.queue == [] then [] else [r.queue[0].id]) && r.surfaced == Head(r.queue)
  {
    DropAllRemaining(m, finished);
  }
}
