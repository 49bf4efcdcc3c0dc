/** What every run of one master process keeps. */
module MasterSafety {
  import opened Protocol
  import opened EscalationQueue
  import opened MasterModel
  import opened Subsequences

  /** What the developer has been shown followed by what still waits behind the
      head, or all of it while the queue is empty. */
  function ShownThenWaiting(m: Master): seq<EscalationId> {
    m.announced + if m.queue == [] then [] else Ids(m.queue)[1..]
  }

  /** The invariant at every suspension point of the handlers: the surfaced
      escalation is the head, announcements follow the order of acceptance, and
      no marker is set while an acknowledgement is awaited. */
  ghost predicate Inv(m: Master) {
    && m.surfaced == Head(m.queue)
    && (m.sending.Some? ==> m.inflight == None)
    && NoRepeats(m.accepted)
    && NoRepeats(Ids(m.queue))
    && (forall i | 0 <= i < |m.queue| :: m.queue[i].id in m.accepted)
    && Subsequence(ShownThenWaiting(m), m.accepted)
  }

  /** The decision in flight answers the head, or there is none. */
  predicate MarkerFits(m: Master) {
    m.inflight.Some? ==> m.inflight == Head(m.queue)
  }

  /** Every announcement is of an accepted escalation, in the order of
      acceptance, and none is made twice. */
  lemma AnnouncedInOrderOnce(m: Master)
    requires Inv(m)
    ensures Subsequence(m.announced, m.accepted) && NoRepeats(m.announced)
  {
    var waiting := if m.queue == [] then [] else Ids(m.queue)[1..];
    Prefix(m.announced, waiting, m.accepted);
    InheritsNoRepeats(m.announced, m.accepted);
  }

  /** Ids are uuids: a request that raises an escalation carries a new one. */
  predicate NewId(m: Master, request: Request) {
    request.Escalation? ==> request.id !in m.accepted
  }

  lemma IdsWithout(q: seq<Entry>, i: nat)
    requires i < |q|
    ensures Ids(Without(q, i)) == Ids(q)[..i] + Ids(q)[i + 1..]
  {
  }

  lemma AppendedIdsDiffer(m: Master, id: EscalationId)
    requires Inv(m) && id !in m.accepted
    ensures NoRepeats(Ids(m.queue) + [id]) && NoRepeats(m.accepted + [id])
  {
    forall i | 0 <= i < |m.queue|
      ensures Ids(m.queue)[i] != id
    {
      assert m.queue[i].id in m.accepted;
    }
  }

  lemma OnEscalationKeeps(m: Master, entry: Entry)
    requires Inv(m) && entry.id !in m.accepted
    ensures Inv(OnEscalation(m, entry)) && (MarkerFits(m) ==> MarkerFits(OnEscalation(m, entry)))
  {
    if EscalationReply(m, entry).Accepted? {
      var r := OnEscalation(m, entry);
      AppendedIdsDiffer(m, entry.id);
      AppendBoth(ShownThenWaiting(m), m.accepted, entry.id);
      assert Ids(r.queue) == Ids(m.queue) + [entry.id];
      assert ShownThenWaiting(r) == ShownThenWaiting(m) + [entry.id];
      assert r.queue == m.queue + [entry] && r.accepted == m.accepted + [entry.id];
      forall i | 0 <= i < |r.queue|
        ensures r.queue[i].id in r.accepted
      {
        if i < |m.queue| {
          assert m.queue[i].id in m.accepted;
        }
      }
    }
  }

  /** What stays true of the ids when the `i`-th entry is taken out. */
  lemma WithoutKeepsIds(q: seq<Entry>, accepted: seq<EscalationId>, i: nat)
    requires i < |q| && NoRepeats(Ids(q)) && forall j | 0 <= j < |q| :: q[j].id in accepted
    ensures NoRepeats(Ids(Without(q, i))) && forall j | 0 <= j < |Without(q, i)| :: Without(q, i)[j].id in accepted
  {
    IdsWithout(q, i);
  }

  lemma ClearKeepsOrder(m: Master, i: nat)
    requires m.surfaced == Head(m.queue) && NoRepeats(Ids(m.queue)) && i < |m.queue|
    requires Subsequence(ShownThenWaiting(m), m.accepted)
    ensures Subsequence(ShownThenWaiting(SurfaceHead(Clear(m, i))), m.accepted)
  {
    var r := SurfaceHead(Clear(m, i));
    IdsWithout(m.queue, i);
    assert Ids(m.queue)[i] == m.queue[i].id && Ids(m.queue)[0] == m.queue[0].id;
    if i == 0 {
      assert ShownThenWaiting(r) == ShownThenWaiting(m);
    } else {
      Remove(ShownThenWaiting(m), m.accepted, |m.announced| + i - 1);
      assert ShownThenWaiting(r) ==
             ShownThenWaiting(m)[..|m.announced| + i - 1] + ShownThenWaiting(m)[|m.announced| + i..];
    }
  }

  /** Removing the `i`-th entry and surfacing whatever is then the head. */
  lemma ClearKeeps(m: Master, i: nat)
    requires Inv(m) && i < |m.queue|
    ensures Inv(SurfaceHead(Clear(m, i)))
    ensures MarkerFits(m) && m.inflight != Some(m.queue[i].id) ==> MarkerFits(SurfaceHead(Clear(m, i)))
  {
    WithoutKeepsIds(m.queue, m.accepted, i);
    ClearKeepsOrder(m, i);
    assert Ids(m.queue)[i] == m.queue[i].id && Ids(m.queue)[0] == m.queue[0].id;
  }

  lemma OnRetractKeeps(m: Master, id: EscalationId)
    requires Inv(m)
    ensures Inv(OnRetract(m, id)) && (MarkerFits(m) ==> MarkerFits(OnRetract(m, id)))
  {
    var i := PositionOf(m.queue, id);
    if i < |m.queue| {
      ClearKeeps(ClearInflight(m, id), i);
    }
  }

  lemma OnDeliveredKeeps(m: Master, id: EscalationId)
    requires Inv(m)
    ensures Inv(OnDelivered(m, id)) && (MarkerFits(m) ==> MarkerFits(OnDelivered(m, id)))
  {
    if Head(m.queue) == Some(id) {
      ClearKeeps(ClearInflight(m, id), 0);
      assert Without(m.queue, 0) == m.queue[1..];
    }
  }

  lemma RetractStrandedKeeps(m: Master, session: SessionId)
    requires Inv(m)
    ensures Inv(RetractStranded(m, session)) && (MarkerFits(m) ==> MarkerFits(RetractStranded(m, session)))
  {
    var i := PositionFor(m.queue, session);
    if i < |m.queue| {
      ClearKeeps(ClearInflight(m, m.queue[i].id), i);
    }
  }

  lemma OnSessionEndedKeeps(m: Master, session: SessionId)
    requires Inv(m)
    ensures Inv(OnSessionEnded(m, session)) && (MarkerFits(m) ==> MarkerFits(OnSessionEnded(m, session)))
  {
    RetractStrandedKeeps(m.(known := m.known - {session}), session);
  }

  lemma OnUndeliveredKeeps(m: Master, id: EscalationId, stillLive: bool)
    requires Inv(m)
    ensures Inv(OnUndelivered(m, id, stillLive)) && (MarkerFits(m) ==> MarkerFits(OnUndelivered(m, id, stillLive)))
  {
    OnRetractKeeps(m, id);
  }

  lemma OnRequestKeeps(m: Master, session: SessionId, request: Request)
    requires Inv(m) && NewId(m, request)
    ensures Inv(OnRequest(m, session, request)) && (MarkerFits(m) ==> MarkerFits(OnRequest(m, session, request)))
  {
    match request
    case Escalation(id) => OnEscalationKeeps(m, Entry(id, session));
    case EscalationRetract(id) => OnRetractKeeps(m, id);
    case DecisionDelivered(id) => OnDeliveredKeeps(m, id);
    case DecisionUndelivered(id, stillLive) => OnUndeliveredKeeps(m, id, stillLive);
    case FatalError => RetractStrandedKeeps(m, session);
    case SessionEnded => OnSessionEndedKeeps(m, session);
    case _ =>
  }

  /** Of all a master process does, only an acknowledgement can unfit the marker:
      it does so if and only if the escalation is no longer the head. */
  lemma DispatchKeeps(m: Master, id: EscalationId)
    requires Inv(m)
    ensures MayDispatch(m, id) ==> Inv(DispatchSent(m, id)) && MarkerFits(DispatchSent(m, id))
    ensures Inv(DispatchLost(m)) && (MarkerFits(m) ==> MarkerFits(DispatchLost(m)))
    ensures Inv(DispatchAcked(m))
    ensures m.sending.Some? ==> (MarkerFits(DispatchAcked(m)) <==> m.sending == Head(m.queue))
  {
  }

  predicate Names(request: Request, id: EscalationId) {
    && (request.EscalationRetract? || request.DecisionDelivered? || request.DecisionUndelivered?)
    && request.id == id
  }

  /** A marker for an escalation no longer queued refuses every dispatch. Of all
      requests only one naming that escalation clears it; otherwise only a restart
      of the master does. */
  lemma UnqueuedMarkerBlocks(m: Master, id: EscalationId, other: EscalationId, session: SessionId, request: Request)
    requires m.inflight == Some(id) && id !in Ids(m.queue)
    ensures !MayDispatch(m, other)
    ensures OnRequest(m, session, request).inflight == (if Names(request, id) then None else Some(id))
  {
    var i := PositionFor(m.queue, session);
    assert i < |m.queue| ==> Ids(m.queue)[i] == m.queue[i].id;
  }

  lemma DropKeepsQueue(m: Master, session: SessionId)
    requires NoRepeats(Ids(m.queue))
    ensures NoRepeats(Ids(Drop(m, session).queue))
  {
    var i := PositionFor(m.queue, session);
    if i < |m.queue| {
      IdsWithout(m.queue, i);
    }
  }

  lemma {:induction false} DropAllKeepsQueue(m: Master, finished: seq<SessionId>)
    requires NoRepeats(Ids(m.queue))
    ensures NoRepeats(Ids(DropAll(m, finished).queue))
    decreases |finished|
  {
    if finished != [] {
      DropKeepsQueue(m, finished[0]);
      DropAllKeepsQueue(Drop(m, finished[0]), finished[1..]);
    }
  }

  /** A restart establishes the invariant for the new process. */
  lemma RestartEstablishes(m: Master, finished: seq<SessionId>)
    requires NoRepeats(Ids(m.queue))
    ensures Inv(Restart(m, finished)) && MarkerFits(Restart(m, finished))
  {
    DropAllKeepsQueue(m, finished);
    var r := Restart(m, finished);
    Reflexive(Ids(r.queue));
    if r.queue != [] {
      assert ShownThenWaiting(r) == Ids(r.queue);
    }
    forall i | 0 <= i < |r.queue|
      ensures r.queue[i].id in r.accepted
    {
      assert Ids(r.queue)[i] == r.queue[i].id;
    }
  }
}
