/** The master's strict-FIFO queue of decision escalations: one live entry per
    session, the head is the one the developer sees. */
module EscalationQueue {
  import opened Protocol

  datatype Entry = Entry(id: EscalationId, session: SessionId)

  // ----- the queue as a value

  predicate Holds(q: seq<Entry>, session: SessionId) {
    exists i | 0 <= i < |q| :: q[i].session == session
  }

  /** Position of the entry `id`, or the length of the queue. */
  function PositionOf(q: seq<Entry>, id: EscalationId): (i: nat)
    ensures i <= |q|
    ensures i < |q| ==> q[i].id == id
    ensures forall j | 0 <= j < i :: q[j].id != id
  {
    if q == [] then 0 else if q[0].id == id then 0 else 1 + PositionOf(q[1..], id)
  }

  /** Position of the entry raised by `session`, or the length of the queue. */
  function PositionFor(q: seq<Entry>, session: SessionId): (i: nat)
    ensures i <= |q|
    ensures i < |q| ==> q[i].session == session
    ensures forall j | 0 <= j < i :: q[j].session != session
  {
    if q == [] then 0 else if q[0].session == session then 0 else 1 + PositionFor(q[1..], session)
  }

  /** The queue without its `i`-th entry; past the end nothing is removed. */
  function Without(q: seq<Entry>, i: nat): seq<Entry> {
    if i < |q| then q[..i] + q[i + 1..] else q
  }

  function At(q: seq<Entry>, i: nat): Option<Entry> {
    if i < |q| then Some(q[i]) else None
  }

  function Head(q: seq<Entry>): Option<EscalationId> {
    if q == [] then None else Some(q[0].id)
  }

  function Ids(q: seq<Entry>): seq<EscalationId> {
    seq(|q|, i requires 0 <= i < |q| => q[i].id)
  }

  /** No session has two entries. */
  ghost predicate OnePerSession(q: seq<Entry>) {
    forall i, j | 0 <= i < j < |q| :: q[i].session != q[j].session
  }

  // ----- the queue object

  class Queue {
    var entries: seq<Entry>

    constructor (loaded: seq<Entry>)
      ensures entries == loaded
    {
      entries := loaded;
    }

    /** Appends the entry, unless its session already has one. */
    method Accept(entry: Entry) returns (accepted: bool)
      modifies this
      ensures accepted == !Holds(old(entries), entry.session)
      ensures entries == if accepted then old(entries) + [entry] else old(entries)
      ensures old(OnePerSession(entries)) ==> OnePerSession(entries)
    {
      for i := 0 to |entries|
        invariant forall j | 0 <= j < i :: entries[j].session != entry.session
      {
        if entries[i].session == entry.session {
          return false;
        }
      }
      entries := entries + [entry];
      return true;
    }

    /** Clears the entry `id` wherever it waits. */
    method Retract(id: EscalationId) returns (cleared: Option<Entry>)
      modifies this
      ensures cleared == At(old(entries), PositionOf(old(entries), id))
      ensures entries == Without(old(entries), PositionOf(old(entries), id))
    {
      for i := 0 to |entries|
        invariant forall j | 0 <= j < i :: entries[j].id != id
      {
        if entries[i].id == id {
          cleared := Some(entries[i]);
          entries := entries[..i] + entries[i + 1..];
          return;
        }
      }
      cleared := None;
    }

    /** Clears `id` only if it is the head. */
    method Resolve(id: EscalationId) returns (cleared: Option<Entry>)
      modifies this
      ensures cleared.Some? <==> Head(old(entries)) == Some(id)
      ensures cleared.Some? ==> cleared.value == old(entries)[0] && entries == old(entries)[1..]
      ensures cleared.None? ==> entries == old(entries)
    {
      if entries != [] && entries[0].id == id {
        cleared := Some(entries[0]);
        entries := entries[1..];
      } else {
        cleared := None;
      }
    }

    /** Clears the entry raised by `session`. */
    method RetractForSession(session: SessionId) returns (cleared: Option<Entry>)
      modifies this
      ensures cleared == At(old(entries), PositionFor(old(entries), session))
      ensures entries == Without(old(entries), PositionFor(old(entries), session))
      ensures old(OnePerSession(entries)) ==> !Holds(entries, session)
    {
      for i := 0 to |entries|
        invariant forall j | 0 <= j < i :: entries[j].session != session
      {
        if entries[i].session == session {
          cleared := Some(entries[i]);
          entries := entries[..i] + entries[i + 1..];
          return;
        }
      }
      cleared := None;
    }
  }
}
