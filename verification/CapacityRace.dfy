/** The capacity claim cannot hold without its condition: a run in which every
    request is answered and no session is reassigned, yet a raise is refused.

    A developer prompt is being typed into a completed session when a turn ends
    and the task is reactivated. The prompt puts the broker back to driving, so
    the turn end is classified and escalated; the reactivation queued behind it
    then forgets that escalation, and the next one finds its place taken. */
module CapacityRace {
  import opened Protocol
  import opened BrokerModel
  import opened EscalationQueue
  import opened MasterModel
  import opened FleetModel
  import opened FleetRuns
  import opened SoloRuns

  /** A driving session whose turn ends completes its task. */
  lemma Completes(m: Master, b: Broker, next: EscalationId)
    requires Reaches(m, b, None, next) && b.pc.Idle? && b.state.Driving? && b.jobs == []
    requires b.menu.None? && !b.shutdown && b.launched && !b.permissionPrompt
    ensures Reaches(m, b.(state := Completed, lastEvents := 0), None, next + 4)
  {
    Moves(m, b, None, StopHook, next);
    var stopped := Step(b, StopHook);
    TurnEnds(m, stopped, next + 1);
    Moves(m, Ended(stopped), None, Resume(Triaged(CompleteCall), Blank, next + 2), next + 2);
    var done := Step(Ended(stopped), Resume(Triaged(CompleteCall), Blank, next + 2));
    Proceed(m, done, Blank, next + 3);
    assert Continue(done, Blank) == b.(state := Completed, lastEvents := 0);
  }

  /** A developer prompt is being typed into a completed session when its turn
      ends and its task is reactivated. */
  function Colliding(b: Broker): Broker {
    b.(state := Grounding, jobs := [TurnEnd, Reactivate], pc := Relaying(PromptWrite))
  }

  lemma Collides(m: Master, b: Broker, next: EscalationId)
    requires Reaches(m, b, None, next) && b.pc.Idle? && b.state.Completed? && b.jobs == []
    requires b.menu.None? && !b.permissionPrompt
    ensures Reaches(m, Colliding(b), None, next + 4)
  {
    Moves(m, b, None, SendPromptRequest, next);
    var asked := Enqueue(b, DeveloperPrompt);
    Moves(m, asked, None, Dequeue(Blank, next + 1), next + 1);
    var typing := b.(pc := Relaying(PromptWrite));
    assert Step(asked, Dequeue(Blank, next + 1)) == typing;
    Moves(m, typing, None, StopHook, next + 2);
    var both := Step(typing, StopHook);
    Moves(m, both, None, ReactivateRequest, next + 3);
    assert Step(both, ReactivateRequest).jobs == [TurnEnd, Reactivate];
  }

  /** The prompt is typed: driving again, with both jobs queued behind it. */
  lemma Prompted(m: Master, b: Broker, next: EscalationId)
    requires Reaches(m, b, None, next) && b.pc == Relaying(PromptWrite) && Only in m.known
    requires !b.shutdown && b.launched && b.active.None?
    ensures Reaches(m, b.(state := Driving, budget := 0, pc := Idle), None, next + 2)
  {
    Proceed(m, b, Blank, next);
    var typed := Continue(b, Blank);
    Proceed(m, typed, Blank, next + 1);
    assert Continue(typed, Blank) == b.(state := Driving, budget := 0, pc := Idle);
  }

  /** The escalation is queued, and the reactivation behind it forgets it. */
  lemma Forgotten(b: Broker, next: EscalationId)
    requires Reaches(Known([]), b, None, next) && b.pc.Idle? && b.state.Driving? && b.jobs == [TurnEnd, Reactivate]
    requires b.menu.None? && !b.shutdown && b.launched && !b.permissionPrompt
    ensures exists r: Broker, queue: seq<Entry> | |queue| == 1 && queue[0].session == Only ::
              Reaches(Known(queue), r, None, next + 9)
              && r.pc.Idle? && r.state.Driving? && r.jobs == [] && r.menu.None? && !r.permissionPrompt
  {
    Escalates(Known([]), b, next);
    var raised := Escalating(b, next + 1);
    var m := Known([Entry(next + 1, Only)]);
    assert OnRequest(Known([]), Only, Escalation(next + 1)) == m;
    Proceed(Known([]), raised, Blank, next + 2);
    var waiting := Continue(raised, Blank);
    Moves(m, waiting, None, Dequeue(Blank, next + 3), next + 3);
    var forgot := Step(waiting, Dequeue(Blank, next + 3));
    Proceed(m, forgot, Blank, next + 4);
    Grounds([Entry(next + 1, Only)], Continue(forgot, Blank), next + 5);
  }

  /** There is a run without a failing request and without a reassignment in
      which a raise is refused because the session's entry still waits. */
  lemma RefusedAfterRace()
    ensures exists f | Reachable(f) :: RefusedForCapacity(f, Handle(Only, false))
  {
    Launches();
    var driving := Spawned(1, 0).(state := Driving, launched := true, pc := Idle);
    Completes(Known([]), driving, 5);
    var completed := driving.(state := Completed, lastEvents := 0);
    Collides(Known([]), completed, 9);
    Prompted(Known([]), Colliding(completed), 13);
    Forgotten(Colliding(completed).(state := Driving, budget := 0, pc := Idle), 15);
    var r: Broker, queue: seq<Entry> :| |queue| == 1 && queue[0].session == Only &&
      Reaches(Known(queue), r, None, 24)
      && r.pc.Idle? && r.state.Driving? && r.jobs == [] && r.menu.None? && !r.permissionPrompt;
    RefusedNext(queue, r, 24);
  }

  /** The next escalation of a session whose entry still waits is refused. */
  lemma RefusedNext(queue: seq<Entry>, b: Broker, next: EscalationId)
    requires Reaches(Known(queue), b, None, next) && Holds(queue, Only)
    requires b.pc.Idle? && b.state.Driving? && b.jobs == [] && b.menu.None?
    ensures exists f | Reachable(f) :: RefusedForCapacity(f, Handle(Only, false))
  {
    Moves(Known(queue), b, None, StopHook, next);
    var stopped := Step(b, StopHook);
    Escalates(Known(queue), stopped, next + 1);
    RefusesRaise(queue, Escalating(stopped, next + 2), next + 3);
  }

  lemma RefusesRaise(queue: seq<Entry>, b: Broker, next: EscalationId)
    requires Reaches(Known(queue), b, None, next) && b.pc.Raising? && Holds(queue, Only)
    ensures exists f | Reachable(f) :: RefusedForCapacity(f, Handle(Only, false))
  {
    var ids, taken :| Below(ids, next) && Reachable(Solo(Known(queue), b, None, ids, taken));
    assert RefusedForCapacity(Solo(Known(queue), b, None, ids, taken), Handle(Only, false));
  }
}
