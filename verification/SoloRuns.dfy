/** Runs of a fleet with one session, built step by step. */
module SoloRuns {
  import opened Protocol
  import opened BrokerModel
  import BrokerSafety
  import opened EscalationQueue
  import opened MasterModel
  import opened FleetModel
  import opened Capacity
  import opened FleetRuns

  ghost predicate Orderly(fleets: seq<Fleet>, actions: seq<Action>)
    requires |actions| <= |fleets|
  {
    forall i | 0 <= i < |actions| :: !RequestFails(fleets[i], actions[i]) && !actions[i].Reassign?
        && !actions[i].DispatchLose?
  }

  /** Some run without failing requests and reassignments ends in `f`. */
  ghost predicate Reachable(f: Fleet) {
    exists fleets, actions | Run(fleets, actions) :: Orderly(fleets, actions) && fleets[|actions|] == f
  }

  lemma StartReachable()
    ensures Reachable(Empty())
  {
    assert Run([Empty()], []) && Orderly([Empty()], []);
  }

  lemma ReachStep(f: Fleet, action: Action)
    requires Reachable(f) && Possible(f, action) && !RequestFails(f, action)
    requires !action.Reassign? && !action.DispatchLose?
    ensures Reachable(After(f, action))
  {
    var fleets, actions :| Run(fleets, actions) && Orderly(fleets, actions) && fleets[|actions|] == f;
    var fleets', actions' := fleets + [After(f, action)], actions + [action];
    forall i | 0 <= i < |actions'|
      ensures StepAt(fleets', actions', i)
    {
      if i < |actions| {
        assert StepAt(fleets, actions, i);
      }
    }
    assert Run(fleets', actions') && Orderly(fleets', actions');
  }

  // ----- a fleet of one session

  const Only: SessionId := 0

  function Solo(
      m: Master, b: Broker, reply: Option<bool>, ids: set<EscalationId>, taken: map<EscalationId, SessionId>): Fleet {
    Fleet(m, map[Only := Node(b, true, reply)], ids, taken)
  }

  ghost predicate Below(ids: set<EscalationId>, next: EscalationId) {
    forall id | id in ids :: id < next
  }

  /** The master and the broker may be in these states, all ids below `next`. */
  ghost predicate Reaches(m: Master, b: Broker, reply: Option<bool>, next: EscalationId) {
    exists ids, taken :: Below(ids, next) && Reachable(Solo(m, b, reply, ids, taken))
  }

  lemma Moves(m: Master, b: Broker, reply: Option<bool>, input: Input, next: EscalationId)
    requires Reaches(m, b, reply, next) && Enabled(b, input) && !input.DispatchDecision?
    requires SeesReply(Node(b, true, reply), input) && !(input.Resume? && input.outcome.Failed?)
    requires !BrokerSafety.IsHandler(input) ==> input.newId == next
    ensures Reaches(m, Step(b, input), if BrokerSafety.IsHandler(input) then reply else None, next + 1)
  {
    var ids, taken :| Below(ids, next) && Reachable(Solo(m, b, reply, ids, taken));
    var f := Solo(m, b, reply, ids, taken);
    var r := ActStep(f, Only, input);
    ReachStep(f, Act(Only, input));
    assert r == Solo(m, Step(b, input), r.nodes[Only].reply, r.ids, taken);
  }

  lemma Answer(m: Master, b: Broker, ok: bool, next: EscalationId)
    requires Reaches(m, b, None, next) && Outstanding(b.pc).Some?
    requires AnswersWith(m, Only, Outstanding(b.pc).value, ok)
    ensures Reaches(OnRequest(m, Only, Outstanding(b.pc).value), b, Some(ok), next)
  {
    var ids, taken :| Below(ids, next) && Reachable(Solo(m, b, None, ids, taken));
    var f := Solo(m, b, None, ids, taken);
    var r := HandleStep(f, Only, ok);
    ReachStep(f, Handle(Only, ok));
    assert r == Solo(r.master, b, Some(ok), ids, r.taken);
  }

  /** The running job goes on; if it asked the master, the master said yes. */
  lemma Proceed(m: Master, b: Broker, t: Transcript, next: EscalationId)
    requires Reaches(m, b, None, next) && Enabled(b, Resume(Ok, t, next))
    requires Outstanding(b.pc).Some? ==> AnswersWith(m, Only, Outstanding(b.pc).value, true)
    ensures Reaches(if Outstanding(b.pc).Some? then OnRequest(m, Only, Outstanding(b.pc).value) else m,
                    Continue(b, t), None, next + 1)
  {
    if Outstanding(b.pc).Some? {
      Answer(m, b, true, next);
      Moves(OnRequest(m, Only, Outstanding(b.pc).value), b, Some(true), Resume(Ok, t, next), next);
    } else {
      Moves(m, b, None, Resume(Ok, t, next), next);
    }
  }

  // ----- a task

  const Blank: Transcript := Readable(map[], 0, 0, true)

  function Known(queue: seq<Entry>): Master {
    var id := Head(queue);
    Master(queue, id, None, None, {Only}, if id.None? then [] else [id.value], Ids(queue))
  }

  /** The intent is grounded and the prompt proposed. */
  lemma Proposes(m: Master, b: Broker, next: EscalationId)
    requires Reaches(m, b, None, next) && b.pc == Opening(GroundingCall)
    ensures Reaches(m, b.(state := AwaitingApproval, pc := Opening(Approval)), None, next + 2)
  {
    Proceed(m, b, Blank, next);
    var proposed := Continue(b, Blank);
    Proceed(m, proposed, Blank, next + 1);
    assert Continue(proposed, Blank) == b.(state := AwaitingApproval, pc := Opening(Approval));
  }

  /** The prompt is approved and typed. */
  lemma Opens(m: Master, b: Broker, next: EscalationId)
    requires Reaches(m, b, None, next) && b.pc == Opening(Approval) && !Occupied(b) && !b.shutdown
    ensures Reaches(m, b.(state := Driving, launched := true, pc := Idle), None, next + 2)
  {
    Proceed(m, b, Blank, next);
    var opening := Continue(b, Blank);
    Proceed(m, opening, Blank, next + 1);
    assert Continue(opening, Blank) == b.(state := Driving, launched := true, pc := Idle);
  }

  /** Grounding, proposal, approval and the first prompt. */
  lemma Grounds(queue: seq<Entry>, b: Broker, next: EscalationId)
    requires Reaches(Known(queue), b, None, next) && b.pc == Opening(GroundingCall)
    requires !Occupied(b) && !b.shutdown
    ensures Reaches(Known(queue), b.(state := Driving, launched := true, pc := Idle), None, next + 4)
  {
    Proposes(Known(queue), b, next);
    Opens(Known(queue), b.(state := AwaitingApproval, pc := Opening(Approval)), next + 2);
  }

  /** A new session starts driving. */
  lemma Launches()
    ensures Reaches(Known([]), Spawned(1, 0).(state := Driving, launched := true, pc := Idle), None, 5)
  {
    StartReachable();
    ReachStep(Empty(), Spawn(Only, 1));
    assert After(Empty(), Spawn(Only, 1)) == Solo(Known([]), Spawned(1, 0), None, {}, map[]);
    Proceed(Known([]), Spawned(1, 0), Blank, 0);
    Grounds([], Continue(Spawned(1, 0), Blank), 1);
  }

  /** The turn that just ended is classified. */
  function Ended(b: Broker): Broker
    requires b.jobs != []
  {
    b.(jobs := b.jobs[1..], lastEvents := 0, pc := Classifying(Triage(0)))
  }

  lemma TurnEnds(m: Master, b: Broker, next: EscalationId)
    requires Reaches(m, b, None, next) && b.pc.Idle? && b.state.Driving?
    requires b.menu.None? && b.jobs != [] && b.jobs[0].TurnEnd?
    ensures Reaches(m, Ended(b), None, next + 1)
  {
    Moves(m, b, None, Dequeue(Blank, next), next);
    assert Step(b, Dequeue(Blank, next)) == Ended(b);
  }

  /** The classified turn is escalated. */
  function Escalating(b: Broker, id: EscalationId): Broker
    requires b.jobs != []
  {
    Raise(Ended(b), id, 0)
  }

  lemma Escalates(m: Master, b: Broker, next: EscalationId)
    requires Reaches(m, b, None, next) && b.pc.Idle? && b.state.Driving?
    requires b.menu.None? && b.jobs != [] && b.jobs[0].TurnEnd?
    ensures Reaches(m, Escalating(b, next + 1), None, next + 2)
  {
    TurnEnds(m, b, next);
    Moves(m, Ended(b), None, Resume(Triaged(EscalateCall), Blank, next + 1), next + 1);
  }
}
