/** How a session broker that can still report on an escalation comes to do so:
    it finishes the running job, takes the queued ones in turn, and is sent a
    developer prompt if nothing else is left. */
module BrokerReports {
  import opened Protocol
  import opened BrokerModel
  import BrokerSafety
  import opened BrokerLoop
  import opened BrokerSilence

  // ----- the queue

  /** Retracting a picker changes nothing for the jobs before it. */
  lemma {:induction false} AheadStays(active: bool, open: bool, jobs: seq<Job>, more: seq<Job>, id: EscalationId)
    requires ReportAhead(active, open, jobs, id) && (forall j <- more :: j.RetractMenu?)
    ensures ReportAhead(active, open, jobs + more, id)
    decreases |jobs| + |more|
  {
    if jobs == [] {
      assert jobs + more == more;
      if more != [] {
        assert more[0] in more;
        AheadStays(active, open, [], more[1..], id);
        assert [] + more[1..] == more[1..];
      }
    } else if jobs[0] != Deliver(id) {
      assert (jobs + more)[0] == jobs[0] && (jobs + more)[1..] == jobs[1..] + more;
      if BrokerSafety.Forgets(jobs[0]) {
        AheadStays(false, open, jobs[1..], more, id);
      } else if ChecksMenu(jobs[0]) {
        AheadStays(active, false, jobs[1..], more, id);
      } else if jobs[0].VerifyFailed? {
        AheadStays(active, true, jobs[1..], more, id);
      } else if !(jobs[0].DeveloperPrompt? && active && !open) {
        AheadStays(active, open, jobs[1..], more, id);
      }
    }
  }

  /** What is left to run: claiming a picker may queue one more job. */
  function Weight(jobs: seq<Job>): nat {
    if jobs == [] then 0 else Weight(jobs[..|jobs| - 1]) + if jobs[|jobs| - 1].VerifyFailed? then 2 else 1
  }

  lemma {:induction false} WeightConcat(a: seq<Job>, b: seq<Job>)
    ensures Weight(a + b) == Weight(a) + Weight(b)
  {
    if b == [] {
      assert a + b == a;
    } else {
      WeightConcat(a, b[..|b| - 1]);
      assert (a + b)[..|a + b| - 1] == a + b[..|b| - 1];
    }
  }

  lemma WeightOfOne(job: Job)
    ensures Weight([job]) == if job.VerifyFailed? then 2 else 1
  {
    assert [job][..0] == [];
  }

  // ----- the next job

  /** A transcript that records the answer to the open picker. */
  function Answered(b: Broker): Transcript {
    Readable(if b.menu.Some? then map[b.menu.value.tool := None] else map[], 0, 0, false)
  }

  /** `job` took its first segment to `r`, and what leads to a report is left. */
  predicate Carries(b: Broker, job: Job, r: Broker, id: EscalationId) {
    && (b.active == Some(id) && !BrokerSafety.Forgets(job) ==> r.active == Some(id))
    && (r.jobs == b.jobs || (job.VerifyFailed? && r.jobs == b.jobs + ClaimJobs(b)))
    && !r.shutdown && r.launched && !Ending(r.pc)
    && (if ChecksMenu(job) then r.menu.None? else job.VerifyFailed? || r.menu == b.menu)
  }

  /** As `Quiet`, and an escalation of a failed session stays active. */
  predicate Calm(b: Broker, r: Broker, id: EscalationId) {
    && r.menu == b.menu && r.jobs == b.jobs && r.shutdown == b.shutdown && r.launched == b.launched
    && (b.active == Some(id) ==> r.active == Some(id)) && (b.launched && !b.shutdown ==> !Ending(r.pc))
  }

  lemma StopCalm(b: Broker, id: EscalationId)
    ensures Calm(b, Done(b), id) && Calm(b, Fail(b), id)
  {
  }

  lemma AfterResolutionCalm(b: Broker, t: Transcript, next: Next, id: EscalationId)
    ensures Calm(b, AfterResolution(b, t, next), id)
  {
    StopCalm(b, id);
  }

  lemma CheckOutOfBandCalm(b: Broker, t: Transcript, next: Next, id: EscalationId)
    requires b.active == Some(id) ==> Failing(b.state)
    ensures Calm(b, CheckOutOfBand(b, t, next), id)
  {
    StopCalm(b, id);
    AfterResolutionCalm(b, t, next, id);
  }

  lemma AfterMenuCalm(b: Broker, t: Transcript, next: Next, id: EscalationId)
    requires b.active == Some(id) ==> Failing(b.state)
    ensures Calm(b, AfterMenu(b, t, next), id)
  {
    StopCalm(b, id);
    CheckOutOfBandCalm(b, t, next, id);
  }

  lemma AnsweredMenuCalm(b: Broker, next: Next, id: EscalationId)
    requires b.active == Some(id) ==> Failing(b.state)
    ensures Calm(b.(menu := None), CheckMenuAnswered(b, Answered(b), next), id)
  {
    AfterMenuCalm(b, Answered(b), next, id);
    AfterMenuCalm(b.(menu := None), Answered(b), next, id);
  }

  lemma StartCarries(b: Broker, job: Job, newId: EscalationId, id: EscalationId)
    requires b.launched && !b.shutdown && !Stops(job) && newId != id && (b.active == Some(id) ==> Failing(b.state))
    ensures Carries(b, job, StartJob(b, job, Answered(b), newId), id)
  {
    match job
    case TurnEnd => AnsweredMenuCalm(b, Turn, id);
    case CheckMenu => AnsweredMenuCalm(b, Finish, id);
    case Reconcile => AnsweredMenuCalm(b, Watch, id);
    case CheckResolution => CheckOutOfBandCalm(b, Answered(b), Finish, id);
    case VerifyFailed(_, _, _) => VerifyCarries(b, job, newId, id);
    case _ => OtherCarries(b, job, newId, id);
  }

  lemma VerifyCarries(b: Broker, job: Job, newId: EscalationId, id: EscalationId)
    requires b.launched && !b.shutdown && job.VerifyFailed?
    ensures Carries(b, job, StartJob(b, job, Answered(b), newId), id)
  {
  }

  lemma OtherCarries(b: Broker, job: Job, newId: EscalationId, id: EscalationId)
    requires b.launched && !b.shutdown && !Stops(job)
    requires !ChecksMenu(job) && !job.CheckResolution? && !job.VerifyFailed?
    ensures Carries(b, job, StartJob(b, job, Answered(b), newId), id)
  {
  }

  /** The loop was not told to shut down, and the next job is none that itself
      leads to the report: after its first segment one can still come. */
  lemma NextCarries(b: Broker, newId: EscalationId, id: EscalationId)
    requires Loop(b) && Left(b, id) && b.pc.Idle? && !b.shutdown && b.jobs != [] && newId != id
    requires b.jobs[0] != Deliver(id) && !(b.jobs[0].DeveloperPrompt? && b.active == Some(id) && b.menu.None?)
    requires ReportAhead(b.active == Some(id), b.menu.Some?, b.jobs, id)
    ensures var r := Step(b, Dequeue(Answered(b), newId));
      && r.launched && !r.shutdown && !Ending(r.pc)
      && ReportAhead(r.active == Some(id), r.menu.Some?, r.jobs, id)
      && Weight(r.jobs) < Weight(b.jobs)
      && (ChecksMenu(b.jobs[0]) ==> r.menu.None?)
  {
    var job, rest := b.jobs[0], b.jobs[1..];
    var start := b.(jobs := rest);
    var r := StartJob(start, job, Answered(b), newId);
    assert Answered(start) == Answered(b) && b.jobs == [job] + rest;
    StartCarries(start, job, newId, id);
    WeightConcat([job], rest);
    WeightOfOne(job);
    var active := b.active == Some(id) && !BrokerSafety.Forgets(job);
    var open := if ChecksMenu(job) then false
                else if job.VerifyFailed? && !job.recorded then true
                else b.menu.Some?;
    AheadMonotone(r.active == Some(id), r.menu.Some?, active, open, rest, id);
    if r.jobs != rest {
      AheadStays(r.active == Some(id), r.menu.Some?, rest, ClaimJobs(start), id);
      WeightConcat(rest, ClaimJobs(start));
      ClaimsOne(start);
    }
  }

  lemma ClaimsOne(b: Broker)
    ensures Weight(ClaimJobs(b)) <= 1
  {
    if ClaimJobs(b) != [] {
      WeightOfOne(ClaimJobs(b)[0]);
    }
  }

  // ----- the running job

  /** The two brokers read the rest of the queue alike. */
  predicate Alike(b: Broker, r: Broker) {
    && r.jobs == b.jobs && r.active == b.active && r.menu == b.menu
    && r.launched == b.launched && r.shutdown == b.shutdown
  }

  /** How many awaits must fail until the loop is between two jobs. */
  function Awaits(pc: Pc): nat {
    if pc.Idle? || pc.Halted? then 0
    else if pc.Reporting? && pc.report.FatalAck? then 1
    else if pc.Delivering? && pc.delivery.DecisionWrite? then 3
    else 2
  }

  /** A failing await brings the loop closer to its next job. */
  lemma FailingAwait(b: Broker)
    requires Serves(b) && !b.pc.Idle?
    ensures Alike(b, Abort(b, Failed)) && Serves(Abort(b, Failed))
    ensures Awaits(Abort(b, Failed).pc) < Awaits(b.pc)
  {
  }

  // ----- a developer prompt

  /** Of a failed session, a tool that ran tells that the pane is free. */
  lemma PaneFreed(b: Broker)
    requires b.menu.None? && Failing(b.state)
    ensures Step(b, ToolDoneHook(None)) == b.(permissionPrompt := false)
  {
  }

  lemma PromptStarts(b: Broker, t: Transcript, newId: EscalationId)
    requires b.pc.Idle? && b.jobs != [] && b.jobs[0].DeveloperPrompt? && !Occupied(b)
    ensures Step(b, Dequeue(t, newId)).pc == Relaying(PromptWrite)
    ensures Step(b, Dequeue(t, newId)).active == b.active
  {
  }

  lemma DeliveryStarts(b: Broker, t: Transcript, newId: EscalationId, id: EscalationId)
    requires b.pc.Idle? && b.jobs != [] && b.jobs[0] == Deliver(id)
    ensures var pc := Step(b, Dequeue(t, newId)).pc;
      pc == Delivering(id, DecisionWrite) || ReportsOn(pc, id)
  {
  }

  lemma PromptQueued(b: Broker)
    requires !Occupied(b)
    ensures Step(b, SendPromptRequest) == b.(jobs := b.jobs + [DeveloperPrompt])
  {
  }

  lemma MenuCheckQueued(b: Broker)
    requires b.menu.Some? && Failing(b.state)
    ensures Step(b, PromptSubmitHook) == b.(jobs := b.jobs + [CheckMenu])
  {
  }
}
