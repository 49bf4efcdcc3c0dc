/** Where the states, failures and reports of a session broker come from, and how
    an active escalation ends: again in both directions. */
module BrokerOutcomes {
  import opened Protocol
  import opened BrokerModel
  import opened BrokerSafety
  import opened BrokerCauses
  import BrokerLoop
  import BrokerRuns

  // ----- the end of an escalation

  /** The decision for `id` reached the pane. */
  predicate DecisionTyped(b: Broker, input: Input, id: EscalationId) {
    Ends(b, input) && b.pc == Delivering(id, DecisionWrite)
  }

  /** A developer prompt reached the pane. */
  predicate PromptReached(b: Broker, input: Input) {
    Ends(b, input) && b.pc == Relaying(PromptWrite)
  }

  lemma JobEnds(b: Broker, job: Job, t: Transcript, newId: EscalationId)
    requires AfterPicker(job).None? && job != CheckResolution
    ensures StartJob(b, job, t, newId).active ==
            match job
            case Reactivate => None
            case VerifyFailed(_, _, recorded) => if recorded then Some(newId) else b.active
            case _ => b.active
  {
  }

  lemma AwaitEnds(b: Broker, t: Transcript)
    requires !b.pc.Checking?
    ensures Continue(b, t).active ==
            if (b.pc.Delivering? && b.pc.delivery.DecisionWrite?) || b.pc == Relaying(PromptWrite) then None
            else b.active
  {
  }

  lemma CheckEnds(b: Broker, input: Input)
    requires Enabled(b, input) && input.Resume? && b.pc.Checking? && !InChecks(b, input)
    ensures Step(b, input).active == b.active
  {
  }

  lemma AbortEnds(b: Broker, outcome: Outcome)
    ensures Abort(b, outcome).active == b.active
  {
  }

  /** An active escalation ends in exactly five ways: its decision is typed, it is
      found answered in the pane, a developer prompt is typed, a new task starts, or
      another one is raised for an unverified answer. */
  lemma EndsExactly(b: Broker, input: Input, id: EscalationId)
    requires Inv(b) && Enabled(b, input) && b.active == Some(id) && (IsHandler(input) || input.newId != id)
    ensures Step(b, input).active != Some(id) <==>
            || DecisionTyped(b, input, id) || Withdraws(b, input, id) || PromptReached(b, input)
            || Started(b, input) == Some(Reactivate) || RaisesUnverified(b, input)
  {
    if IsHandler(input) {
      HandlerHandled(b, input);
    } else {
      WithdrawsExactly(b, input, id);
      if InChecks(b, input) {
        ChecksGoOn(b, input);
      } else {
        EndsElsewhere(b, input, id);
      }
    }
  }

  lemma EndsElsewhere(b: Broker, input: Input, id: EscalationId)
    requires Inv(b) && Enabled(b, input) && !IsHandler(input) && !InChecks(b, input)
    requires b.active == Some(id) && input.newId != id
    ensures Step(b, input).active != Some(id) <==>
            || DecisionTyped(b, input, id) || PromptReached(b, input)
            || Started(b, input) == Some(Reactivate) || RaisesUnverified(b, input)
  {
    if input.Dequeue? {
      if StartsCheck(b, input).Some? {
        CheckMenuChecks(Begun(b, input), input.transcript, StartsCheck(b, input).value);
      } else {
        JobEnds(Begun(b, input), b.jobs[0], input.transcript, input.newId);
      }
    } else if b.pc.Checking? {
      CheckEnds(b, input);
    } else if input.outcome.Ok? {
      AwaitEnds(b, input.transcript);
    } else {
      AbortEnds(b, input.outcome);
    }
  }

  // ----- failures

  /** The step fails the session: a StopFailure hook, a transcript that is needed
      and cannot be read, a text that would land in a native prompt, or a request
      or an await that failed. A pane write of a decision, a refused question and
      the two final reports may fail without that. */
  predicate Fails(b: Broker, input: Input) {
    || Started(b, input) == Some(FailJob)
    || (StartsCheck(b, input).Some? && b.menu.Some? && input.transcript.Unreadable?)
    || (!IsHandler(input) && ChecksResolution(b, input) && CheckUnread(b, input.transcript))
    || (AtBoundary(b, input).Some? &&
        TurnUnread(b, input.transcript, AtBoundary(b, input).value, PaneHeld(b, input)))
    || (Held(b) && ((Judged(b, input, AnswerCall) && b.budget < b.budgetMax) ||
                    (Ends(b, input) && b.pc == Opening(Approval))))
    || (input.Resume? && (input.outcome.Failed? || input.outcome.Refused?) && !Excused(b.pc, input.outcome))
  }

  predicate Excused(pc: Pc, outcome: Outcome) {
    match pc
    case Delivering(_, delivery) => delivery.DecisionWrite?
    case Reporting(report) => report.FatalAck? || report.EndedAck? || (report.QuestionAck? && outcome.Refused?)
    case _ => false
  }

  lemma JobFails(b: Broker, job: Job, t: Transcript, newId: EscalationId)
    requires AfterPicker(job).None? && job != CheckResolution
    ensures StartJob(b, job, t, newId).pc == Reporting(FatalAck) <==> job.FailJob?
  {
  }

  lemma AwaitFails(b: Broker, t: Transcript)
    requires !b.pc.Checking? && !b.pc.Idle? && !b.pc.Halted? && !InTriage(b.pc)
    ensures Continue(b, t).pc == Reporting(FatalAck) <==> Held(b) && b.pc == Opening(Approval)
  {
  }

  lemma AbortFails(b: Broker, outcome: Outcome)
    requires !b.pc.Idle? && !b.pc.Halted? && (outcome.Failed? || outcome.Refused?)
    ensures Abort(b, outcome).pc == Reporting(FatalAck) <==> !Excused(b.pc, outcome)
  {
  }

  lemma VerdictFails(b: Broker, verdict: Verdict, prompts: nat, newId: EscalationId)
    ensures ActOnVerdict(b, verdict, prompts, newId).pc == Reporting(FatalAck) <==>
            verdict.AnswerCall? && b.budget < b.budgetMax && Held(b)
  {
  }

  lemma FailsExactly(b: Broker, input: Input)
    requires Enabled(b, input) && !IsHandler(input)
    ensures Step(b, input).pc == Reporting(FatalAck) <==> Fails(b, input)
  {
    if InChecks(b, input) {
      ChecksGoOn(b, input);
    } else if input.Dequeue? {
      if StartsCheck(b, input).Some? {
        CheckMenuChecks(Begun(b, input), input.transcript, StartsCheck(b, input).value);
      } else {
        JobFails(Begun(b, input), b.jobs[0], input.transcript, input.newId);
      }
    } else if input.outcome.Triaged? {
      VerdictFails(b, input.outcome.verdict, b.pc.turn.prompts, input.newId);
    } else if !input.outcome.Ok? {
      AbortFails(b, input.outcome);
    } else if !b.pc.Checking? {
      AwaitFails(b, input.transcript);
    }
  }

  // ----- the state

  lemma JobState(b: Broker, job: Job, t: Transcript, newId: EscalationId)
    requires AfterPicker(job).None? && job != CheckResolution
    ensures StartJob(b, job, t, newId).state ==
            match job
            case VerifyFailed(_, _, recorded) => if recorded then Escalated else b.state
            case FailJob => SessionState.Error
            case _ => b.state
  {
  }

  /** The state an await that ended well puts the broker into, if any. */
  function StateAfter(b: Broker): Option<SessionState> {
    match b.pc
    case Classifying(turn) => if turn.CompletionAck? then Some(Completed) else None
    case Delivering(_, delivery) => if delivery.DecisionContact? then Some(Driving) else None
    case Opening(opening) =>
      (match opening
       case Starting => Some(Grounding)
       case ReactivateContact => Some(Grounding)
       case GroundingCall => Some(AwaitingApproval)
       case OpeningWrite => Some(Driving)
       case _ => None)
    case Relaying(relay) => if relay.PromptWrite? || relay.PromptRetract? then Some(Driving) else None
    case _ => None
  }

  lemma AwaitState(b: Broker, t: Transcript)
    requires !b.pc.Checking? && !(b.pc == Opening(Approval) && Held(b))
    ensures Continue(b, t).state == if StateAfter(b).Some? then StateAfter(b).value else b.state
  {
  }

  lemma AbortState(b: Broker, outcome: Outcome)
    ensures Abort(b, outcome).state == if Abort(b, outcome).pc == Reporting(FatalAck) then Error else b.state
  {
  }

  /** The state after a step, by what the step did. */
  function NextState(b: Broker, input: Input): SessionState {
    match input
    case SessionEndHook => Stopped
    case ReactivateRequest => if b.state == Completed then Grounding else b.state
    case Dequeue(_, _) => SegmentState(b, input)
    case Resume(_, _, _) => SegmentState(b, input)
    case _ => b.state
  }

  function SegmentState(b: Broker, input: Input): SessionState
    requires !IsHandler(input)
  {
    if Fails(b, input) then Error
    else if HandsOver(b, input) || RaisesUnverified(b, input) then Escalated
    else if ChecksResolution(b, input) && AnsweredInPane(b, input.transcript) then Driving
    else if Ends(b, input) && StateAfter(b).Some? then StateAfter(b).value
    else b.state
  }

  lemma HandlerState(b: Broker, input: Input)
    requires Enabled(b, input) && IsHandler(input)
    ensures Step(b, input).state == NextState(b, input)
  {
  }

  lemma SegmentStateIs(b: Broker, input: Input)
    requires Enabled(b, input) && !IsHandler(input)
    ensures Step(b, input).state == SegmentState(b, input)
  {
    FailsExactly(b, input);
    if InChecks(b, input) {
      ChecksGoOn(b, input);
    } else if input.Dequeue? {
      if StartsCheck(b, input).Some? {
        CheckMenuChecks(Begun(b, input), input.transcript, StartsCheck(b, input).value);
      } else {
        JobState(Begun(b, input), b.jobs[0], input.transcript, input.newId);
      }
    } else {
      ResumedState(b, input);
    }
  }

  lemma ResumedState(b: Broker, input: Input)
    requires Enabled(b, input) && input.Resume? && !InChecks(b, input)
    ensures Step(b, input).pc == Reporting(FatalAck) ==> Step(b, input).state == Error
    ensures Step(b, input).pc != Reporting(FatalAck) ==>
              Step(b, input).state == if HandsOver(b, input) then Escalated
                                      else if Ends(b, input) && StateAfter(b).Some? then StateAfter(b).value
                                      else b.state
  {
    if input.outcome.Failed? || input.outcome.Refused? {
      AbortState(b, input.outcome);
    } else if input.outcome.Ok? && !b.pc.Checking? && !(b.pc == Opening(Approval) && Held(b)) {
      AwaitState(b, input.transcript);
    }
  }

  /** The state changes by these steps only. */
  lemma StateExactly(b: Broker, input: Input)
    requires Enabled(b, input)
    ensures Step(b, input).state == NextState(b, input)
  {
    if IsHandler(input) {
      HandlerState(b, input);
    } else {
      SegmentStateIs(b, input);
    }
  }

  // ----- delivering a decision

  /** What becomes of a dispatched decision when its turn comes. */
  lemma DeliveryExactly(b: Broker, input: Input, id: EscalationId)
    requires Enabled(b, input) && !IsHandler(input)
    ensures Step(b, input).pc == Delivering(id, DecisionWrite) <==>
            Started(b, input) == Some(Deliver(id)) && b.active == Some(id) && !Held(b)
    ensures Step(b, input).pc == Delivering(id, StaleAck) <==>
            Started(b, input) == Some(Deliver(id)) && b.active != Some(id)
    ensures Step(b, input).pc == Delivering(id, MissAck) <==>
            || (Started(b, input) == Some(Deliver(id)) && b.active == Some(id) && Held(b))
            || (b.pc == Delivering(id, DecisionWrite) && input.Resume? && !input.outcome.Ok?)
  {
    if InChecks(b, input) {
      ChecksGoOn(b, input);
    } else if input.Dequeue? {
      if StartsCheck(b, input).Some? {
        CheckMenuChecks(Begun(b, input), input.transcript, StartsCheck(b, input).value);
      } else {
        JobDelivers(Begun(b, input), b.jobs[0], input.transcript, input.newId);
      }
    } else if input.outcome.Ok? {
      AwaitDelivers(b, input.transcript);
    } else if !input.outcome.Triaged? {
      AbortDelivers(b, input.outcome);
    }
  }

  lemma JobDelivers(b: Broker, job: Job, t: Transcript, newId: EscalationId)
    requires AfterPicker(job).None? && job != CheckResolution && b.pc.Idle?
    ensures var pc := StartJob(b, job, t, newId).pc;
      && (pc.Delivering? <==> job.Deliver?)
      && (job.Deliver? ==> pc == Delivering(job.id,
            if b.active != Some(job.id) then StaleAck else if Held(b) then MissAck else DecisionWrite))
  {
  }

  lemma AwaitDelivers(b: Broker, t: Transcript)
    requires !b.pc.Idle? && !b.pc.Halted? && !InTriage(b.pc)
    requires b.pc.Checking? ==> b.pc.check.ResolutionRetract? || (b.pc.check.MenuRetract? && b.pc.check.byDeveloper)
    ensures Continue(b, t).pc.Delivering? ==>
              Continue(b, t).pc.delivery.DecisionContact? || Continue(b, t).pc.delivery.DeliveredAck?
  {
  }

  lemma AbortDelivers(b: Broker, outcome: Outcome)
    requires !b.pc.Idle? && !b.pc.Halted?
    ensures Abort(b, outcome).pc.Delivering? <==> b.pc.Delivering? && b.pc.delivery.DecisionWrite?
    ensures b.pc.Delivering? && b.pc.delivery.DecisionWrite? ==> Abort(b, outcome).pc == Delivering(b.pc.id, MissAck)
  {
  }

  /** A report that a decision was not delivered says truly whether the escalation
      is still active. */
  lemma MissReportedTruly(b: Broker, id: EscalationId, stillLive: bool)
    requires Inv(b) && BrokerLoop.Loop(b) && Outstanding(b.pc) == Some(DecisionUndelivered(id, stillLive))
    ensures stillLive <==> b.active == Some(id)
  {
  }

  // ----- opening a task

  /** A task opens step by step: grounded, proposed, approved, and only then typed,
      into a pane no native prompt holds. */
  lemma OpensInOrder(b: Broker, input: Input)
    requires Enabled(b, input) && !IsHandler(input)
    ensures var pc := Step(b, input).pc;
      && (pc == Opening(ReactivateContact) <==> Started(b, input) == Some(Reactivate))
      && (pc == Opening(GroundingCall) <==>
            Ends(b, input) && (b.pc == Opening(Starting) || b.pc == Opening(ReactivateContact)))
      && (pc == Opening(ProposalAck) <==> Ends(b, input) && b.pc == Opening(GroundingCall))
      && (pc == Opening(Approval) <==> Ends(b, input) && b.pc == Opening(ProposalAck))
      && (pc == Opening(OpeningWrite) <==> Ends(b, input) && b.pc == Opening(Approval) && !Held(b))
  {
    if InChecks(b, input) {
      ChecksGoOn(b, input);
    } else if input.Dequeue? {
      if StartsCheck(b, input).Some? {
        CheckMenuChecks(Begun(b, input), input.transcript, StartsCheck(b, input).value);
      } else {
        JobOpens(Begun(b, input), b.jobs[0], input.transcript, input.newId);
      }
    } else if Ends(b, input) {
      AwaitOpens(b, input.transcript);
    } else {
      NothingOpens(b, input);
    }
  }

  lemma JobOpens(b: Broker, job: Job, t: Transcript, newId: EscalationId)
    requires AfterPicker(job).None? && job != CheckResolution && b.pc.Idle?
    ensures StartJob(b, job, t, newId).pc.Opening? <==> job.Reactivate?
    ensures job.Reactivate? ==> StartJob(b, job, t, newId).pc == Opening(ReactivateContact)
  {
  }

  lemma AwaitOpens(b: Broker, t: Transcript)
    requires !b.pc.Idle? && !b.pc.Halted? && !InTriage(b.pc)
    requires b.pc.Checking? ==> b.pc.check.ResolutionRetract? || (b.pc.check.MenuRetract? && b.pc.check.byDeveloper)
    ensures var pc := Continue(b, t).pc;
      && (pc.Opening? ==> b.pc.Opening?)
      && (b.pc.Opening? ==>
            match b.pc.opening
            case Starting => pc == Opening(GroundingCall)
            case ReactivateContact => pc == Opening(GroundingCall)
            case GroundingCall => pc == Opening(ProposalAck)
            case ProposalAck => pc == Opening(Approval)
            case Approval => if Held(b) then pc == Reporting(FatalAck) else pc == Opening(OpeningWrite)
            case OpeningWrite => pc.Idle? || pc.Halted?)
  {
  }

  lemma NothingOpens(b: Broker, input: Input)
    requires Enabled(b, input) && input.Resume? && !input.outcome.Ok?
    ensures !Step(b, input).pc.Opening?
  {
  }

  // ----- relaying a developer prompt

  /** A developer prompt is typed only into a free pane, and one that was typed
      withdraws the escalation that is active by then. */
  lemma RelaysExactly(b: Broker, input: Input)
    requires Enabled(b, input) && !IsHandler(input)
    ensures var pc := Step(b, input).pc;
      && (pc == Relaying(PromptWrite) <==> Started(b, input) == Some(DeveloperPrompt) && !Held(b))
      && (pc == Relaying(PromptMissAck) <==> Started(b, input) == Some(DeveloperPrompt) && Held(b))
      && (forall id: EscalationId ::
            pc == Relaying(PromptRetract(id)) <==> PromptReached(b, input) && b.active == Some(id))
  {
    if InChecks(b, input) {
      ChecksGoOn(b, input);
    } else if input.Dequeue? {
      if StartsCheck(b, input).Some? {
        CheckMenuChecks(Begun(b, input), input.transcript, StartsCheck(b, input).value);
      } else {
        JobRelays(Begun(b, input), b.jobs[0], input.transcript, input.newId);
      }
    } else if input.outcome.Ok? {
      AwaitRelays(b, input.transcript);
    } else {
      NothingRelayed(b, input);
    }
  }

  lemma JobRelays(b: Broker, job: Job, t: Transcript, newId: EscalationId)
    requires AfterPicker(job).None? && job != CheckResolution && b.pc.Idle?
    ensures StartJob(b, job, t, newId).pc.Relaying? <==> job.DeveloperPrompt?
    ensures job.DeveloperPrompt? ==>
              StartJob(b, job, t, newId).pc == Relaying(if Held(b) then PromptMissAck else PromptWrite)
  {
  }

  lemma AwaitRelays(b: Broker, t: Transcript)
    requires !b.pc.Idle? && !b.pc.Halted? && !InTriage(b.pc)
    requires b.pc.Checking? ==> b.pc.check.ResolutionRetract? || (b.pc.check.MenuRetract? && b.pc.check.byDeveloper)
    ensures var pc := Continue(b, t).pc;
      && (pc.Relaying? <==> b.pc == Relaying(PromptWrite) || (b.pc.Relaying? && b.pc.relay.PromptRetract?))
      && (pc.Relaying? ==> pc.relay == if b.pc.relay.PromptWrite? && b.active.Some?
                                        then PromptRetract(b.active.value) else PromptContact)
  {
  }

  lemma NothingRelayed(b: Broker, input: Input)
    requires Enabled(b, input) && input.Resume? && !input.outcome.Ok?
    ensures !Step(b, input).pc.Relaying?
  {
  }

  // ----- the loop and its queue

  /** The last report of the session is over, answered or not. */
  predicate SessionOver(b: Broker, input: Input) {
    input.Resume? && b.pc == Reporting(EndedAck)
  }

  /** What a job segment queues: the retract of a picker it replaces, or the end of
      the loop. */
  function SegmentJobs(b: Broker, input: Input): seq<Job> {
    var job := Started(b, input);
    if job.Some? && job.value.VerifyFailed? && !job.value.recorded then BrokerLoop.ClaimJobs(b)
    else if SessionOver(b, input) then [Sentinel]
    else []
  }

  /** `r` has the queue and the loop flags of `b`. */
  predicate SameLoop(b: Broker, r: Broker) {
    && r.jobs == b.jobs && r.shutdown == b.shutdown
    && (r.launched == b.launched || (b.pc == Opening(OpeningWrite) && r.launched))
  }

  lemma JobQueues(b: Broker, job: Job, t: Transcript, newId: EscalationId)
    requires AfterPicker(job).None? && job != CheckResolution
    ensures var r := StartJob(b, job, t, newId);
      if job.VerifyFailed? && !job.recorded then
        SameLoop(b, r.(jobs := b.jobs)) && r.jobs == b.jobs + BrokerLoop.ClaimJobs(b)
      else SameLoop(b, r)
  {
  }

  lemma AwaitQueues(b: Broker, t: Transcript)
    requires !b.pc.Idle? && !b.pc.Halted? && !InTriage(b.pc) && b.pc != Reporting(EndedAck)
    requires b.pc.Checking? ==> b.pc.check.ResolutionRetract? || (b.pc.check.MenuRetract? && b.pc.check.byDeveloper)
    ensures SameLoop(b, Continue(b, t))
  {
  }

  lemma AbortQueues(b: Broker, outcome: Outcome)
    requires !b.pc.Idle? && !b.pc.Halted? && b.pc != Reporting(EndedAck)
    ensures SameLoop(b, Abort(b, outcome))
  {
  }

  /** A segment queues nothing else, and only the end of the session shuts down. */
  lemma SegmentQueues(b: Broker, input: Input)
    requires Enabled(b, input) && !IsHandler(input)
    ensures Step(b, input).jobs == Begun(b, input).jobs + SegmentJobs(b, input)
    ensures Step(b, input).shutdown <==> b.shutdown || SessionOver(b, input)
  {
    var jobs := Begun(b, input).jobs;
    assert jobs + [] == jobs;
    if InChecks(b, input) {
      ChecksGoOn(b, input);
    } else if input.Dequeue? {
      if StartsCheck(b, input).Some? {
        CheckMenuChecks(Begun(b, input), input.transcript, StartsCheck(b, input).value);
      } else {
        JobQueues(Begun(b, input), b.jobs[0], input.transcript, input.newId);
      }
    } else if !SessionOver(b, input) {
      if input.outcome.Ok? {
        AwaitQueues(b, input.transcript);
      } else if !input.outcome.Triaged? {
        AbortQueues(b, input.outcome);
      }
    }
  }

  /** The loop takes another job only if Claude runs and no shutdown came; it halts
      at the sentinel or for want of either. */
  lemma LoopGoesOn(b: Broker, input: Input)
    requires Enabled(b, input) && !IsHandler(input)
    ensures Step(b, input).pc.Idle? ==> Step(b, input).launched && !Step(b, input).shutdown
    ensures Step(b, input).pc.Halted? ==>
              Started(b, input) == Some(Sentinel) || Step(b, input).shutdown || !Step(b, input).launched
  {
    if InChecks(b, input) {
      ChecksGoOn(b, input);
    } else if input.Dequeue? {
      if StartsCheck(b, input).Some? {
        CheckMenuChecks(Begun(b, input), input.transcript, StartsCheck(b, input).value);
      } else {
        JobLoops(Begun(b, input), b.jobs[0], input.transcript, input.newId);
      }
    } else if input.outcome.Ok? {
      AwaitLoops(b, input.transcript);
    } else if !input.outcome.Triaged? {
      AbortLoops(b, input.outcome);
    }
  }

  predicate LoopFits(r: Broker) {
    (r.pc.Idle? ==> r.launched && !r.shutdown) && (r.pc.Halted? ==> !r.launched || r.shutdown)
  }

  lemma JobLoops(b: Broker, job: Job, t: Transcript, newId: EscalationId)
    requires AfterPicker(job).None? && job != CheckResolution && b.pc.Idle?
    ensures job.Sentinel? || LoopFits(StartJob(b, job, t, newId))
  {
  }

  lemma AwaitLoops(b: Broker, t: Transcript)
    requires !b.pc.Idle? && !b.pc.Halted? && !InTriage(b.pc)
    requires b.pc.Checking? ==> b.pc.check.ResolutionRetract? || (b.pc.check.MenuRetract? && b.pc.check.byDeveloper)
    ensures LoopFits(Continue(b, t))
  {
  }

  lemma AbortLoops(b: Broker, outcome: Outcome)
    requires !b.pc.Idle? && !b.pc.Halted?
    ensures LoopFits(Abort(b, outcome))
  {
  }

  // ----- what handlers note

  /** The picker after a hook or request: an unanswered question of the session
      claims it, with an escalation of its own while the broker is driving. */
  function PickerNoted(b: Broker, input: Input): Option<Menu> {
    match input
    case AskQuestion(tool, parses, newId) =>
      if b.state == Driving && parses && b.budget < b.budgetMax then b.menu
      else Some(Menu(tool, if b.state == Driving then Some(newId) else None, None))
    case AskEscalated(tool, newId) => Some(Menu(tool, Some(newId), None))
    case _ => b.menu
  }

  lemma HandlerNotes(b: Broker, input: Input)
    requires Enabled(b, input) && IsHandler(input)
    ensures Step(b, input).menu == PickerNoted(b, input)
    ensures Step(b, input).permissionPrompt <==>
            input.PermissionNotification? || (b.permissionPrompt && !input.StopHook? && !input.ToolDoneHook?)
    ensures Step(b, input).shutdown <==> b.shutdown || input.ShutdownRequest?
    ensures Step(b, input).asks == BrokerRuns.AsksAfter(b, input)
  {
    BrokerRuns.HandlerAsks(b, input);
    HooksNote(b, input);
  }

  lemma AsksNote(b: Broker, input: Input)
    requires Enabled(b, input) && (input.AskQuestion? || input.AskAnswered? || input.AskEscalated?)
    ensures var r := Step(b, input);
      && r.menu == PickerNoted(b, input) && r.permissionPrompt == b.permissionPrompt && r.shutdown == b.shutdown
  {
  }

  lemma SeenNotes(b: Broker)
    ensures InputSeen(b) == b.(jobs := InputSeen(b).jobs)
  {
  }

  lemma HooksNote(b: Broker, input: Input)
    requires Enabled(b, input) && IsHandler(input)
    ensures Step(b, input).menu == PickerNoted(b, input)
    ensures Step(b, input).permissionPrompt <==>
            input.PermissionNotification? || (b.permissionPrompt && !input.StopHook? && !input.ToolDoneHook?)
    ensures Step(b, input).shutdown <==> b.shutdown || input.ShutdownRequest?
  {
    match input
    case AskQuestion(_, _, _) => AsksNote(b, input);
    case AskAnswered(_) => AsksNote(b, input);
    case AskEscalated(_, _) => AsksNote(b, input);
    case PromptSubmitHook => SeenNotes(b);
    case ToolDoneHook(mismatch) =>
      var seen := b.(permissionPrompt := false);
      SeenNotes(seen);
      if mismatch.Some? {
        SeenNotes(Enqueue(seen, VerifyFailed(mismatch.value.0, mismatch.value.1, true)));
      }
    case _ =>
  }

  lemma JobNotes(b: Broker, job: Job, t: Transcript, newId: EscalationId)
    requires AfterPicker(job).None? && job != CheckResolution
    ensures StartJob(b, job, t, newId).permissionPrompt == b.permissionPrompt
  {
  }

  lemma ResumeNotes(b: Broker, input: Input)
    requires Enabled(b, input) && input.Resume? && !InChecks(b, input)
    ensures Step(b, input).permissionPrompt == b.permissionPrompt
  {
  }

  /** A permission prompt is open from its notification to the next Stop or finished
      tool; no job of the loop touches it. */
  lemma PermissionExactly(b: Broker, input: Input)
    requires Enabled(b, input)
    ensures Step(b, input).permissionPrompt <==>
            input.PermissionNotification? || (b.permissionPrompt && !input.StopHook? && !input.ToolDoneHook?)
  {
    if IsHandler(input) {
      HooksNote(b, input);
    } else if InChecks(b, input) {
      ChecksGoOn(b, input);
    } else if input.Resume? {
      ResumeNotes(b, input);
    } else if StartsCheck(b, input).Some? {
      CheckMenuChecks(Begun(b, input), input.transcript, StartsCheck(b, input).value);
    } else {
      JobNotes(Begun(b, input), b.jobs[0], input.transcript, input.newId);
    }
  }

  // ----- what the master is told

  /** The request a step leaves unanswered says what the step did. */
  lemma ReportsExactly(b: Broker, input: Input, id: EscalationId)
    requires Enabled(b, input) && !IsHandler(input)
    ensures var sent := Outstanding(Step(b, input).pc);
      && (HandsOver(b, input) || RaisesUnverified(b, input) ==> sent == Some(Escalation(input.newId)))
      && (Withdraws(b, input, id) ==> sent == Some(EscalationRetract(id)))
      && (PromptReached(b, input) && b.active == Some(id) ==> sent == Some(EscalationRetract(id)))
      && (StartsCompletion(b, input) ==> sent == Some(Completion))
      && (Fails(b, input) ==> sent == Some(FatalError))
      && (forall byDeveloper ::
            RetractsQuestion(b, input, id, byDeveloper) ==> sent == Some(PaneRetract(id)))
      && (Ends(b, input) && b.pc == Delivering(id, DecisionContact) ==> sent == Some(DecisionDelivered(id)))
      && (Ends(b, input) && b.pc == Opening(GroundingCall) ==> sent == Some(PromptProposal))
  {
    FailsExactly(b, input);
    RaisesExactly(b, input);
    RelaysExactly(b, input);
    OpensInOrder(b, input);
  }

  /** Jobs that only report tell the master what they were queued for. */
  lemma JobsReport(b: Broker, input: Input)
    requires Enabled(b, input) && input.Dequeue?
    ensures var sent := Outstanding(Step(b, input).pc);
      match b.jobs[0]
      case RaiseQuestion(id) => sent == Some(PaneEscalation(id))
      case RetractMenu(id) => sent == Some(PaneRetract(id))
      case ReportBudget(count) => sent == Some(BudgetUpdate(count))
      case VerifyFailed(_, _, recorded) => recorded || sent == Some(PaneEscalation(input.newId))
      case DeveloperPrompt => Held(b) ==> sent == Some(PromptUndelivered)
      case EndSession => sent == Some(SessionEnded)
      case _ => true
  {
  }

  // ----- starting

  /** A spawned broker has Claude to start, a reassigned one a task to ground, an
      attached one resumes what was persisted; none knows of an escalation, a picker
      or a transcript. */
  lemma StartsExactly(b: Broker)
    requires Initial(b)
    ensures b.active == None && b.menu == None && !b.permissionPrompt && b.jobs == [] && !b.shutdown
    ensures b.lastEvents == -1 && b.asks == multiset{} && b.used == {}
    ensures || (b.state == Spawning && b.pc == Opening(Starting) && !b.launched)
            || (b.state == Grounding && b.pc == Opening(GroundingCall) && !b.launched && b.budget == 0)
            || (b.state in {SessionState.Completed, Driving} && b.pc == Idle && b.launched)
  {
  }

  /** A broker attached to a finished task takes a new one and triages no turn of the
      old; attached to an unfinished one it triages its next turn, refuses a new task
      and goes on with the persisted count of answers. */
  lemma AttachedResumes(budgetMax: nat, budget: nat, completed: bool, t: Transcript, newId: EscalationId)
    requires t.Readable?
    ensures var b := Attached(budgetMax, budget, completed);
      && Initial(b) && b.budget == budget && b.budgetMax == budgetMax
      && (Step(b, ReactivateRequest).jobs == [Reactivate] <==> completed)
      && (Triages(Step(b, StopHook), Dequeue(t, newId)) <==> !completed)
  {
    var stopped := Step(Attached(budgetMax, budget, completed), StopHook);
    TriagesExactly(stopped, Dequeue(t, newId));
  }
}
