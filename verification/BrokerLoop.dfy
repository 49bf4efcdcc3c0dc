/** What a session broker may still report about an escalation. A report that
    names an escalation comes from delivering a decision for it, or from a
    developer prompt typed while it is active; whether one can still come is
    read off the awaited step and the queued jobs. */
module BrokerLoop {
  import opened Protocol
  import opened BrokerModel
  import BrokerSafety

  // ----- the serial loop

  /** The running job waits for the master to handle a report that names `id`. */
  predicate ReportsOn(pc: Pc, id: EscalationId) {
    match pc
    case Checking(check, _) => check == ResolutionRetract(id)
    case Delivering(id', delivery) =>
      id' == id && (delivery.DeliveredAck? || delivery.StaleAck? || delivery.MissAck?)
    case Relaying(relay) => relay == PromptRetract(id)
    case _ => false
  }

  /** The escalation the running job just retracted. */
  function Retracting(pc: Pc): Option<EscalationId> {
    match pc
    case Checking(check, _) => if check.ResolutionRetract? then Some(check.id) else None
    case Relaying(relay) => if relay.PromptRetract? then Some(relay.id) else None
    case _ => None
  }

  /** The session failed or is over. */
  predicate Failing(state: SessionState) {
    state.Error? || state.Stopped?
  }

  /** The loop runs no further segment but the end of a reported session. */
  predicate Ending(pc: Pc) {
    pc.Halted? || (pc.Reporting? && pc.report.EndedAck?)
  }

  /** What every step keeps besides `BrokerSafety.Inv`. */
  predicate Loop(b: Broker) {
    && (b.pc.Reporting? && b.pc.report.FatalAck? ==> Failing(b.state))
    && (b.pc.Idle? ==> b.launched && (b.shutdown ==> b.jobs != []))
    && (b.pc.Delivering? && b.pc.delivery.StaleAck? ==> b.active != Some(b.pc.id))
    && (Retracting(b.pc).Some? ==> Retracting(b.pc).value in b.used)
  }

  /** From `b` a segment reaches `r`: unless it raises `newId`, it leaves the
      state of a still active escalation alone, or fails. */
  predicate Runs(b: Broker, r: Broker, newId: EscalationId) {
    && Loop(r)
    && (r.active.Some? && r.active != Some(newId) ==>
          r.active == b.active && (r.state == b.state || r.state == Error))
  }

  lemma StopRuns(b: Broker, newId: EscalationId)
    ensures Runs(b, Done(b), newId) && Runs(b, Fail(b), newId)
  {
  }

  lemma AfterResolutionRuns(b: Broker, t: Transcript, next: Next, newId: EscalationId)
    requires BrokerSafety.Settled(b)
    ensures Runs(b, AfterResolution(b, t, next), newId)
  {
    StopRuns(b, newId);
  }

  lemma CheckOutOfBandRuns(b: Broker, t: Transcript, next: Next, newId: EscalationId)
    requires BrokerSafety.Settled(b)
    ensures Runs(b, CheckOutOfBand(b, t, next), newId)
  {
    StopRuns(b, newId);
    AfterResolutionRuns(b, t, next, newId);
  }

  lemma AfterMenuRuns(b: Broker, t: Transcript, next: Next, newId: EscalationId)
    requires BrokerSafety.Settled(b)
    ensures Runs(b, AfterMenu(b, t, next), newId)
  {
    StopRuns(b, newId);
    CheckOutOfBandRuns(b, t, next, newId);
  }

  lemma CheckMenuAnsweredRuns(b: Broker, t: Transcript, next: Next, newId: EscalationId)
    requires BrokerSafety.Settled(b)
    ensures Runs(b, CheckMenuAnswered(b, t, next), newId)
  {
    StopRuns(b, newId);
    AfterMenuRuns(b, t, next, newId);
    AfterMenuRuns(b.(menu := None), t, next, newId);
  }

  lemma StartJobRuns(b: Broker, job: Job, t: Transcript, newId: EscalationId)
    requires BrokerSafety.Settled(b)
    ensures Runs(b, StartJob(b, job, t, newId), newId)
  {
    match job
    case TurnEnd => CheckMenuAnsweredRuns(b, t, Turn, newId);
    case CheckMenu => CheckMenuAnsweredRuns(b, t, Finish, newId);
    case Reconcile => CheckMenuAnsweredRuns(b, t, Watch, newId);
    case CheckResolution => CheckOutOfBandRuns(b, t, Finish, newId);
    case FailJob => StopRuns(b, newId);
    case _ =>
  }

  lemma ContinueCheckRuns(b: Broker, check: CheckStep, next: Next, t: Transcript, newId: EscalationId)
    requires BrokerSafety.Inv(b) && b.pc == Checking(check, next)
    ensures Runs(b, ContinueCheck(b, check, next, t), newId)
  {
    match check
    case MenuRetract(_, byDeveloper) => if !byDeveloper { AfterMenuRuns(b, t, next, newId); }
    case MenuContact => AfterMenuRuns(b, t, next, newId);
    case ResolutionRetract(_) =>
    case ResolutionContact => AfterResolutionRuns(b, t, next, newId);
  }

  lemma ContinueTurnRuns(b: Broker, turn: TurnStep, newId: EscalationId)
    requires BrokerSafety.Inv(b) && b.pc == Classifying(turn) && !turn.Triage?
    ensures Runs(b, ContinueTurn(b, turn), newId)
  {
  }

  lemma ContinueDeliveryRuns(b: Broker, id: EscalationId, delivery: DeliveryStep, newId: EscalationId)
    requires BrokerSafety.Inv(b) && b.pc == Delivering(id, delivery)
    ensures Runs(b, ContinueDelivery(b, id, delivery), newId)
  {
  }

  lemma ContinueOpeningRuns(b: Broker, opening: OpeningStep, newId: EscalationId)
    requires BrokerSafety.Inv(b) && b.pc == Opening(opening)
    ensures Runs(b, ContinueOpening(b, opening), newId)
  {
  }

  lemma ContinueRelayRuns(b: Broker, relay: RelayStep, newId: EscalationId)
    requires BrokerSafety.Inv(b) && b.pc == Relaying(relay)
    ensures Runs(b, ContinueRelay(b, relay), newId)
  {
  }

  lemma ContinueRuns(b: Broker, t: Transcript, newId: EscalationId)
    requires BrokerSafety.Inv(b) && Loop(b) && Enabled(b, Resume(Ok, t, newId))
    ensures Runs(b, Continue(b, t), newId)
  {
    match b.pc
    case Checking(check, next) => ContinueCheckRuns(b, check, next, t, newId);
    case Classifying(turn) => ContinueTurnRuns(b, turn, newId);
    case Delivering(id, delivery) => ContinueDeliveryRuns(b, id, delivery, newId);
    case Opening(opening) => ContinueOpeningRuns(b, opening, newId);
    case Relaying(relay) => ContinueRelayRuns(b, relay, newId);
    case _ => StopRuns(b, newId);
  }

  lemma AbortRuns(b: Broker, outcome: Outcome, newId: EscalationId)
    requires BrokerSafety.Inv(b) && !b.pc.Idle? && !b.pc.Halted?
    ensures Runs(b, Abort(b, outcome), newId)
  {
    StopRuns(b, newId);
    if b.pc.Reporting? && b.pc.report.QuestionAck? {
      StopRuns(QuestionRefused(b, b.pc.report.id), newId);
    }
  }

  lemma SegmentRuns(b: Broker, input: Input)
    requires BrokerSafety.Inv(b) && Loop(b) && Enabled(b, input) && !BrokerSafety.IsHandler(input)
    ensures Runs(b, Step(b, input), input.newId)
  {
    match input
    case Dequeue(t, newId) =>
      var start := b.(jobs := b.jobs[1..]);
      StartJobRuns(start, b.jobs[0], t, newId);
      assert Runs(start, Step(b, input), newId);
    case Resume(outcome, t, newId) =>
      if outcome.Ok? {
        ContinueRuns(b, t, newId);
      } else if outcome.Triaged? {
        StopRuns(b, newId);
      } else {
        AbortRuns(b, outcome, newId);
      }
  }

  // ----- what handlers queue

  function InputJobs(b: Broker): seq<Job> {
    (if b.menu.Some? then [CheckMenu] else []) + if b.state.Escalated? then [CheckResolution] else []
  }

  /** The claimed picker a new one replaces is retracted. */
  function ClaimJobs(b: Broker): seq<Job> {
    if b.menu.Some? && b.menu.value.escalation.Some? then [RetractMenu(b.menu.value.escalation.value)] else []
  }

  function HandlerJobs(b: Broker, input: Input): seq<Job> {
    match input
    case StopHook => [TurnEnd]
    case StopFailureHook => [FailJob]
    case PromptSubmitHook => InputJobs(b)
    case ToolDoneHook(mismatch) =>
      (if mismatch.Some? then [VerifyFailed(mismatch.value.0, mismatch.value.1, true)] else []) + InputJobs(b)
    case SessionEndHook => [EndSession]
    case WatchdogExpired => [Reconcile]
    case VerifyBackstop(tool, injected, t) =>
      if t.Readable? && tool in t.answers && t.answers[tool] == Some(injected) then []
      else [VerifyFailed(tool, injected, t.Unreadable? || tool in t.answers)]
    case DispatchDecision(id) => [Deliver(id)]
    case ReactivateRequest => if b.state.Completed? then [Reactivate] else []
    case SendPromptRequest => if b.menu.Some? || b.permissionPrompt then [] else [DeveloperPrompt]
    case ShutdownRequest => [Sentinel]
    case AskQuestion(_, parses, newId) =>
      if b.state != Driving then ClaimJobs(b)
      else if !parses || b.budget >= b.budgetMax then ClaimJobs(b) + [RaiseQuestion(newId)]
      else []
    case AskAnswered(_) => [ReportBudget(b.budget + 1)]
    case AskEscalated(_, newId) => ClaimJobs(b) + [RaiseQuestion(newId)]
    case _ => []
  }

  lemma OnlyDispatchDelivers(b: Broker, input: Input, id: EscalationId)
    requires Deliver(id) in HandlerJobs(b, input)
    ensures input == DispatchDecision(id)
  {
  }

  lemma InputSeenJobs(b: Broker)
    ensures InputSeen(b).jobs == b.jobs + InputJobs(b)
  {
  }

  lemma ClaimMenuJobs(b: Broker, menu: Menu)
    ensures ClaimMenu(b, menu).jobs == b.jobs + ClaimJobs(b)
  {
  }

  lemma EscalateMenuJobs(b: Broker, tool: ToolUseId, newId: EscalationId)
    ensures EscalateMenu(b, tool, newId).jobs == b.jobs + (ClaimJobs(b) + [RaiseQuestion(newId)])
  {
    ClaimMenuJobs(b, Menu(tool, Some(newId), None));
  }

  lemma AskQueues(b: Broker, input: Input)
    requires Enabled(b, input) && (input.AskQuestion? || input.AskAnswered? || input.AskEscalated?)
    ensures Step(b, input).jobs == b.jobs + HandlerJobs(b, input)
  {
    assert b.jobs + [] == b.jobs;
    match input
    case AskAnswered(_) =>
    case AskQuestion(tool, _, newId) =>
      ClaimMenuJobs(b, Menu(tool, None, None));
      EscalateMenuJobs(b, tool, newId);
    case AskEscalated(tool, newId) => EscalateMenuJobs(b.(asks := b.asks - multiset{tool}), tool, newId);
  }

  lemma MismatchQueues(b: Broker, failed: Job)
    ensures InputSeen(Enqueue(b, failed)).jobs == b.jobs + ([failed] + InputJobs(b))
  {
    InputSeenJobs(Enqueue(b, failed));
    assert b.jobs + [failed] + InputJobs(b) == b.jobs + ([failed] + InputJobs(b));
  }

  lemma ToolDoneQueues(b: Broker, mismatch: Option<(ToolUseId, Answers)>)
    ensures Step(b, ToolDoneHook(mismatch)).jobs == b.jobs + HandlerJobs(b, ToolDoneHook(mismatch))
  {
    var seen := b.(permissionPrompt := false);
    assert InputJobs(seen) == InputJobs(b) && [] + InputJobs(b) == InputJobs(b);
    if mismatch.Some? {
      MismatchQueues(seen, VerifyFailed(mismatch.value.0, mismatch.value.1, true));
    } else {
      InputSeenJobs(seen);
    }
  }

  /** Handlers only append to the queue. */
  lemma HandlerQueues(b: Broker, input: Input)
    requires Enabled(b, input) && BrokerSafety.IsHandler(input)
    ensures Step(b, input).jobs == b.jobs + HandlerJobs(b, input)
  {
    if input.AskQuestion? || input.AskAnswered? || input.AskEscalated? {
      AskQueues(b, input);
    } else if input.PromptSubmitHook? {
      InputSeenJobs(b);
    } else if input.ToolDoneHook? {
      ToolDoneQueues(b, input.mismatch);
    } else {
      assert b.jobs + [] == b.jobs;
    }
  }

  lemma StepKeepsLoop(b: Broker, input: Input)
    requires BrokerSafety.Inv(b) && Loop(b) && Enabled(b, input)
    ensures Loop(Step(b, input))
  {
    if BrokerSafety.IsHandler(input) {
      BrokerSafety.HandlerHandled(b, input);
      HandlerQueues(b, input);
    } else {
      SegmentRuns(b, input);
    }
  }
}
