/** What every step of a session broker keeps, whatever the pane, the model, the
    hooks and the master do: requests may be refused or fail, dispatches may be
    repeated, stale or sent twice, hooks may arrive at any await. */
module BrokerSafety {
  import opened Protocol
  import opened BrokerModel

  /** What the await of the serial loop says about the active escalation. */
  datatype Expectation = Anything | Nothing | Exactly(id: EscalationId)

  function Expects(pc: Pc): Expectation {
    match pc
    case Checking(check, _) => if check.MenuRetract? || check.MenuContact? then Anything else Nothing
    case Classifying(_) => Nothing
    case Raising(id) => Exactly(id)
    case Delivering(id, delivery) =>
      if delivery.StaleAck? then Anything
      else if delivery.DecisionWrite? || delivery.MissAck? then Exactly(id)
      else Nothing
    case Opening(_) => Nothing
    case Relaying(relay) => if relay.PromptRetract? || relay.PromptContact? then Nothing else Anything
    case _ => Anything
  }

  predicate PcFits(b: Broker) {
    match Expects(b.pc)
    case Anything => true
    case Nothing => b.active == None
    case Exactly(id) => b.active == Some(id)
  }

  /** The two awaits that report developer contact right after a job ended the
      active escalation and before it sets the next state. */
  predicate BetweenStates(pc: Pc) {
    (pc.Delivering? && pc.delivery.DecisionContact?) || (pc.Opening? && pc.opening.ReactivateContact?)
  }

  /** The broker drives only with no escalation active, and is escalated only
      with one active, but for those two awaits. */
  predicate Quiescent(b: Broker) {
    && (b.state == Driving ==> b.active == None)
    && (b.state == Escalated && !BetweenStates(b.pc) ==> b.active.Some?)
  }

  predicate Inv(b: Broker) {
    && PcFits(b)
    && Quiescent(b)
    && (b.active.Some? ==> b.active.value in b.used)
  }

  /** What holds of a broker in the middle of a job segment. */
  predicate Settled(b: Broker) {
    && (b.state == Driving ==> b.active == None)
    && (b.state == Escalated ==> b.active.Some?)
    && (b.active.Some? ==> b.active.value in b.used)
  }

  // ----- what one step changes

  function Picker(b: Broker): Option<ToolUseId> {
    if b.menu.Some? then Some(b.menu.value.tool) else None
  }

  predicate AnswerRecorded(t: Transcript, tool: ToolUseId) {
    t.Readable? && tool in t.answers
  }

  /** A pane write is under way. */
  predicate Writing(pc: Pc) {
    match pc
    case Classifying(turn) => turn.AnswerWrite?
    case Delivering(_, delivery) => delivery.DecisionWrite?
    case Opening(opening) => opening.OpeningWrite?
    case Relaying(relay) => relay.PromptWrite?
    case _ => false
  }

  predicate TypingAnswer(pc: Pc) {
    pc.Classifying? && pc.turn.AnswerWrite?
  }

  /** The running job just reset the budget and reports it. */
  predicate InContact(pc: Pc) {
    match pc
    case Checking(check, _) => check.MenuContact? || check.ResolutionContact?
    case Delivering(_, delivery) => delivery.DecisionContact?
    case Opening(opening) => opening.ReactivateContact?
    case Relaying(relay) => relay.PromptContact?
    case _ => false
  }

  /** The picker a job claims when it starts. */
  function JobClaim(job: Job): Option<ToolUseId> {
    if job.VerifyFailed? && !job.recorded then Some(job.tool) else None
  }

  /** Nothing but the start of `job` makes the loop deliver a decision. */
  ghost predicate DeliversFrom(b: Broker, r: Broker, job: Option<Job>) {
    && (r.pc.Delivering? ==> (b.pc.Delivering? && b.pc.id == r.pc.id) || job == Some(Deliver(r.pc.id)))
    && (r.jobs == b.jobs || (exists last: Job :: r.jobs == b.jobs + [last] && !last.Deliver?))
  }

  /** The running job reports, now or in its next segment, that `id` is over. */
  predicate ReportsEnd(pc: Pc, id: EscalationId) {
    match pc
    case Checking(check, _) => check == ResolutionRetract(id)
    case Delivering(id', delivery) => id' == id && (delivery.DecisionContact? || delivery.DeliveredAck?)
    case Relaying(relay) => relay == PromptRetract(id)
    case _ => false
  }

  /** A job that, started while an escalation is active, forgets it without
      telling the master: a reactivation, or the raise of a failed verification
      whose answer the session already recorded. */
  predicate Forgets(job: Job) {
    job.Reactivate? || (job.VerifyFailed? && job.recorded)
  }

  /** An active escalation stays so until its end is reported, but for the jobs
      that forget it. */
  predicate KeepsOrReports(b: Broker, r: Broker, newId: EscalationId, job: Option<Job>) {
    && (r.pc.Raising? ==> r.pc.id == newId)
    && (b.active.Some? && !(job.Some? && Forgets(job.value)) ==>
          (r.active == b.active && !r.pc.Raising?) || ReportsEnd(r.pc, b.active.value))
  }

  /** From `b`, a segment of a job reaches `r`, using `newId` if it raises an
      escalation; `job` is the job if this is its first segment. The segment may
      end the active escalation or raise `newId`, release the picker whose
      answer it read, count the answer just typed or reset the budget on
      contact, and start a write into a free pane. */
  ghost predicate Advances(b: Broker, r: Broker, t: Transcript, newId: EscalationId, job: Option<Job>) {
    && Inv(r)
    && r.budgetMax == b.budgetMax && r.asks == b.asks
    && (r.used == b.used || r.used == b.used + {newId})
    && (r.active == b.active || r.active == None || r.active == Some(newId))
    && (if job.Some? && JobClaim(job.value).Some? then Picker(r) == JobClaim(job.value)
        else Picker(r) == Picker(b) || (Picker(r) == None && b.menu.Some? && AnswerRecorded(t, b.menu.value.tool)))
    && (if InContact(r.pc) then r.budget == 0
        else if TypingAnswer(b.pc) && !r.pc.Reporting? then r.budget == b.budget + 1
        else r.budget == b.budget)
    && (Writing(r.pc) ==> !Occupied(r))
    && (TypingAnswer(r.pc) ==> r.budget < r.budgetMax)
    && DeliversFrom(b, r, job)
    && KeepsOrReports(b, r, newId, job)
  }

  lemma StopAdvances(b: Broker, t: Transcript, newId: EscalationId)
    requires Settled(b) && !TypingAnswer(b.pc)
    ensures Advances(b, Done(b), t, newId, None) && Advances(b, Fail(b), t, newId, None)
  {
  }

  lemma AfterResolutionAdvances(b: Broker, t: Transcript, next: Next, newId: EscalationId)
    requires Settled(b) && !TypingAnswer(b.pc)
    ensures Advances(b, AfterResolution(b, t, next), t, newId, None)
  {
    StopAdvances(b, t, newId);
  }

  lemma CheckOutOfBandAdvances(b: Broker, t: Transcript, next: Next, newId: EscalationId)
    requires Settled(b) && !TypingAnswer(b.pc)
    ensures Advances(b, CheckOutOfBand(b, t, next), t, newId, None)
  {
    StopAdvances(b, t, newId);
    AfterResolutionAdvances(b, t, next, newId);
  }

  lemma AfterMenuAdvances(b: Broker, t: Transcript, next: Next, newId: EscalationId)
    requires Settled(b) && !TypingAnswer(b.pc)
    ensures Advances(b, AfterMenu(b, t, next), t, newId, None)
  {
    StopAdvances(b, t, newId);
    CheckOutOfBandAdvances(b, t, next, newId);
  }

  /** The picker closed without an escalation of its own. */
  lemma ReleasedAdvances(b: Broker, r: Broker, t: Transcript, newId: EscalationId)
    requires b.menu.Some? && AnswerRecorded(t, b.menu.value.tool)
    requires Advances(b.(menu := None), r, t, newId, None)
    ensures Advances(b, r, t, newId, None)
  {
  }

  lemma MenuRetractAdvances(
      b: Broker, t: Transcript, id: EscalationId, byDeveloper: bool, next: Next, newId: EscalationId)
    requires Settled(b) && !TypingAnswer(b.pc)
    requires b.menu.Some? && AnswerRecorded(t, b.menu.value.tool)
    ensures Advances(b, b.(menu := None, pc := Checking(MenuRetract(id, byDeveloper), next)), t, newId, None)
  {
  }

  lemma CheckMenuAnsweredAdvances(b: Broker, t: Transcript, next: Next, newId: EscalationId)
    requires Settled(b) && !TypingAnswer(b.pc)
    ensures Advances(b, CheckMenuAnswered(b, t, next), t, newId, None)
  {
    if b.menu.None? || (t.Readable? && b.menu.value.tool !in t.answers) {
      AfterMenuAdvances(b, t, next, newId);
    } else if t.Unreadable? {
      StopAdvances(b, t, newId);
    } else if b.menu.value.escalation.None? {
      AfterMenuAdvances(b.(menu := None), t, next, newId);
      ReleasedAdvances(b, AfterMenu(b.(menu := None), t, next), t, newId);
    } else {
      var menu := b.menu.value;
      MenuRetractAdvances(b, t, menu.escalation.value, menu.injected.None?
          || t.answers[menu.tool] != menu.injected, next, newId);
    }
  }

  lemma RaiseAdvances(b: Broker, t: Transcript, id: EscalationId, baseline: int, job: Option<Job>)
    requires !TypingAnswer(b.pc) && (b.active == None || (job.Some? && Forgets(job.value)))
    requires job.Some? ==> JobClaim(job.value) == None
    ensures Advances(b, Raise(b, id, baseline), t, id, job)
  {
  }

  // ----- queued jobs

  lemma StartWriteAdvances(b: Broker, job: Job, t: Transcript, newId: EscalationId)
    requires Settled(b) && b.pc.Idle?
    requires job.Deliver? || job.DeveloperPrompt? || job.Reactivate?
    ensures Advances(b, StartJob(b, job, t, newId), t, newId, Some(job))
  {
    if job.Deliver? {
      StartDeliverAdvances(b, job.id, t, newId);
    }
  }

  lemma StartDeliverAdvances(b: Broker, id: EscalationId, t: Transcript, newId: EscalationId)
    requires Settled(b) && b.pc.Idle?
    ensures Advances(b, StartJob(b, Deliver(id), t, newId), t, newId, Some(Deliver(id)))
  {
  }

  lemma StartReportAdvances(b: Broker, job: Job, t: Transcript, newId: EscalationId)
    requires Settled(b) && b.pc.Idle?
    requires job.RaiseQuestion? || job.RetractMenu? || job.ReportBudget? || job.FailJob? || job.EndSession?
        || job.Sentinel?
    ensures Advances(b, StartJob(b, job, t, newId), t, newId, Some(job))
  {
    StopAdvances(b, t, newId);
  }

  lemma StartVerifyAdvances(b: Broker, job: Job, t: Transcript, newId: EscalationId)
    requires Settled(b) && b.pc.Idle? && job.VerifyFailed?
    ensures Advances(b, StartJob(b, job, t, newId), t, newId, Some(job))
  {
    if job.recorded {
      RaiseAdvances(b, t, newId, -1, Some(job));
    }
  }

  lemma StartJobAdvances(b: Broker, job: Job, t: Transcript, newId: EscalationId)
    requires Settled(b) && b.pc.Idle?
    ensures Advances(b, StartJob(b, job, t, newId), t, newId, Some(job))
  {
    match job
    case TurnEnd => CheckMenuAnsweredAdvances(b, t, Turn, newId);
    case CheckMenu => CheckMenuAnsweredAdvances(b, t, Finish, newId);
    case CheckResolution => CheckOutOfBandAdvances(b, t, Finish, newId);
    case Reconcile => CheckMenuAnsweredAdvances(b, t, Watch, newId);
    case VerifyFailed(_, _, _) => StartVerifyAdvances(b, job, t, newId);
    case Deliver(_) => StartWriteAdvances(b, job, t, newId);
    case DeveloperPrompt => StartWriteAdvances(b, job, t, newId);
    case Reactivate => StartWriteAdvances(b, job, t, newId);
    case _ => StartReportAdvances(b, job, t, newId);
  }

  lemma ContactAdvances(b: Broker, pc: Pc, t: Transcript, newId: EscalationId)
    requires Settled(b) && InContact(pc) && !pc.Delivering? && PcFits(b.(pc := pc))
    ensures Advances(b, NoteContact(b, pc), t, newId, None)
  {
  }

  lemma ContinueCheckAdvances(b: Broker, check: CheckStep, next: Next, t: Transcript, newId: EscalationId)
    requires Inv(b) && b.pc == Checking(check, next)
    ensures Advances(b, ContinueCheck(b, check, next, t), t, newId, None)
  {
    match check
    case MenuRetract(_, byDeveloper) =>
      if byDeveloper { ContactAdvances(b, Checking(MenuContact, next), t, newId); }
      else { AfterMenuAdvances(b, t, next, newId); }
    case MenuContact => AfterMenuAdvances(b, t, next, newId);
    case ResolutionRetract(_) => ContactAdvances(b, Checking(ResolutionContact, next), t, newId);
    case ResolutionContact => AfterResolutionAdvances(b, t, next, newId);
  }

  lemma ContinueTurnAdvances(b: Broker, turn: TurnStep, t: Transcript, newId: EscalationId)
    requires Inv(b) && b.pc == Classifying(turn) && !turn.Triage?
    ensures Advances(b, ContinueTurn(b, turn), t, newId, None)
  {
  }

  lemma ContinueDeliveryAdvances(
      b: Broker, id: EscalationId, delivery: DeliveryStep, t: Transcript, newId: EscalationId)
    requires Inv(b) && b.pc == Delivering(id, delivery)
    ensures Advances(b, ContinueDelivery(b, id, delivery), t, newId, None)
  {
  }

  lemma ContinueOpeningAdvances(b: Broker, opening: OpeningStep, t: Transcript, newId: EscalationId)
    requires Inv(b) && b.pc == Opening(opening)
    ensures Advances(b, ContinueOpening(b, opening), t, newId, None)
  {
  }

  lemma ContinueRelayAdvances(b: Broker, relay: RelayStep, t: Transcript, newId: EscalationId)
    requires Inv(b) && b.pc == Relaying(relay)
    ensures Advances(b, ContinueRelay(b, relay), t, newId, None)
  {
  }

  lemma ContinueAdvances(b: Broker, t: Transcript, newId: EscalationId)
    requires Inv(b) && Enabled(b, Resume(Ok, t, newId))
    ensures Advances(b, Continue(b, t), t, newId, None)
  {
    match b.pc
    case Checking(check, next) => ContinueCheckAdvances(b, check, next, t, newId);
    case Classifying(turn) => ContinueTurnAdvances(b, turn, t, newId);
    case Delivering(id, delivery) => ContinueDeliveryAdvances(b, id, delivery, t, newId);
    case Opening(opening) => ContinueOpeningAdvances(b, opening, t, newId);
    case Relaying(relay) => ContinueRelayAdvances(b, relay, t, newId);
    case _ => StopAdvances(b, t, newId); SessionReportedAdvances(b, t, newId);
  }

  lemma FailAdvances(b: Broker, t: Transcript, newId: EscalationId)
    requires b.active.Some? ==> b.active.value in b.used
    ensures Advances(b, Fail(b), t, newId, None)
  {
  }

  lemma AbortDeliveryAdvances(b: Broker, outcome: Outcome, t: Transcript, newId: EscalationId)
    requires Inv(b) && b.pc.Delivering?
    ensures Advances(b, Abort(b, outcome), t, newId, None)
  {
    FailAdvances(b, t, newId);
  }

  lemma QuestionRefusedAdvances(b: Broker, id: EscalationId, t: Transcript, newId: EscalationId)
    requires Settled(b) && !TypingAnswer(b.pc)
    ensures Advances(b, Done(QuestionRefused(b, id)), t, newId, None)
  {
    StopAdvances(QuestionRefused(b, id), t, newId);
  }

  lemma SessionReportedAdvances(b: Broker, t: Transcript, newId: EscalationId)
    requires Settled(b) && !TypingAnswer(b.pc)
    ensures Advances(b, SessionReported(b), t, newId, None)
  {
    StopAdvances(Enqueue(b.(shutdown := true), Sentinel), t, newId);
  }

  lemma AbortReportAdvances(b: Broker, report: ReportStep, outcome: Outcome, t: Transcript, newId: EscalationId)
    requires Inv(b) && b.pc == Reporting(report)
    ensures Advances(b, Abort(b, outcome), t, newId, None)
  {
    match report
    case FatalAck => StopAdvances(b, t, newId);
    case EndedAck => SessionReportedAdvances(b, t, newId);
    case QuestionAck(id) => QuestionRefusedAdvances(b, id, t, newId); FailAdvances(b, t, newId);
    case _ => FailAdvances(b, t, newId);
  }

  lemma AbortAdvances(b: Broker, outcome: Outcome, t: Transcript, newId: EscalationId)
    requires Inv(b) && !b.pc.Idle? && !b.pc.Halted?
    ensures Advances(b, Abort(b, outcome), t, newId, None)
  {
    match b.pc
    case Delivering(_, _) => AbortDeliveryAdvances(b, outcome, t, newId);
    case Reporting(report) => AbortReportAdvances(b, report, outcome, t, newId);
    case _ => FailAdvances(b, t, newId);
  }

  lemma ActOnVerdictAdvances(b: Broker, verdict: Verdict, prompts: nat, t: Transcript, newId: EscalationId)
    requires Inv(b) && InTriage(b.pc)
    ensures Advances(b, ActOnVerdict(b, verdict, prompts, newId), t, newId, None)
  {
    RaiseAdvances(b, t, newId, prompts, None);
    FailAdvances(b, t, newId);
    StopAdvances(b, t, newId);
  }

  /** Every job segment, started or resumed, advances the broker. */
  lemma SegmentAdvances(b: Broker, input: Input)
    requires Inv(b) && Enabled(b, input) && (input.Dequeue? || input.Resume?)
    ensures Advances(if input.Dequeue? then b.(jobs := b.jobs[1..]) else b, Step(b, input), input.transcript,
        input.newId, SegmentJob(b, input))
  {
    match input
    case Dequeue(t, id) => StartJobAdvances(b.(jobs := b.jobs[1..]), b.jobs[0], t, id);
    case Resume(outcome, t, id) =>
      match outcome {
        case Ok => ContinueAdvances(b, t, id);
        case Triaged(verdict) => ActOnVerdictAdvances(b, verdict, b.pc.turn.prompts, t, id);
        case _ => AbortAdvances(b, outcome, t, id);
      }
  }

  /** The job a segment starts, if it is a first segment. */
  function SegmentJob(b: Broker, input: Input): Option<Job>
    requires Enabled(b, input)
  {
    if input.Dequeue? then Some(b.jobs[0]) else None
  }

  // ----- socket handlers

  predicate IsHandler(input: Input) {
    !input.Dequeue? && !input.Resume?
  }

  /** The picker a handler claims. */
  function HandlerClaim(b: Broker, input: Input): Option<ToolUseId> {
    match input
    case AskQuestion(tool, parses, _) =>
      if b.state == Driving && parses && b.budget < b.budgetMax then None else Some(tool)
    case AskEscalated(tool, _) => Some(tool)
    case _ => None
  }

  /** Handlers leave the serial loop and the active escalation alone. Of the
      session state they only end the session or close the reactivation gate. */
  predicate Handled(b: Broker, input: Input, r: Broker) {
    && r.pc == b.pc && r.active == b.active && r.used == b.used && r.budgetMax == b.budgetMax
    && (r.state == b.state || r.state == Stopped || (b.state == Completed && r.state == Grounding))
    && Picker(r) == (if HandlerClaim(b, input).Some? then HandlerClaim(b, input) else Picker(b))
    && r.budget == (if input.AskAnswered? then b.budget + 1 else b.budget)
  }

  lemma EscalateMenuClaims(b: Broker, tool: ToolUseId, newId: EscalationId)
    ensures EscalateMenu(b, tool, newId) ==
            b.(menu := Some(Menu(tool, Some(newId), None)), jobs := EscalateMenu(b, tool, newId).jobs)
  {
  }

  lemma InputSeenQueues(b: Broker)
    ensures InputSeen(b) == b.(jobs := InputSeen(b).jobs)
  {
  }

  lemma AskHandled(b: Broker, input: Input)
    requires Enabled(b, input) && (input.AskQuestion? || input.AskAnswered? || input.AskEscalated?)
    ensures Handled(b, input, Step(b, input))
  {
    match input
    case AskQuestion(tool, _, newId) => EscalateMenuClaims(b, tool, newId);
    case AskAnswered(tool) =>
    case AskEscalated(tool, newId) => EscalateMenuClaims(b.(asks := b.asks - multiset{tool}), tool, newId);
  }

  lemma HookHandled(b: Broker, input: Input)
    requires input.PromptSubmitHook? || input.ToolDoneHook?
    ensures Handled(b, input, Step(b, input))
  {
    InputSeenQueues(b);
    if input.ToolDoneHook? {
      var seen := b.(permissionPrompt := false);
      InputSeenQueues(seen);
      if input.mismatch.Some? {
        InputSeenQueues(Enqueue(seen, VerifyFailed(input.mismatch.value.0, input.mismatch.value.1, true)));
      }
    }
  }

  lemma HandlerHandled(b: Broker, input: Input)
    requires Enabled(b, input) && IsHandler(input)
    ensures Handled(b, input, Step(b, input))
  {
    if input.AskQuestion? || input.AskAnswered? || input.AskEscalated? {
      AskHandled(b, input);
    } else if input.PromptSubmitHook? || input.ToolDoneHook? {
      HookHandled(b, input);
    }
  }

  // ----- one step

  /** Every step keeps the invariant. */
  lemma StepKeeps(b: Broker, input: Input)
    requires Inv(b) && Enabled(b, input)
    ensures Inv(Step(b, input))
  {
    if IsHandler(input) {
      HandlerHandled(b, input);
    } else {
      SegmentAdvances(b, input);
    }
  }
}
