/** What exactly brings about the events of a session broker: for each, the
    condition on the state, the input and the transcript read, in both directions. */
module BrokerCauses {
  import opened Protocol
  import opened BrokerModel
  import opened BrokerSafety
  import BrokerLoop

  // ----- how far the checks of a job are

  predicate Recorded(b: Broker, t: Transcript) {
    b.menu.Some? && t.Readable? && b.menu.value.tool in t.answers
  }

  /** The check of the open picker needs no await: there is no picker, its answer
      is not recorded, or it belongs to no escalation. */
  predicate PickerPasses(b: Broker, t: Transcript) {
    b.menu.Some? ==> t.Readable? && (b.menu.value.tool in t.answers ==> b.menu.value.escalation.None?)
  }

  /** What follows the check of the picker a job starts with. */
  function AfterPicker(job: Job): Option<Next> {
    match job
    case TurnEnd => Some(Turn)
    case Reconcile => Some(Watch)
    case CheckMenu => Some(Finish)
    case _ => None
  }

  /** The next job, if the step starts it. */
  function Started(b: Broker, input: Input): Option<Job> {
    if input.Dequeue? && b.jobs != [] then Some(b.jobs[0]) else None
  }

  /** The step starts a job with a check of the picker. */
  function StartsCheck(b: Broker, input: Input): Option<Next> {
    if Started(b, input).Some? then AfterPicker(Started(b, input).value) else None
  }

  /** The await `check` of the running job ends well. */
  predicate Ends(b: Broker, input: Input) {
    input.Resume? && input.outcome.Ok?
  }

  /** The step that is over with the picker, and what is to follow. */
  function PickerChecked(b: Broker, input: Input): Option<Next> {
    if StartsCheck(b, input).Some? && PickerPasses(b, input.transcript) then StartsCheck(b, input)
    else if Ends(b, input) && b.pc.Checking?
         && (b.pc.check.MenuContact? || (b.pc.check.MenuRetract? && !b.pc.check.byDeveloper))
    then Some(b.pc.next)
    else None
  }

  /** The step looks whether the developer answered the escalation in the pane. */
  predicate ChecksResolution(b: Broker, input: Input) {
    Started(b, input) == Some(CheckResolution) || PickerChecked(b, input) in {Some(Turn), Some(Watch)}
  }

  /** The developer typed a prompt since the escalation was raised. */
  predicate AnsweredInPane(b: Broker, t: Transcript) {
    b.state == Escalated && b.active.Some? && t.Readable? && 0 <= b.baseline < t.prompts
  }

  /** The step reaches the turn boundary itself, with nothing left to check. */
  function AtBoundary(b: Broker, input: Input): Option<Next> {
    if Ends(b, input) && b.pc.Checking? && b.pc.check.ResolutionContact? then Some(b.pc.next)
    else PickerChecked(b, input)
  }

  /** A native prompt holds the pane after the step read the transcript. */
  predicate PaneHeld(b: Broker, input: Input) {
    b.permissionPrompt || (b.menu.Some? && !(input.Dequeue? && Recorded(b, input.transcript)))
  }

  /** The watchdog found something new said in a free pane. */
  predicate News(b: Broker, t: Transcript, held: bool) {
    !held && t.Readable? && t.events != b.lastEvents && t.hasText
  }

  /** The segment waits for a triage of the transcript just read. */
  predicate Triaging(r: Broker, t: Transcript) {
    r.pc.Classifying? && t.Readable? && r.pc == Classifying(Triage(t.prompts)) && r.lastEvents == t.events
  }

  // ----- the segments of the checks

  /** The bookkeeping no check touches. */
  predicate Untouched(b: Broker, r: Broker) {
    && r.baseline == b.baseline && r.used == b.used && r.budget == b.budget && r.jobs == b.jobs
    && r.permissionPrompt == b.permissionPrompt && r.shutdown == b.shutdown && r.launched == b.launched
    && (r.lastEvents == b.lastEvents || r.pc.Classifying?)
  }

  predicate TurnOver(b: Broker, t: Transcript, next: Next, held: bool) {
    b.state == Driving && (next == Turn || (next == Watch && News(b, t, held))) && t.Readable?
  }

  predicate TurnUnread(b: Broker, t: Transcript, next: Next, held: bool) {
    b.state == Driving && t.Unreadable? && (next == Turn || (next == Watch && !held))
  }

  predicate CheckUnread(b: Broker, t: Transcript) {
    t.Unreadable? && b.state == Escalated && b.active.Some? && b.baseline >= 0
  }

  /** From `b`, whose pane a prompt holds or not, the rest of a check reaches `r`:
      the escalation is withdrawn, the turn goes to triage, the transcript could
      not be read, or the job is over. */
  predicate Checked(b: Broker, r: Broker, t: Transcript, next: Next, held: bool, resolution: bool) {
    var withdraw := resolution && AnsweredInPane(b, t);
    var unread := (resolution && CheckUnread(b, t)) || TurnUnread(b, t, next, held);
    && Untouched(b, r)
    && (r.pc.Checking? <==> withdraw)
    && (withdraw ==> r.pc == Checking(ResolutionRetract(b.active.value), next))
    && (r.pc.Classifying? <==> TurnOver(b, t, next, held))
    && (r.pc.Classifying? ==> Triaging(r, t))
    && (r.pc.Reporting? <==> unread)
    && (unread ==> r.pc.report.FatalAck?)
    && (r.pc.Checking? || r.pc.Classifying? || r.pc.Reporting? || r.pc == Done(b).pc)
    && r.active == (if withdraw then None else b.active)
    && r.state == (if unread then Error else if withdraw then Driving else b.state)
  }

  lemma AfterResolutionChecks(b: Broker, t: Transcript, next: Next)
    ensures Checked(b, AfterResolution(b, t, next), t, next, Occupied(b), false)
    ensures AfterResolution(b, t, next).menu == b.menu
  {
  }

  lemma CheckOutOfBandChecks(b: Broker, t: Transcript, next: Next)
    ensures Checked(b, CheckOutOfBand(b, t, next), t, next, Occupied(b), true)
    ensures CheckOutOfBand(b, t, next).menu == b.menu
  {
    AfterResolutionChecks(b, t, next);
  }

  lemma AfterMenuChecks(b: Broker, t: Transcript, next: Next)
    ensures Checked(b, AfterMenu(b, t, next), t, next, Occupied(b), next != Finish)
    ensures AfterMenu(b, t, next).menu == b.menu
  {
    CheckOutOfBandChecks(b, t, next);
  }

  /** The retract of the picker's escalation. The developer answered it unless the
      transcript records the answers the broker injected. */
  function RetractsPicker(b: Broker, t: Transcript): CheckStep
    requires b.menu.Some? && !PickerPasses(b, t) && t.Readable?
  {
    var byBroker := b.menu.value.injected.Some? && t.answers[b.menu.value.tool] == b.menu.value.injected;
    MenuRetract(b.menu.value.escalation.value, !byBroker)
  }

  /** The check of the picker: its answer is read and its escalation retracted, the
      transcript could not be read, or the checks go on. */
  lemma CheckMenuChecks(b: Broker, t: Transcript, next: Next)
    ensures var r := CheckMenuAnswered(b, t, next);
      && r.menu == (if Recorded(b, t) then None else b.menu)
      && (PickerPasses(b, t) ==>
            Checked(b, r, t, next, b.permissionPrompt || (b.menu.Some? && !Recorded(b, t)), next != Finish))
      && (!PickerPasses(b, t) ==> Untouched(b, r) && r.active == b.active)
      && (!PickerPasses(b, t) && t.Unreadable? ==> r.pc == Reporting(FatalAck) && r.state == Error)
      && (!PickerPasses(b, t) && t.Readable? ==> r.state == b.state && r.pc == Checking(RetractsPicker(b, t), next))
  {
    AfterMenuChecks(b, t, next);
    AfterMenuChecks(b.(menu := None), t, next);
  }

  // ----- the steps

  /** The step is over with the checks up to the resolution check or past it. */
  lemma ChecksGoOn(b: Broker, input: Input)
    requires Enabled(b, input) && !IsHandler(input)
    ensures PickerChecked(b, input).Some? ==>
              Checked(Begun(b, input), Step(b, input), input.transcript, PickerChecked(b, input).value,
                      PaneHeld(b, input), PickerChecked(b, input) != Some(Finish))
    ensures Started(b, input) == Some(CheckResolution) ==>
              Checked(Begun(b, input), Step(b, input), input.transcript, Finish, PaneHeld(b, input), true)
    ensures Ends(b, input) && b.pc.Checking? && b.pc.check.ResolutionContact? ==>
              Checked(b, Step(b, input), input.transcript, b.pc.next, PaneHeld(b, input), false)
  {
    var start, t := Begun(b, input), input.transcript;
    if input.Dequeue? {
      if b.jobs[0].CheckResolution? {
        CheckOutOfBandChecks(start, t, Finish);
      } else if AfterPicker(b.jobs[0]).Some? {
        CheckMenuChecks(start, t, AfterPicker(b.jobs[0]).value);
      }
    } else if b.pc.Checking? {
      AfterMenuChecks(b, t, b.pc.next);
      AfterResolutionChecks(b, t, b.pc.next);
    }
  }

  /** The broker once the job of the step left the queue. */
  function Begun(b: Broker, input: Input): Broker {
    if Started(b, input).Some? then b.(jobs := b.jobs[1..]) else b
  }

  // ----- a question answered in the pane

  /** The step withdraws `id` as answered in the pane. */
  predicate Withdraws(b: Broker, input: Input, id: EscalationId) {
    && Enabled(b, input) && !IsHandler(input)
    && Step(b, input).pc.Checking? && Step(b, input).pc.check == ResolutionRetract(id)
  }

  /** The step belongs to the checks that may withdraw an escalation. */
  predicate InChecks(b: Broker, input: Input) {
    || PickerChecked(b, input).Some? || Started(b, input) == Some(CheckResolution)
    || (Ends(b, input) && b.pc.Checking? && b.pc.check.ResolutionContact?)
  }

  /** No other step withdraws an escalation as answered or triages a turn. */
  predicate Elsewhere(r: Broker) {
    (r.pc.Checking? ==> !r.pc.check.ResolutionRetract?) && !InTriage(r.pc)
  }

  lemma OtherJobElsewhere(b: Broker, job: Job, t: Transcript, newId: EscalationId)
    requires AfterPicker(job).None? && job != CheckResolution && b.pc.Idle?
    ensures Elsewhere(StartJob(b, job, t, newId))
  {
  }

  lemma ResumeElsewhere(b: Broker, input: Input)
    requires Enabled(b, input) && input.Resume? && !InChecks(b, input)
    ensures Elsewhere(Step(b, input))
  {
  }

  lemma NotInChecks(b: Broker, input: Input)
    requires Enabled(b, input) && !IsHandler(input) && !InChecks(b, input)
    ensures Elsewhere(Step(b, input))
  {
    if input.Resume? {
      ResumeElsewhere(b, input);
    } else if StartsCheck(b, input).Some? {
      CheckMenuChecks(Begun(b, input), input.transcript, StartsCheck(b, input).value);
    } else {
      OtherJobElsewhere(Begun(b, input), b.jobs[0], input.transcript, input.newId);
    }
  }

  /** An escalation is withdrawn as answered in the pane if and only if a check for
      it reads more prompts than its baseline. */
  lemma WithdrawsExactly(b: Broker, input: Input, id: EscalationId)
    requires Enabled(b, input) && !IsHandler(input)
    ensures Withdraws(b, input, id) <==>
            ChecksResolution(b, input) && AnsweredInPane(b, input.transcript) && b.active == Some(id)
  {
    ChecksGoOn(b, input);
    if !InChecks(b, input) {
      NotInChecks(b, input);
    }
  }

  // ----- triage

  /** The step hands the turn to triage. */
  predicate Triages(b: Broker, input: Input) {
    Enabled(b, input) && !IsHandler(input) && InTriage(Step(b, input).pc)
  }

  /** A turn is triaged if and only if the checks are over while the broker is
      driving and, for the watchdog, something new was said and no native prompt
      holds the pane. What is remembered of the transcript is what was read. */
  lemma TriagesExactly(b: Broker, input: Input)
    requires Enabled(b, input) && !IsHandler(input)
    ensures Triages(b, input) <==>
            && AtBoundary(b, input).Some? && b.state == Driving && input.transcript.Readable?
            && (AtBoundary(b, input) == Some(Turn)
                || (AtBoundary(b, input) == Some(Watch) && News(b, input.transcript, PaneHeld(b, input))))
    ensures Triages(b, input) ==>
              && Step(b, input).pc == Classifying(Triage(input.transcript.prompts))
              && Step(b, input).lastEvents == input.transcript.events
  {
    ChecksGoOn(b, input);
    if !InChecks(b, input) {
      NotInChecks(b, input);
    }
  }

  // ----- raising an escalation

  /** The triage hands the turn to the developer. */
  predicate HandsOver(b: Broker, input: Input) {
    && InTriage(b.pc) && input.Resume? && input.outcome.Triaged?
    && (input.outcome.verdict.EscalateCall? || (input.outcome.verdict.AnswerCall? && b.budget >= b.budgetMax))
  }

  /** The step starts to escalate a failed verification whose answer the session
      may have recorded. */
  predicate RaisesUnverified(b: Broker, input: Input) {
    Started(b, input).Some? && Started(b, input).value.VerifyFailed? && Started(b, input).value.recorded
  }

  /** What a step that raises nothing keeps of the active escalation's record. */
  predicate SameRaised(b: Broker, r: Broker) {
    r.used == b.used && r.baseline == b.baseline
  }

  /** The step raised `id`, to be measured against `baseline`. */
  predicate RaisedAs(b: Broker, r: Broker, id: EscalationId, baseline: int) {
    && r.active == Some(id) && r.used == b.used + {id} && r.baseline == baseline
    && r.state == Escalated && r.pc == Raising(id)
  }

  lemma OtherJobRaises(b: Broker, job: Job, t: Transcript, newId: EscalationId)
    requires AfterPicker(job).None? && job != CheckResolution
    requires !(job.VerifyFailed? && job.recorded)
    ensures SameRaised(b, StartJob(b, job, t, newId))
  {
  }

  lemma ResumeRaises(b: Broker, input: Input)
    requires Enabled(b, input) && input.Resume? && !InChecks(b, input) && !HandsOver(b, input)
    ensures SameRaised(b, Step(b, input))
  {
  }

  lemma HandlerRaises(b: Broker, input: Input)
    requires Enabled(b, input) && IsHandler(input)
    ensures SameRaised(b, Step(b, input))
  {
  }

  /** An escalation is raised if and only if triage hands a turn over, its verdict
      or the exhausted budget, or a failed verification is escalated. The baseline
      is what triage read, or none. */
  lemma RaisesExactly(b: Broker, input: Input)
    requires Enabled(b, input)
    ensures HandsOver(b, input) ==> RaisedAs(b, Step(b, input), input.newId, b.pc.turn.prompts)
    ensures RaisesUnverified(b, input) ==> RaisedAs(b, Step(b, input), input.newId, -1)
    ensures !HandsOver(b, input) && !RaisesUnverified(b, input) ==> SameRaised(b, Step(b, input))
  {
    if IsHandler(input) {
      HandlerRaises(b, input);
    } else if InChecks(b, input) {
      ChecksGoOn(b, input);
    } else if input.Resume? {
      if !HandsOver(b, input) {
        ResumeRaises(b, input);
      }
    } else if StartsCheck(b, input).Some? {
      CheckMenuChecks(Begun(b, input), input.transcript, StartsCheck(b, input).value);
    } else if !RaisesUnverified(b, input) {
      OtherJobRaises(Begun(b, input), b.jobs[0], input.transcript, input.newId);
    }
  }

  // ----- verdicts

  /** A native prompt holds the pane. */
  predicate Held(b: Broker) {
    b.menu.Some? || b.permissionPrompt
  }

  /** The step starts to type an answer of its own. */
  predicate StartsAnswer(b: Broker, input: Input) {
    Enabled(b, input) && !IsHandler(input) && TypingAnswer(Step(b, input).pc)
  }

  predicate Judged(b: Broker, input: Input, verdict: Verdict) {
    InTriage(b.pc) && input.Resume? && input.outcome == Triaged(verdict)
  }

  /** The step waits for the master to take the completion. */
  predicate StartsCompletion(b: Broker, input: Input) {
    Enabled(b, input) && !IsHandler(input) && Step(b, input).pc == Classifying(CompletionAck)
  }

  lemma JobsJudgeNothing(b: Broker, input: Input)
    requires Enabled(b, input) && input.Dequeue?
    ensures Step(b, input).pc.Classifying? ==> InTriage(Step(b, input).pc)
  {
    if InChecks(b, input) {
      ChecksGoOn(b, input);
    } else {
      NotInChecks(b, input);
      if StartsCheck(b, input).Some? {
        CheckMenuChecks(Begun(b, input), input.transcript, StartsCheck(b, input).value);
      }
    }
  }

  /** An answer is typed if and only if triage answers within the budget and no
      native prompt holds the pane; a completion is reported if and only if triage
      says so. */
  lemma VerdictsExactly(b: Broker, input: Input)
    requires Enabled(b, input) && !IsHandler(input)
    ensures StartsAnswer(b, input) <==> Judged(b, input, AnswerCall) && b.budget < b.budgetMax && !Held(b)
    ensures StartsCompletion(b, input) <==> Judged(b, input, CompleteCall)
    ensures Judged(b, input, NoActionCall) ==>
              Step(b, input) == b.(pc := if b.shutdown || !b.launched then Halted else Idle)
  {
    if input.Dequeue? {
      JobsJudgeNothing(b, input);
    } else if InChecks(b, input) {
      ChecksGoOn(b, input);
    } else if input.outcome.Triaged? {
      VerdictActs(b, input.outcome.verdict, b.pc.turn.prompts, input.newId);
    } else {
      NothingJudged(b, input);
    }
  }

  lemma VerdictActs(b: Broker, verdict: Verdict, prompts: nat, newId: EscalationId)
    ensures var r := ActOnVerdict(b, verdict, prompts, newId);
      && (TypingAnswer(r.pc) <==> verdict.AnswerCall? && b.budget < b.budgetMax && !Held(b))
      && (r.pc == Classifying(CompletionAck) <==> verdict.CompleteCall?)
      && (verdict.NoActionCall? ==> r == b.(pc := if b.shutdown || !b.launched then Halted else Idle))
  {
  }

  lemma NothingJudged(b: Broker, input: Input)
    requires Enabled(b, input) && input.Resume? && !InChecks(b, input) && !input.outcome.Triaged?
    ensures var pc := Step(b, input).pc;
      !TypingAnswer(pc) && pc != Classifying(CompletionAck)
  {
    if input.outcome.Ok? {
      AwaitJudgesNothing(b, input.transcript);
    } else {
      AbortJudgesNothing(b, input.outcome);
    }
  }

  lemma AwaitJudgesNothing(b: Broker, t: Transcript)
    requires !b.pc.Idle? && !b.pc.Halted? && !InTriage(b.pc)
    requires b.pc.Checking? ==> b.pc.check.ResolutionRetract? || (b.pc.check.MenuRetract? && b.pc.check.byDeveloper)
    ensures Continue(b, t).pc.Classifying? ==> Continue(b, t).pc.turn.AnswerReport?
  {
  }

  lemma AbortJudgesNothing(b: Broker, outcome: Outcome)
    requires !b.pc.Idle? && !b.pc.Halted?
    ensures !Abort(b, outcome).pc.Classifying?
  {
  }

  /** An answer that was typed counts, and its count is reported. */
  lemma AnswerCounted(b: Broker, input: Input)
    requires Enabled(b, input) && Ends(b, input) && TypingAnswer(b.pc)
    ensures Step(b, input).budget == b.budget + 1
    ensures Outstanding(Step(b, input).pc) == Some(BudgetUpdate(b.budget + 1))
  {
  }

  // ----- the open picker

  /** The master refuses the question of the open picker. */
  predicate RefusesQuestion(b: Broker, input: Input) {
    && input.Resume? && input.outcome.Refused? && b.menu.Some? && b.menu.value.escalation.Some?
    && b.pc == Reporting(QuestionAck(b.menu.value.escalation.value))
  }

  /** The picker after the step. */
  function PickerAfter(b: Broker, input: Input): Option<Menu> {
    var job := Started(b, input);
    if StartsCheck(b, input).Some? && Recorded(b, input.transcript) then None
    else if job.Some? && job.value.VerifyFailed? && !job.value.recorded then
      Some(Menu(job.value.tool, Some(input.newId), Some(job.value.injected)))
    else if RefusesQuestion(b, input) then Some(b.menu.value.(escalation := None))
    else b.menu
  }

  lemma OtherJobPicker(b: Broker, job: Job, t: Transcript, newId: EscalationId)
    requires AfterPicker(job).None? && job != CheckResolution
    ensures StartJob(b, job, t, newId).menu ==
            if job.VerifyFailed? && !job.recorded then Some(Menu(job.tool, Some(newId), Some(job.injected))) else b.menu
  {
  }

  lemma ResumePicker(b: Broker, input: Input)
    requires Enabled(b, input) && input.Resume? && !InChecks(b, input)
    ensures Step(b, input).menu == PickerAfter(b, input)
  {
    if input.outcome.Ok? {
      AwaitPicker(b, input.transcript);
    } else if !input.outcome.Triaged? {
      AbortPicker(b, input.outcome);
    }
  }

  lemma AwaitPicker(b: Broker, t: Transcript)
    requires !b.pc.Idle? && !b.pc.Halted? && !InTriage(b.pc)
    requires b.pc.Checking? ==> b.pc.check.ResolutionRetract? || (b.pc.check.MenuRetract? && b.pc.check.byDeveloper)
    ensures Continue(b, t).menu == b.menu
  {
  }

  lemma AbortPicker(b: Broker, outcome: Outcome)
    requires !b.pc.Idle? && !b.pc.Halted?
    ensures Abort(b, outcome).menu ==
            if b.menu.Some? && b.menu.value.escalation.Some? && !outcome.Failed?
               && b.pc == Reporting(QuestionAck(b.menu.value.escalation.value))
            then Some(b.menu.value.(escalation := None)) else b.menu
  {
  }

  /** A segment releases the picker if and only if it checks it and the transcript
      records its answer; a failed verification claims it, and a refused question
      takes its escalation off. */
  lemma PickerExactly(b: Broker, input: Input)
    requires Enabled(b, input) && !IsHandler(input)
    ensures Step(b, input).menu == PickerAfter(b, input)
  {
    if input.Resume? {
      if InChecks(b, input) {
        AfterMenuChecks(b, input.transcript, b.pc.next);
        AfterResolutionChecks(b, input.transcript, b.pc.next);
      } else {
        ResumePicker(b, input);
      }
    } else if StartsCheck(b, input).Some? {
      CheckMenuChecks(Begun(b, input), input.transcript, StartsCheck(b, input).value);
    } else if b.jobs[0].CheckResolution? {
      CheckOutOfBandChecks(Begun(b, input), input.transcript, Finish);
    } else {
      OtherJobPicker(Begun(b, input), b.jobs[0], input.transcript, input.newId);
    }
  }

  /** The step retracts the escalation `id` of the picker. */
  predicate RetractsQuestion(b: Broker, input: Input, id: EscalationId, byDeveloper: bool) {
    && Enabled(b, input) && !IsHandler(input)
    && Step(b, input).pc.Checking? && Step(b, input).pc.check == MenuRetract(id, byDeveloper)
  }

  lemma OtherJobRetracts(b: Broker, job: Job, t: Transcript, newId: EscalationId)
    requires AfterPicker(job).None? && job != CheckResolution && b.pc.Idle?
    ensures !StartJob(b, job, t, newId).pc.Checking?
  {
  }

  lemma ResumeRetracts(b: Broker, input: Input)
    requires Enabled(b, input) && input.Resume?
    ensures Step(b, input).pc.Checking? ==> !Step(b, input).pc.check.MenuRetract?
  {
    if InChecks(b, input) {
      ChecksGoOn(b, input);
    }
  }

  /** The question of the picker is retracted if and only if a check reads its
      answer. It counts as the developer's unless the broker injected the very
      same answers. */
  lemma RetractsQuestionExactly(b: Broker, input: Input, id: EscalationId, byDeveloper: bool)
    requires Enabled(b, input) && !IsHandler(input)
    ensures RetractsQuestion(b, input, id, byDeveloper) <==>
            && StartsCheck(b, input).Some? && Recorded(b, input.transcript)
            && b.menu.value.escalation == Some(id)
            && (byDeveloper <==> !(b.menu.value.injected.Some?
                                   && input.transcript.answers[b.menu.value.tool] == b.menu.value.injected))
  {
    if input.Resume? {
      ResumeRetracts(b, input);
    } else if StartsCheck(b, input).Some? {
      CheckMenuChecks(Begun(b, input), input.transcript, StartsCheck(b, input).value);
    } else if b.jobs[0].CheckResolution? {
      ChecksGoOn(b, input);
    } else {
      OtherJobRetracts(Begun(b, input), b.jobs[0], input.transcript, input.newId);
    }
  }

  // ----- contact with the developer

  /** The step counts as contact with the developer. */
  predicate MakesContact(b: Broker, input: Input) {
    Enabled(b, input) && !IsHandler(input) && InContact(Step(b, input).pc)
  }

  lemma JobContact(b: Broker, job: Job, t: Transcript, newId: EscalationId)
    requires AfterPicker(job).None? && job != CheckResolution && b.pc.Idle?
    ensures InContact(StartJob(b, job, t, newId).pc) <==> job.Reactivate?
  {
  }

  lemma AwaitContact(b: Broker, t: Transcript)
    requires !b.pc.Idle? && !b.pc.Halted? && !InTriage(b.pc)
    requires b.pc.Checking? ==> !b.pc.check.MenuContact? && !b.pc.check.ResolutionContact?
    requires b.pc.Checking? && b.pc.check.MenuRetract? ==> b.pc.check.byDeveloper
    ensures InContact(Continue(b, t).pc) <==>
            match b.pc
            case Checking(check, _) => true
            case Delivering(_, delivery) => delivery.DecisionWrite?
            case Relaying(relay) => relay.PromptRetract? || (relay.PromptWrite? && b.active.None?)
            case _ => false
  {
  }

  lemma NoContact(b: Broker, input: Input)
    requires Enabled(b, input) && input.Resume? && !Ends(b, input)
    ensures !InContact(Step(b, input).pc)
  {
  }

  /** The developer's contact: a question or an escalation answered in the pane, a
      decision or a prompt typed, a new task. Nothing else resets the budget. */
  predicate Contact(b: Broker, input: Input) {
    || Started(b, input) == Some(Reactivate)
    || (Ends(b, input) &&
        match b.pc
        case Checking(check, _) => (check.MenuRetract? && check.byDeveloper) || check.ResolutionRetract?
        case Delivering(_, delivery) => delivery.DecisionWrite?
        case Relaying(relay) => relay.PromptRetract? || (relay.PromptWrite? && b.active.None?)
        case _ => false)
  }

  lemma MakesContactExactly(b: Broker, input: Input)
    requires Enabled(b, input) && !IsHandler(input)
    ensures MakesContact(b, input) <==> Contact(b, input)
    ensures Contact(b, input) ==>
              Step(b, input).budget == 0 && Outstanding(Step(b, input).pc) == Some(BudgetUpdate(0))
  {
    if input.Dequeue? {
      JobsMakeContact(b, input);
    } else if InChecks(b, input) {
      ChecksGoOn(b, input);
    } else if Ends(b, input) {
      AwaitContact(b, input.transcript);
      AwaitResets(b, input.transcript);
    } else {
      NoContact(b, input);
    }
  }

  lemma JobsMakeContact(b: Broker, input: Input)
    requires Enabled(b, input) && input.Dequeue?
    ensures MakesContact(b, input) <==> Started(b, input) == Some(Reactivate)
    ensures Started(b, input) == Some(Reactivate) ==>
              Step(b, input).budget == 0 && Outstanding(Step(b, input).pc) == Some(BudgetUpdate(0))
  {
    if InChecks(b, input) {
      ChecksGoOn(b, input);
    } else if StartsCheck(b, input).Some? {
      CheckMenuChecks(Begun(b, input), input.transcript, StartsCheck(b, input).value);
    } else {
      JobContact(Begun(b, input), b.jobs[0], input.transcript, input.newId);
    }
  }

  lemma AwaitResets(b: Broker, t: Transcript)
    requires !b.pc.Idle? && !b.pc.Halted? && !InTriage(b.pc)
    requires b.pc.Checking? ==> !b.pc.check.MenuContact? && !b.pc.check.ResolutionContact?
    requires b.pc.Checking? && b.pc.check.MenuRetract? ==> b.pc.check.byDeveloper
    ensures InContact(Continue(b, t).pc) ==>
              Continue(b, t).budget == 0 && Outstanding(Continue(b, t).pc) == Some(BudgetUpdate(0))
  {
  }
}
