/** One session broker as a state machine.

    A broker runs queued jobs one at a time; a job is cut at its awaits, so the
    program counter `Pc` names the await the running job is suspended in. Socket
    handlers run between two job segments. `Step` gives the next state for every
    input; the transcript as read, new ids, model verdicts and the outcome of
    an awaited request or pane write are part of the input. */
module BrokerModel {
  import opened Protocol

  /** Answers recorded for an AskUserQuestion menu; only equality matters. */
  type Answers = nat

  /** The AskUserQuestion picker the broker left open in the pane. */
  datatype Menu = Menu(tool: ToolUseId, escalation: Option<EscalationId>, injected: Option<Answers>)

  /** The transcript as one read sees it: recorded menu answers, number of user
      prompts, number of events, and whether any assistant text exists. */
  datatype Transcript =
    | Unreadable
    | Readable(answers: map<ToolUseId, Option<Answers>>, prompts: nat, events: nat, hasText: bool)

  datatype Job =
    | TurnEnd
    | CheckMenu
    | CheckResolution
    | Deliver(id: EscalationId)
    | Reactivate
    | DeveloperPrompt
    | RaiseQuestion(id: EscalationId)
    | RetractMenu(id: EscalationId)
    | ReportBudget(count: nat)
    | VerifyFailed(tool: ToolUseId, injected: Answers, recorded: bool)
    | FailJob
    | Reconcile
    | EndSession
    | Sentinel

  /** What a job does once its menu or resolution check is over. */
  datatype Next = Finish | Turn | Watch

  /** Awaits of the menu and out-of-band checks. */
  datatype CheckStep =
    | MenuRetract(id: EscalationId, byDeveloper: bool)
    | MenuContact
    | ResolutionRetract(id: EscalationId)
    | ResolutionContact

  /** Awaits of the classification of a turn boundary. */
  datatype TurnStep = Triage(prompts: nat) | AnswerWrite | AnswerReport(count: nat) | CompletionAck

  /** Awaits of the delivery of a dispatched decision. */
  datatype DeliveryStep = DecisionWrite | DecisionContact | DeliveredAck | StaleAck | MissAck

  /** Awaits between a new task and the first prompt typed for it. */
  datatype OpeningStep = Starting | ReactivateContact | GroundingCall | ProposalAck | Approval | OpeningWrite

  /** Awaits of relaying a developer prompt. */
  datatype RelayStep = PromptMissAck | PromptWrite | PromptRetract(id: EscalationId) | PromptContact

  /** Awaits of jobs that only report. */
  datatype ReportStep =
    | QuestionAck(id: EscalationId)
    | SupersedeAck(id: EscalationId)
    | BudgetAck(count: nat)
    | FatalAck
    | EndedAck

  /** The await a broker's serial loop is suspended in. */
  datatype Pc =
    | Idle
    | Halted
    | Checking(check: CheckStep, next: Next)
    | Classifying(turn: TurnStep)
    | Raising(id: EscalationId)
    | Delivering(id: EscalationId, delivery: DeliveryStep)
    | Opening(opening: OpeningStep)
    | Relaying(relay: RelayStep)
    | Reporting(report: ReportStep)

  /** `used` is the history of ids this broker raised decision escalations under. */
  datatype Broker = Broker(
    budgetMax: nat,
    state: SessionState,
    active: Option<EscalationId>,
    baseline: int,
    menu: Option<Menu>,
    permissionPrompt: bool,
    budget: nat,
    jobs: seq<Job>,
    pc: Pc,
    launched: bool,
    shutdown: bool,
    lastEvents: int,
    asks: multiset<ToolUseId>,
    used: set<EscalationId>)

  datatype Verdict = AnswerCall | EscalateCall | CompleteCall | NoActionCall

  datatype Outcome = Ok | Refused | Failed | Triaged(verdict: Verdict)

  datatype Input =
    | Dequeue(transcript: Transcript, newId: EscalationId)
    | Resume(outcome: Outcome, transcript: Transcript, newId: EscalationId)
    | StopHook
    | StopFailureHook
    | PromptSubmitHook
    | ToolDoneHook(mismatch: Option<(ToolUseId, Answers)>)
    | PermissionNotification
    | SessionEndHook
    | WatchdogExpired
    | VerifyBackstop(tool: ToolUseId, injected: Answers, transcript: Transcript)
    | DispatchDecision(id: EscalationId)
    | ReactivateRequest
    | SendPromptRequest
    | ShutdownRequest
    | AskQuestion(tool: ToolUseId, parses: bool, newId: EscalationId)
    | AskAnswered(tool: ToolUseId)
    | AskEscalated(tool: ToolUseId, newId: EscalationId)

  // ----- starting a broker

  /** A broker for a newly spawned session: it first starts Claude in a pane. */
  function Spawned(budgetMax: nat, budget: nat): Broker {
    Broker(budgetMax, Spawning, None, 0, None, false, budget, [], Opening(Starting), false, false, -1, multiset{}, {})
  }

  /** A broker handed a running session with a new task. */
  function Reassigned(budgetMax: nat): Broker {
    Spawned(budgetMax, 0).(state := Grounding, pc := Opening(GroundingCall))
  }

  /** A broker that resumes the persisted task of a session whose broker is gone. */
  function Attached(budgetMax: nat, budget: nat, completed: bool): Broker {
    Spawned(budgetMax, budget).(state := if completed then Completed else Driving, pc := Idle, launched := true)
  }

  // ----- building blocks

  function Enqueue(b: Broker, job: Job): Broker {
    b.(jobs := b.jobs + [job])
  }

  /** A native prompt holds the pane, so nothing may be typed into it. */
  predicate Occupied(b: Broker) {
    b.menu.Some? || b.permissionPrompt
  }

  /** The job returned: back to the queue, unless the loop condition fails. */
  function Done(b: Broker): Broker {
    b.(pc := if b.shutdown || !b.launched then Halted else Idle)
  }

  /** The job raised: enter the error state and report it. */
  function Fail(b: Broker): Broker {
    b.(state := Error, pc := Reporting(FatalAck))
  }

  function NoteContact(b: Broker, pc: Pc): Broker {
    b.(budget := 0, pc := pc)
  }

  /** Raise `id` and go quiescent. A still active escalation is overwritten. */
  function Raise(b: Broker, id: EscalationId, baseline: int): Broker {
    b.(active := Some(id), used := b.used + {id}, baseline := baseline, state := Escalated, pc := Raising(id))
  }

  function ClaimMenu(b: Broker, menu: Menu): Broker {
    var claimed := b.(menu := Some(menu));
    if b.menu.Some? && b.menu.value.escalation.Some?
    then Enqueue(claimed, RetractMenu(b.menu.value.escalation.value))
    else claimed
  }

  function EscalateMenu(b: Broker, tool: ToolUseId, newId: EscalationId): Broker {
    Enqueue(ClaimMenu(b, Menu(tool, Some(newId), None)), RaiseQuestion(newId))
  }

  // ----- job segments

  function Classify(b: Broker, t: Transcript): Broker {
    if b.state != Driving then Done(b)
    else if t.Unreadable? then Fail(b)
    else b.(lastEvents := t.events, pc := Classifying(Triage(t.prompts)))
  }

  function AfterResolution(b: Broker, t: Transcript, next: Next): Broker {
    match next
    case Finish => Done(b)
    case Turn => if b.state == Escalated then Done(b) else Classify(b, t)
    case Watch =>
      if Occupied(b) || b.state != Driving then Done(b)
      else if t.Unreadable? then Fail(b)
      else if t.events == b.lastEvents || !t.hasText then Done(b)
      else Classify(b, t)
  }

  function CheckOutOfBand(b: Broker, t: Transcript, next: Next): Broker {
    if b.state != Escalated || b.active.None? || b.baseline < 0 then AfterResolution(b, t, next)
    else if t.Unreadable? then Fail(b)
    else if t.prompts <= b.baseline then AfterResolution(b, t, next)
    else
      b.(active := None, state := Driving, pc := Checking(ResolutionRetract(b.active.value), next))
  }

  function AfterMenu(b: Broker, t: Transcript, next: Next): Broker {
    if next.Finish? then Done(b) else CheckOutOfBand(b, t, next)
  }

  function CheckMenuAnswered(b: Broker, t: Transcript, next: Next): Broker {
    if b.menu.None? then AfterMenu(b, t, next)
    else if t.Unreadable? then Fail(b)
    else
      var menu := b.menu.value;
      if menu.tool !in t.answers then AfterMenu(b, t, next)
      else
        var released := b.(menu := None);
        if menu.escalation.None? then AfterMenu(released, t, next)
        else
          var byDeveloper := menu.injected.None? || t.answers[menu.tool] != menu.injected;
          released.(pc := Checking(MenuRetract(menu.escalation.value, byDeveloper), next))
  }

  function DeliverDecision(b: Broker, id: EscalationId): Broker {
    if b.active != Some(id) then b.(pc := Delivering(id, StaleAck))
    else if Occupied(b) then b.(pc := Delivering(id, MissAck))
    else b.(pc := Delivering(id, DecisionWrite))
  }

  /** The first segment of a job taken from the queue. */
  function StartJob(b: Broker, job: Job, t: Transcript, newId: EscalationId): Broker {
    match job
    case TurnEnd => CheckMenuAnswered(b, t, Turn)
    case CheckMenu => CheckMenuAnswered(b, t, Finish)
    case CheckResolution => CheckOutOfBand(b, t, Finish)
    case Deliver(id) => DeliverDecision(b, id)
    case Reactivate => NoteContact(b.(active := None), Opening(ReactivateContact))
    case DeveloperPrompt => b.(pc := Relaying(if Occupied(b) then PromptMissAck else PromptWrite))
    case RaiseQuestion(id) => b.(pc := Reporting(QuestionAck(id)))
    case RetractMenu(id) => b.(pc := Reporting(SupersedeAck(id)))
    case ReportBudget(count) => b.(pc := Reporting(BudgetAck(count)))
    case VerifyFailed(tool, injected, recorded) =>
      if recorded then Raise(b, newId, -1)
      else ClaimMenu(b, Menu(tool, Some(newId), Some(injected))).(pc := Reporting(QuestionAck(newId)))
    case FailJob => Fail(b)
    case Reconcile => CheckMenuAnswered(b, t, Watch)
    case EndSession => b.(pc := Reporting(EndedAck))
    case Sentinel => b.(pc := Halted)
  }

  function ActOnVerdict(b: Broker, verdict: Verdict, prompts: nat, newId: EscalationId): Broker {
    match verdict
    case AnswerCall =>
      if b.budget >= b.budgetMax then Raise(b, newId, prompts)
      else if Occupied(b) then Fail(b)
      else b.(pc := Classifying(AnswerWrite))
    case EscalateCall => Raise(b, newId, prompts)
    case CompleteCall => b.(pc := Classifying(CompletionAck))
    case NoActionCall => Done(b)
  }

  function ContinueCheck(b: Broker, check: CheckStep, next: Next, t: Transcript): Broker {
    match check
    case MenuRetract(_, byDeveloper) =>
      if byDeveloper then NoteContact(b, Checking(MenuContact, next)) else AfterMenu(b, t, next)
    case MenuContact => AfterMenu(b, t, next)
    case ResolutionRetract(_) => NoteContact(b, Checking(ResolutionContact, next))
    case ResolutionContact => AfterResolution(b, t, next)
  }

  function ContinueTurn(b: Broker, turn: TurnStep): Broker {
    match turn
    case Triage(_) => b
    case AnswerWrite => b.(budget := b.budget + 1, pc := Classifying(AnswerReport(b.budget + 1)))
    case AnswerReport(_) => Done(b)
    case CompletionAck => Done(b.(state := Completed))
  }

  function ContinueDelivery(b: Broker, id: EscalationId, delivery: DeliveryStep): Broker {
    match delivery
    case DecisionWrite => NoteContact(b.(active := None), Delivering(id, DecisionContact))
    case DecisionContact => b.(state := Driving, pc := Delivering(id, DeliveredAck))
    case _ => Done(b)
  }

  function ContinueOpening(b: Broker, opening: OpeningStep): Broker {
    match opening
    case Starting => b.(state := Grounding, pc := Opening(GroundingCall))
    case ReactivateContact => b.(state := Grounding, pc := Opening(GroundingCall))
    case GroundingCall => b.(state := AwaitingApproval, pc := Opening(ProposalAck))
    case ProposalAck => b.(pc := Opening(Approval))
    case Approval => if Occupied(b) then Fail(b) else b.(pc := Opening(OpeningWrite))
    case OpeningWrite => Done(b.(state := Driving, launched := true))
  }

  function PromptTyped(b: Broker): Broker {
    NoteContact(b.(state := Driving), Relaying(PromptContact))
  }

  function ContinueRelay(b: Broker, relay: RelayStep): Broker {
    match relay
    case PromptWrite =>
      if b.active.Some?
      then b.(active := None, state := Driving, pc := Relaying(PromptRetract(b.active.value)))
      else PromptTyped(b)
    case PromptRetract(_) => PromptTyped(b)
    case _ => Done(b)
  }

  function SessionReported(b: Broker): Broker {
    Done(Enqueue(b.(shutdown := true), Sentinel))
  }

  /** The await of the running job completed normally. */
  function Continue(b: Broker, t: Transcript): Broker {
    match b.pc
    case Idle => b
    case Halted => b
    case Checking(check, next) => ContinueCheck(b, check, next, t)
    case Classifying(turn) => ContinueTurn(b, turn)
    case Raising(_) => Done(b)
    case Delivering(id, delivery) => ContinueDelivery(b, id, delivery)
    case Opening(opening) => ContinueOpening(b, opening)
    case Relaying(relay) => ContinueRelay(b, relay)
    case Reporting(report) => if report.EndedAck? then SessionReported(b) else Done(b)
  }

  /** The picker stays claimed; only the refused escalation is dropped. */
  function QuestionRefused(b: Broker, id: EscalationId): Broker {
    if b.menu.Some? && b.menu.value.escalation == Some(id)
    then b.(menu := Some(b.menu.value.(escalation := None)))
    else b
  }

  /** The await of the running job was refused or raised. */
  function Abort(b: Broker, outcome: Outcome): Broker {
    match b.pc
    case Delivering(id, delivery) =>
      if delivery.DecisionWrite? then b.(pc := Delivering(id, MissAck)) else Fail(b)
    case Reporting(report) =>
      (match report
       case FatalAck => Done(b)
       case EndedAck => SessionReported(b)
       case QuestionAck(id) =>
         if outcome.Failed? then Fail(b) else Done(QuestionRefused(b, id))
       case _ => Fail(b))
    case _ => Fail(b)
  }

  // ----- the transition function

  /** The request the suspended job waits on, if it waits on the master at all. */
  function Outstanding(pc: Pc): Option<Request> {
    match pc
    case Idle => None
    case Halted => None
    case Checking(check, _) =>
      (match check
       case MenuRetract(id, _) => Some(PaneRetract(id))
       case ResolutionRetract(id) => Some(EscalationRetract(id))
       case _ => Some(BudgetUpdate(0)))
    case Classifying(turn) =>
      (match turn
       case AnswerReport(count) => Some(BudgetUpdate(count))
       case CompletionAck => Some(Completion)
       case _ => None)
    case Raising(id) => Some(Escalation(id))
    case Delivering(id, delivery) =>
      (match delivery
       case DecisionWrite => None
       case DecisionContact => Some(BudgetUpdate(0))
       case DeliveredAck => Some(DecisionDelivered(id))
       case StaleAck => Some(DecisionUndelivered(id, false))
       case MissAck => Some(DecisionUndelivered(id, true)))
    case Opening(opening) =>
      (match opening
       case ReactivateContact => Some(BudgetUpdate(0))
       case ProposalAck => Some(PromptProposal)
       case _ => None)
    case Relaying(relay) =>
      (match relay
       case PromptMissAck => Some(PromptUndelivered)
       case PromptWrite => None
       case PromptRetract(id) => Some(EscalationRetract(id))
       case PromptContact => Some(BudgetUpdate(0)))
    case Reporting(report) =>
      (match report
       case QuestionAck(id) => Some(PaneEscalation(id))
       case SupersedeAck(id) => Some(PaneRetract(id))
       case BudgetAck(count) => Some(BudgetUpdate(count))
       case FatalAck => Some(FatalError)
       case EndedAck => Some(SessionEnded))
  }

  predicate InTriage(pc: Pc) {
    pc.Classifying? && pc.turn.Triage?
  }

  predicate Enabled(b: Broker, input: Input) {
    match input
    case Dequeue(_, _) => b.pc.Idle? && b.jobs != []
    case Resume(outcome, _, _) =>
      && !b.pc.Idle? && !b.pc.Halted?
      && (outcome.Triaged? ==> InTriage(b.pc))
      && (outcome.Ok? ==> !InTriage(b.pc))
      && (outcome.Refused? ==> Outstanding(b.pc).Some?)
    case AskAnswered(tool) => tool in b.asks
    case AskEscalated(tool, _) => tool in b.asks
    case _ => true
  }

  function Step(b: Broker, input: Input): Broker
    requires Enabled(b, input)
  {
    match input
    case Dequeue(t, newId) => StartJob(b.(jobs := b.jobs[1..]), b.jobs[0], t, newId)
    case Resume(outcome, t, newId) =>
      (match outcome
       case Ok => Continue(b, t)
       case Triaged(verdict) => ActOnVerdict(b, verdict, b.pc.turn.prompts, newId)
       case _ => Abort(b, outcome))
    case StopHook => Enqueue(b.(permissionPrompt := false), TurnEnd)
    case StopFailureHook => Enqueue(b, FailJob)
    case PromptSubmitHook => InputSeen(b)
    case ToolDoneHook(mismatch) =>
      var seen := b.(permissionPrompt := false);
      InputSeen(if mismatch.Some? then Enqueue(seen, VerifyFailed(mismatch.value.0, mismatch.value.1, true)) else seen)
    case PermissionNotification => b.(permissionPrompt := true)
    case SessionEndHook => Enqueue(b.(state := Stopped), EndSession)
    case WatchdogExpired => Enqueue(b, Reconcile)
    case VerifyBackstop(tool, injected, t) =>
      if Confirms(t, tool, injected) then b else Enqueue(b, VerifyFailed(tool, injected, MayBeRecorded(t, tool)))
    case DispatchDecision(id) => Enqueue(b, Deliver(id))
    case ReactivateRequest => if b.state != Completed then b else Enqueue(b.(state := Grounding), Reactivate)
    case SendPromptRequest => if Occupied(b) then b else Enqueue(b, DeveloperPrompt)
    case ShutdownRequest => Enqueue(b.(shutdown := true), Sentinel)
    case AskQuestion(tool, parses, newId) =>
      if b.state != Driving then ClaimMenu(b, Menu(tool, None, None))
      else if !parses || b.budget >= b.budgetMax then EscalateMenu(b, tool, newId)
      else b.(asks := b.asks + multiset{tool})
    case AskAnswered(tool) =>
      var answered := b.(asks := b.asks - multiset{tool}, budget := b.budget + 1);
      Enqueue(answered, ReportBudget(b.budget + 1))
    case AskEscalated(tool, newId) => EscalateMenu(b.(asks := b.asks - multiset{tool}), tool, newId)
  }

  /** The transcript records exactly the injected answers. */
  predicate Confirms(t: Transcript, tool: ToolUseId, injected: Answers) {
    t.Readable? && tool in t.answers && t.answers[tool] == Some(injected)
  }

  /** An unreadable transcript counts as one that may record an answer. */
  predicate MayBeRecorded(t: Transcript, tool: ToolUseId) {
    t.Unreadable? || tool in t.answers
  }

  /** UserPromptSubmit and PostToolUse: queue the checks the input may settle. */
  function InputSeen(b: Broker): Broker {
    var menuChecked := if b.menu.Some? then Enqueue(b, CheckMenu) else b;
    if b.state == Escalated then Enqueue(menuChecked, CheckResolution) else menuChecked
  }

  // ----- runs

  predicate Initial(b: Broker) {
    || b == Spawned(b.budgetMax, b.budget)
    || b == Reassigned(b.budgetMax)
    || b == Attached(b.budgetMax, b.budget, true)
    || b == Attached(b.budgetMax, b.budget, false)
  }
}
