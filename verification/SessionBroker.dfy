/** The session broker as an object: job segments and socket handlers update its
    fields step by step, and each one is proved to take the step the model
    gives. A segment ends by naming the await it suspends in. */
module SessionBroker {
  import opened Protocol
  import opened BrokerModel
  import BrokerSafety
  import BrokerRuns

  class Session {
    const budgetMax: nat
    var state: SessionState
    var active: Option<EscalationId>
    var baseline: int
    var menu: Option<Menu>
    var permissionPrompt: bool
    var budget: nat
    var jobs: seq<Job>
    var pc: Pc
    var launched: bool
    var shutdown: bool
    var lastEvents: int
    var asks: multiset<ToolUseId>
    ghost var used: set<EscalationId>

    ghost function View(): Broker
      reads this
    {
      Broker(budgetMax, state, active, baseline, menu, permissionPrompt, budget, jobs, pc, launched, shutdown,
             lastEvents, asks, used)
    }

    /** The invariant of the model: every job and handler starts and ends in it. */
    ghost predicate Valid()
      reads this
    {
      BrokerSafety.Inv(View())
    }

    constructor (initial: Broker)
      requires Initial(initial)
      ensures View() == initial && Valid()
    {
      budgetMax := initial.budgetMax;
      state, active, baseline := initial.state, None, 0;
      menu, permissionPrompt, budget := None, false, initial.budget;
      jobs, pc := [], initial.pc;
      launched, shutdown, lastEvents := initial.launched, false, -1;
      asks, used := multiset{}, {};
    }

    // ----- building blocks

    method Queue(job: Job)
      modifies this`jobs
      ensures jobs == old(jobs) + [job]
    {
      jobs := jobs + [job];
    }

    method EndJob()
      modifies this`pc
      ensures View() == Done(old(View()))
    {
      if shutdown || !launched {
        pc := Halted;
      } else {
        pc := Idle;
      }
    }

    method FailWith()
      modifies this`state, this`pc
      ensures View() == Fail(old(View()))
    {
      state := Error;
      pc := Reporting(FatalAck);
    }

    method Contact(await: Pc)
      modifies this`budget, this`pc
      ensures View() == NoteContact(old(View()), await)
    {
      budget := 0;
      pc := await;
    }

    method RaiseEscalation(id: EscalationId, prompts: int)
      modifies this`active, this`used, this`baseline, this`state, this`pc
      ensures View() == Raise(old(View()), id, prompts)
    {
      active := Some(id);
      used := used + {id};
      baseline := prompts;
      state := Escalated;
      pc := Raising(id);
    }

    /** Records the open picker; a claimed one it replaces is retracted. */
    method Claim(picker: Menu)
      modifies this`menu, this`jobs
      ensures View() == ClaimMenu(old(View()), picker)
    {
      var superseded := menu;
      menu := Some(picker);
      if superseded.Some? && superseded.value.escalation.Some? {
        Queue(RetractMenu(superseded.value.escalation.value));
      }
    }

    method EscalatePicker(tool: ToolUseId, newId: EscalationId)
      modifies this`menu, this`jobs
      ensures View() == EscalateMenu(old(View()), tool, newId)
    {
      Claim(Menu(tool, Some(newId), None));
      Queue(RaiseQuestion(newId));
    }

    // ----- checks that open a job

    method ClassifyTurn(t: Transcript)
      modifies this`state, this`pc, this`lastEvents
      ensures View() == Classify(old(View()), t)
    {
      if state != Driving {
        EndJob();
      } else if t.Unreadable? {
        FailWith();
      } else {
        lastEvents := t.events;
        pc := Classifying(Triage(t.prompts));
      }
    }

    method ResolutionChecked(t: Transcript, next: Next)
      modifies this`state, this`pc, this`lastEvents
      ensures View() == AfterResolution(old(View()), t, next)
    {
      if next.Finish? {
        EndJob();
      } else if next.Turn? {
        if state == Escalated {
          EndJob();
        } else {
          ClassifyTurn(t);
        }
      } else {
        if menu.Some? || permissionPrompt || state != Driving {
          EndJob();
        } else if t.Unreadable? {
          FailWith();
        } else if t.events == lastEvents || !t.hasText {
          EndJob();
        } else {
          ClassifyTurn(t);
        }
      }
    }

    method CheckResolved(t: Transcript, next: Next)
      modifies this`active, this`state, this`pc, this`lastEvents
      ensures View() == CheckOutOfBand(old(View()), t, next)
    {
      if state != Escalated || active.None? || baseline < 0 {
        ResolutionChecked(t, next);
      } else if t.Unreadable? {
        FailWith();
      } else if t.prompts <= baseline {
        ResolutionChecked(t, next);
      } else {
        var retracted := active.value;
        active := None;
        state := Driving;
        pc := Checking(ResolutionRetract(retracted), next);
      }
    }

    method MenuChecked(t: Transcript, next: Next)
      modifies this`active, this`state, this`pc, this`lastEvents
      ensures View() == AfterMenu(old(View()), t, next)
    {
      if next.Finish? {
        EndJob();
      } else {
        CheckResolved(t, next);
      }
    }

    method CheckPicker(t: Transcript, next: Next)
      modifies this`menu, this`active, this`state, this`pc, this`lastEvents
      ensures View() == CheckMenuAnswered(old(View()), t, next)
    {
      if menu.None? {
        MenuChecked(t, next);
        return;
      }
      if t.Unreadable? {
        FailWith();
        return;
      }
      var open := menu.value;
      if open.tool !in t.answers {
        MenuChecked(t, next);
        return;
      }
      menu := None;
      if open.escalation.None? {
        MenuChecked(t, next);
        return;
      }
      var byDeveloper := open.injected.None? || t.answers[open.tool] != open.injected;
      pc := Checking(MenuRetract(open.escalation.value, byDeveloper), next);
    }

    method StartDelivery(id: EscalationId)
      modifies this`pc
      ensures View() == DeliverDecision(old(View()), id)
    {
      if active != Some(id) {
        pc := Delivering(id, StaleAck);
      } else if menu.Some? || permissionPrompt {
        pc := Delivering(id, MissAck);
      } else {
        pc := Delivering(id, DecisionWrite);
      }
    }

    // ----- the serial loop

    /** Takes the next job from the queue and runs its first segment. */
    method Take(t: Transcript, newId: EscalationId)
      requires Enabled(View(), Dequeue(t, newId))
      requires Valid()
      modifies this
      ensures View() == Step(old(View()), Dequeue(t, newId))
      ensures Valid() && (state.Driving? ==> active.None?)
    {
      BrokerSafety.StepKeeps(View(), Dequeue(t, newId));
      var job := jobs[0];
      jobs := jobs[1..];
      RunJob(job, t, newId);
    }

    /** The first segment of a job, up to its first await. */
    method RunJob(job: Job, t: Transcript, newId: EscalationId)
      modifies this
      ensures View() == StartJob(old(View()), job, t, newId)
    {
      match job
      case TurnEnd => CheckPicker(t, Turn);
      case CheckMenu => CheckPicker(t, Finish);
      case CheckResolution => CheckResolved(t, Finish);
      case Deliver(id) => StartDelivery(id);
      case Reactivate =>
        active := None;
        Contact(Opening(ReactivateContact));
      case DeveloperPrompt =>
        if menu.Some? || permissionPrompt {
          pc := Relaying(PromptMissAck);
        } else {
          pc := Relaying(PromptWrite);
        }
      case RaiseQuestion(id) => pc := Reporting(QuestionAck(id));
      case RetractMenu(id) => pc := Reporting(SupersedeAck(id));
      case ReportBudget(count) => pc := Reporting(BudgetAck(count));
      case VerifyFailed(tool, injected, recorded) =>
        if recorded {
          RaiseEscalation(newId, -1);
        } else {
          Claim(Menu(tool, Some(newId), Some(injected)));
          pc := Reporting(QuestionAck(newId));
        }
      case FailJob => FailWith();
      case Reconcile => CheckPicker(t, Watch);
      case EndSession => pc := Reporting(EndedAck);
      case Sentinel => pc := Halted;
    }

    /** The model judged the turn that just ended. */
    method Judge(verdict: Verdict, t: Transcript, newId: EscalationId)
      requires Enabled(View(), Resume(Triaged(verdict), t, newId))
      requires Valid()
      modifies this
      ensures View() == Step(old(View()), Resume(Triaged(verdict), t, newId))
      ensures Valid() && (state.Driving? ==> active.None?)
    {
      BrokerSafety.StepKeeps(View(), Resume(Triaged(verdict), t, newId));
      var prompts := pc.turn.prompts;
      match verdict
      case AnswerCall =>
        if budget >= budgetMax {
          RaiseEscalation(newId, prompts);
        } else if menu.Some? || permissionPrompt {
          FailWith();
        } else {
          pc := Classifying(AnswerWrite);
        }
      case EscalateCall => RaiseEscalation(newId, prompts);
      case CompleteCall => pc := Classifying(CompletionAck);
      case NoActionCall => EndJob();
    }

    method ResumeCheck(t: Transcript)
      requires pc.Checking?
      modifies this
      ensures View() == ContinueCheck(old(View()), old(pc).check, old(pc).next, t)
    {
      var next := pc.next;
      match pc.check
      case MenuRetract(_, byDeveloper) =>
        if byDeveloper {
          Contact(Checking(MenuContact, next));
        } else {
          MenuChecked(t, next);
        }
      case MenuContact => MenuChecked(t, next);
      case ResolutionRetract(_) => Contact(Checking(ResolutionContact, next));
      case ResolutionContact => ResolutionChecked(t, next);
    }

    method ResumeTurn()
      requires pc.Classifying?
      modifies this
      ensures View() == ContinueTurn(old(View()), old(pc).turn)
    {
      match pc.turn
      case Triage(_) =>
      case AnswerWrite =>
        budget := budget + 1;
        pc := Classifying(AnswerReport(budget));
      case AnswerReport(_) => EndJob();
      case CompletionAck =>
        state := Completed;
        EndJob();
    }

    /** The decision is typed: the escalation ends before it is reported. */
    method ResumeDelivery()
      requires pc.Delivering?
      modifies this
      ensures View() == ContinueDelivery(old(View()), old(pc).id, old(pc).delivery)
    {
      var id := pc.id;
      match pc.delivery
      case DecisionWrite =>
        active := None;
        Contact(Delivering(id, DecisionContact));
      case DecisionContact =>
        state := Driving;
        pc := Delivering(id, DeliveredAck);
      case _ => EndJob();
    }

    method ResumeOpening()
      requires pc.Opening?
      modifies this
      ensures View() == ContinueOpening(old(View()), old(pc).opening)
    {
      match pc.opening
      case Starting =>
        state := Grounding;
        pc := Opening(GroundingCall);
      case ReactivateContact =>
        state := Grounding;
        pc := Opening(GroundingCall);
      case GroundingCall =>
        state := AwaitingApproval;
        pc := Opening(ProposalAck);
      case ProposalAck => pc := Opening(Approval);
      case Approval =>
        if menu.Some? || permissionPrompt {
          FailWith();
        } else {
          pc := Opening(OpeningWrite);
        }
      case OpeningWrite =>
        state := Driving;
        launched := true;
        EndJob();
    }

    /** The developer's prompt is typed: an active escalation ends by it. */
    method ResumeRelay()
      requires pc.Relaying?
      modifies this
      ensures View() == ContinueRelay(old(View()), old(pc).relay)
    {
      match pc.relay
      case PromptMissAck => EndJob();
      case PromptWrite =>
        var ended := active;
        active := None;
        state := Driving;
        if ended.Some? {
          pc := Relaying(PromptRetract(ended.value));
        } else {
          Contact(Relaying(PromptContact));
        }
      case PromptRetract(_) =>
        state := Driving;
        Contact(Relaying(PromptContact));
      case PromptContact => EndJob();
    }

    /** Both outcomes of reporting the end of the session stop the loop. */
    method StopLoop()
      modifies this
      ensures View() == SessionReported(old(View()))
    {
      shutdown := true;
      Queue(Sentinel);
      EndJob();
    }

    /** The await of the running job completed. */
    method Proceed(t: Transcript, newId: EscalationId)
      requires Enabled(View(), Resume(Ok, t, newId))
      requires Valid()
      modifies this
      ensures View() == Step(old(View()), Resume(Ok, t, newId))
      ensures Valid() && (state.Driving? ==> active.None?)
    {
      BrokerSafety.StepKeeps(View(), Resume(Ok, t, newId));
      match pc
      case Checking(_, _) => ResumeCheck(t);
      case Classifying(_) => ResumeTurn();
      case Delivering(_, _) => ResumeDelivery();
      case Opening(_) => ResumeOpening();
      case Relaying(_) => ResumeRelay();
      case Reporting(report) =>
        if report.EndedAck? {
          StopLoop();
        } else {
          EndJob();
        }
      case Raising(_) => EndJob();
    }

    /** The await of the running job was refused or raised. */
    method Interrupt(outcome: Outcome, t: Transcript, newId: EscalationId)
      requires (outcome.Refused? || outcome.Failed?) && Enabled(View(), Resume(outcome, t, newId))
      requires Valid()
      modifies this
      ensures View() == Step(old(View()), Resume(outcome, t, newId))
      ensures Valid() && (state.Driving? ==> active.None?)
    {
      BrokerSafety.StepKeeps(View(), Resume(outcome, t, newId));
      if pc.Delivering? && pc.delivery.DecisionWrite? {
        pc := Delivering(pc.id, MissAck);
      } else if pc.Reporting? && pc.report.FatalAck? {
        EndJob();
      } else if pc.Reporting? && pc.report.EndedAck? {
        StopLoop();
      } else if pc.Reporting? && pc.report.QuestionAck? && outcome.Refused? {
        if menu.Some? && menu.value.escalation == Some(pc.report.id) {
          menu := Some(menu.value.(escalation := None));
        }
        EndJob();
      } else {
        FailWith();
      }
    }

    // ----- socket handlers

    method NoticeInput()
      modifies this`jobs
      ensures View() == InputSeen(old(View()))
    {
      if menu.Some? {
        Queue(CheckMenu);
      }
      if state == Escalated {
        Queue(CheckResolution);
      }
    }

    method OnToolDone(mismatch: Option<(ToolUseId, Answers)>)
      requires Valid()
      modifies this
      ensures View() == Step(old(View()), ToolDoneHook(mismatch))
      ensures Valid() && (state.Driving? ==> active.None?)
    {
      BrokerSafety.StepKeeps(View(), ToolDoneHook(mismatch));
      permissionPrompt := false;
      if mismatch.Some? {
        Queue(VerifyFailed(mismatch.value.0, mismatch.value.1, true));
      }
      NoticeInput();
    }

    method OnStop()
      requires Valid()
      modifies this
      ensures View() == Step(old(View()), StopHook)
      ensures Valid() && (state.Driving? ==> active.None?)
    {
      BrokerSafety.StepKeeps(View(), StopHook);
      permissionPrompt := false;
      Queue(TurnEnd);
    }

    /** A turn that failed is fatal, not over. */
    method OnStopFailure()
      requires Valid()
      modifies this
      ensures View() == Step(old(View()), StopFailureHook)
      ensures Valid() && (state.Driving? ==> active.None?)
    {
      BrokerSafety.StepKeeps(View(), StopFailureHook);
      Queue(FailJob);
    }

    method OnPromptSubmit()
      requires Valid()
      modifies this
      ensures View() == Step(old(View()), PromptSubmitHook)
      ensures Valid() && (state.Driving? ==> active.None?)
    {
      BrokerSafety.StepKeeps(View(), PromptSubmitHook);
      NoticeInput();
    }

    method OnPermissionPrompt()
      requires Valid()
      modifies this
      ensures View() == Step(old(View()), PermissionNotification)
      ensures Valid() && (state.Driving? ==> active.None?)
    {
      BrokerSafety.StepKeeps(View(), PermissionNotification);
      permissionPrompt := true;
    }

    method OnWatchdog()
      requires Valid()
      modifies this
      ensures View() == Step(old(View()), WatchdogExpired)
      ensures Valid() && (state.Driving? ==> active.None?)
    {
      BrokerSafety.StepKeeps(View(), WatchdogExpired);
      Queue(Reconcile);
    }

    /** The bounded second look at an injected answer. */
    method OnVerifyBackstop(tool: ToolUseId, injected: Answers, t: Transcript)
      requires Valid()
      modifies this
      ensures View() == Step(old(View()), VerifyBackstop(tool, injected, t))
      ensures Valid() && (state.Driving? ==> active.None?)
    {
      BrokerSafety.StepKeeps(View(), VerifyBackstop(tool, injected, t));
      if t.Unreadable? {
        Queue(VerifyFailed(tool, injected, true));
      } else if tool !in t.answers {
        Queue(VerifyFailed(tool, injected, false));
      } else if t.answers[tool] != Some(injected) {
        Queue(VerifyFailed(tool, injected, true));
      }
    }

    /** A dispatched decision is acknowledged before it is looked at. */
    method OnDispatch(id: EscalationId)
      requires Valid()
      modifies this
      ensures View() == Step(old(View()), DispatchDecision(id))
      ensures Valid() && (state.Driving? ==> active.None?)
    {
      BrokerSafety.StepKeeps(View(), DispatchDecision(id));
      Queue(Deliver(id));
    }

    method OnSessionEnd()
      requires Valid()
      modifies this
      ensures View() == Step(old(View()), SessionEndHook)
      ensures Valid() && (state.Driving? ==> active.None?)
    {
      BrokerSafety.StepKeeps(View(), SessionEndHook);
      state := Stopped;
      Queue(EndSession);
    }

    method OnShutdown()
      requires Valid()
      modifies this
      ensures View() == Step(old(View()), ShutdownRequest)
      ensures Valid() && (state.Driving? ==> active.None?)
    {
      BrokerSafety.StepKeeps(View(), ShutdownRequest);
      shutdown := true;
      Queue(Sentinel);
    }

    /** Only a completed session is reactivated; the gate closes at once. */
    method OnReactivate() returns (accepted: bool)
      requires Valid()
      modifies this
      ensures accepted == old(state).Completed?
      ensures View() == Step(old(View()), ReactivateRequest)
      ensures Valid() && (state.Driving? ==> active.None?)
    {
      BrokerSafety.StepKeeps(View(), ReactivateRequest);
      if state != Completed {
        return false;
      }
      state := Grounding;
      Queue(Reactivate);
      return true;
    }

    /** A prompt is refused while a native prompt holds the pane. */
    method OnSendPrompt() returns (accepted: bool)
      requires Valid()
      modifies this
      ensures accepted == !Occupied(old(View()))
      ensures View() == Step(old(View()), SendPromptRequest)
      ensures Valid() && (state.Driving? ==> active.None?)
    {
      BrokerSafety.StepKeeps(View(), SendPromptRequest);
      if menu.Some? || permissionPrompt {
        return false;
      }
      Queue(DeveloperPrompt);
      return true;
    }

    /** An AskUserQuestion hook: is the question answered on the session's
        behalf, or left to the picker? */
    method OnAsk(tool: ToolUseId, parses: bool, newId: EscalationId) returns (deciding: bool)
      requires Valid()
      modifies this
      ensures deciding == (old(state).Driving? && parses && old(budget) < budgetMax)
      ensures View() == Step(old(View()), AskQuestion(tool, parses, newId))
      ensures Valid() && (state.Driving? ==> active.None?)
    {
      BrokerSafety.StepKeeps(View(), AskQuestion(tool, parses, newId));
      if state != Driving {
        Claim(Menu(tool, None, None));
        return false;
      }
      if !parses || budget >= budgetMax {
        EscalatePicker(tool, newId);
        return false;
      }
      asks := asks + multiset{tool};
      return true;
    }

    method OnAskAnswered(tool: ToolUseId)
      requires tool in asks
      requires Valid()
      modifies this`asks, this`budget, this`jobs
      ensures View() == Step(old(View()), AskAnswered(tool))
      ensures Valid() && (state.Driving? ==> active.None?)
    {
      ghost var before := View();
      BrokerSafety.StepKeeps(before, AskAnswered(tool));
      asks := asks - multiset{tool};
      budget := budget + 1;
      assert View() == before.(asks := before.asks - multiset{tool}, budget := before.budget + 1);
      Queue(ReportBudget(budget));
    }

    method OnAskEscalated(tool: ToolUseId, newId: EscalationId)
      requires tool in asks
      requires Valid()
      modifies this`asks, this`menu, this`jobs
      ensures View() == Step(old(View()), AskEscalated(tool, newId))
      ensures Valid() && (state.Driving? ==> active.None?)
    {
      BrokerSafety.StepKeeps(View(), AskEscalated(tool, newId));
      ghost var decided := View().(asks := asks - multiset{tool});
      asks := asks - multiset{tool};
      assert View() == decided;
      EscalatePicker(tool, newId);
    }

    // ----- all inputs

    /** The input, if the broker takes it now. */
    method Feed(input: Input) returns (taken: bool)
      requires Valid()
      modifies this
      ensures taken == Enabled(old(View()), input)
      ensures View() == if taken then Step(old(View()), input) else old(View())
      ensures Valid()
    {
      if input.Dequeue? || input.Resume? {
        taken := FeedSegment(input);
      } else if input.AskQuestion? || input.AskAnswered? || input.AskEscalated? {
        taken := FeedAsk(input);
      } else {
        FeedHandler(input);
        taken := true;
      }
    }

    method FeedSegment(input: Input) returns (taken: bool)
      requires Valid() && (input.Dequeue? || input.Resume?)
      modifies this
      ensures taken == Enabled(old(View()), input)
      ensures View() == if taken then Step(old(View()), input) else old(View())
      ensures Valid()
    {
      match input
      case Dequeue(t, newId) =>
        taken := pc.Idle? && jobs != [];
        if taken {
          Take(t, newId);
        }
      case Resume(outcome, t, newId) =>
        taken := !pc.Idle? && !pc.Halted? && (outcome.Triaged? ==> InTriage(pc)) && (outcome.Ok? ==> !InTriage(pc))
                 && (outcome.Refused? ==> Outstanding(pc).Some?);
        if taken {
          match outcome
          case Ok => Proceed(t, newId);
          case Triaged(verdict) => Judge(verdict, t, newId);
          case _ => Interrupt(outcome, t, newId);
        }
    }

    method FeedAsk(input: Input) returns (taken: bool)
      requires Valid() && (input.AskQuestion? || input.AskAnswered? || input.AskEscalated?)
      modifies this
      ensures taken == Enabled(old(View()), input)
      ensures View() == if taken then Step(old(View()), input) else old(View())
      ensures Valid()
    {
      match input
      case AskQuestion(tool, parses, newId) =>
        taken := true;
        var _ := OnAsk(tool, parses, newId);
      case AskAnswered(tool) =>
        taken := tool in asks;
        if taken {
          OnAskAnswered(tool);
        }
      case AskEscalated(tool, newId) =>
        taken := tool in asks;
        if taken {
          OnAskEscalated(tool, newId);
        }
    }

    method FeedHandler(input: Input)
      requires Valid() && BrokerSafety.IsHandler(input)
      requires !input.AskQuestion? && !input.AskAnswered? && !input.AskEscalated?
      modifies this
      ensures View() == Step(old(View()), input)
      ensures Valid()
    {
      match input
      case StopHook => OnStop();
      case StopFailureHook => OnStopFailure();
      case PromptSubmitHook => OnPromptSubmit();
      case ToolDoneHook(mismatch) => OnToolDone(mismatch);
      case PermissionNotification => OnPermissionPrompt();
      case SessionEndHook => OnSessionEnd();
      case WatchdogExpired => OnWatchdog();
      case VerifyBackstop(tool, injected, t) => OnVerifyBackstop(tool, injected, t);
      case DispatchDecision(id) => OnDispatch(id);
      case ReactivateRequest => var _ := OnReactivate();
      case SendPromptRequest => var _ := OnSendPrompt();
      case ShutdownRequest => OnShutdown();
    }
  }

  // ----- a whole session

  /** Segments draw new ids. */
  ghost predicate DistinctIds(inputs: seq<Input>) {
    forall i, j | 0 <= i < j < |inputs| && !BrokerSafety.IsHandler(inputs[i]) && !BrokerSafety.IsHandler(inputs[j]) ::
      inputs[i].newId != inputs[j].newId
  }

  /** The inputs so far drew all the ids the broker used. */
  ghost predicate Drawn(b: Broker, inputs: seq<Input>, n: nat)
    requires n <= |inputs|
  {
    forall id | id in b.used :: exists i | 0 <= i < n :: !BrokerSafety.IsHandler(inputs[i]) && inputs[i].newId == id
  }

  lemma DrawnNext(b: Broker, inputs: seq<Input>, n: nat)
    requires n < |inputs| && DistinctIds(inputs) && Drawn(b, inputs, n)
    requires BrokerSafety.Inv(b) && Enabled(b, inputs[n])
    ensures BrokerRuns.NewId(b, inputs[n]) && Drawn(Step(b, inputs[n]), inputs, n + 1)
  {
    if BrokerSafety.IsHandler(inputs[n]) {
      BrokerSafety.HandlerHandled(b, inputs[n]);
    } else {
      BrokerSafety.SegmentAdvances(b, inputs[n]);
    }
  }

  lemma RunExtended(states: seq<Broker>, inputs: seq<Input>, input: Input)
    requires BrokerRuns.Run(states, inputs) && Enabled(states[|inputs|], input)
    requires BrokerRuns.NewId(states[|inputs|], input)
    ensures BrokerRuns.Run(states + [Step(states[|inputs|], input)], inputs + [input])
  {
    var states', inputs' := states + [Step(states[|inputs|], input)], inputs + [input];
    forall i | 0 <= i < |inputs'|
      ensures BrokerRuns.StepAt(states', inputs', i)
    {
      if i < |inputs| {
        assert BrokerRuns.StepAt(states, inputs, i);
      }
    }
  }

  /** What a broker is after the inputs it took. */
  ghost function Fed(b: Broker, inputs: seq<Input>): Broker {
    if inputs == [] then b
    else
      var before, input := Fed(b, inputs[..|inputs| - 1]), inputs[|inputs| - 1];
      if Enabled(before, input) then Step(before, input) else before
  }

  /** Runs a session on all its inputs, passing over those it cannot take. The
      states it goes through are a run, so that whatever holds of runs holds of
      the object; among that, it types one decision per escalation at most. */
  method Drive(initial: Broker, inputs: seq<Input>)
    returns (session: Session, ghost states: seq<Broker>, ghost taken: seq<Input>)
    requires Initial(initial) && DistinctIds(inputs)
    ensures BrokerRuns.Run(states, taken) && states[|taken|] == session.View() == Fed(initial, inputs)
    ensures forall i, j, id | 0 <= i < j < |taken| :: TypesOnce(states, taken, i, j, id)
  {
    session := new Session(initial);
    states, taken := [initial], [];
    for i := 0 to |inputs|
      invariant fresh(session) && session.Valid() && session.View() == Fed(initial, inputs[..i])
      invariant BrokerRuns.Run(states, taken) && states[|taken|] == session.View()
      invariant Drawn(session.View(), inputs, i)
    {
      ghost var b := session.View();
      var ok := session.Feed(inputs[i]);
      assert inputs[..i + 1][..i] == inputs[..i];
      if ok {
        DrawnNext(b, inputs, i);
        RunExtended(states, taken, inputs[i]);
        states, taken := states + [session.View()], taken + [inputs[i]];
      }
    }
    assert inputs[..|inputs|] == inputs;
    forall i, j, id | 0 <= i < j < |taken|
      ensures TypesOnce(states, taken, i, j, id)
    {
      TypedOnce(states, taken, i, j, id);
    }
  }

  ghost predicate TypesOnce(states: seq<Broker>, inputs: seq<Input>, i: nat, j: nat, id: EscalationId)
    requires i < |inputs| < |states| && j < |inputs|
  {
    !(BrokerRuns.TypesDecision(states[i], inputs[i], id) && BrokerRuns.TypesDecision(states[j], inputs[j], id))
  }

  lemma TypedOnce(states: seq<Broker>, inputs: seq<Input>, i: nat, j: nat, id: EscalationId)
    requires BrokerRuns.Run(states, inputs) && i < j < |inputs|
    ensures TypesOnce(states, inputs, i, j, id)
  {
    if !TypesOnce(states, inputs, i, j, id) {
      BrokerRuns.TypedAtMostOnce(states, inputs, i, j, id);
    }
  }
}
