/** When a session broker can still report on an escalation that has left the
    master's queue, and why it stays silent once it cannot. */
module BrokerSilence {
  import opened Protocol
  import opened BrokerModel
  import BrokerSafety
  import BrokerRuns
  import opened BrokerLoop

  /** Jobs that look whether the open picker was answered. */
  predicate ChecksMenu(job: Job) {
    job.TurnEnd? || job.CheckMenu? || job.Reconcile?
  }

  /** Jobs after which the loop runs no other. */
  predicate Stops(job: Job) {
    job.EndSession? || job.Sentinel?
  }

  /** Some queued job, or a developer prompt sent once they are done, can lead to
      a report on `id`; `active` says whether `id` still is, `open` whether a
      picker holds the pane. */
  predicate ReportAhead(active: bool, open: bool, jobs: seq<Job>, id: EscalationId)
    decreases |jobs|
  {
    if jobs == [] then active
    else if jobs[0] == Deliver(id) then true
    else if Stops(jobs[0]) then false
    else if BrokerSafety.Forgets(jobs[0]) then ReportAhead(false, open, jobs[1..], id)
    else if jobs[0].DeveloperPrompt? then (active && !open) || ReportAhead(active, open, jobs[1..], id)
    else if ChecksMenu(jobs[0]) then ReportAhead(active, false, jobs[1..], id)
    else if jobs[0].VerifyFailed? then ReportAhead(active, true, jobs[1..], id)
    else ReportAhead(active, open, jobs[1..], id)
  }

  /** The loop takes another job: it is between jobs, or will be. */
  predicate Serves(b: Broker) {
    b.launched && !Ending(b.pc) && (b.pc.Idle? || !b.shutdown)
  }

  /** The jobs that still run: a loop told to shut down between two jobs runs the
      one it waits for. */
  function Runnable(b: Broker): seq<Job> {
    if b.pc.Idle? && b.shutdown && b.jobs != [] then [b.jobs[0], Sentinel] else b.jobs
  }

  /** The broker can come to report on `id`. `heard` says whether the report of
      the reset budget it may be waiting for is or will be accepted. */
  predicate MayReport(b: Broker, heard: bool, id: EscalationId) {
    || b.pc == Delivering(id, DecisionWrite)
    || (b.pc == Delivering(id, DecisionContact) && heard)
    || (b.pc == Relaying(PromptWrite) && b.active == Some(id))
    || (Serves(b) && ReportAhead(b.active == Some(id), b.menu.Some?, Runnable(b), id))
  }

  /** What holds of a broker whose escalation `id` left the queue: if it is still
      active the session failed, and no decision for it waits for a first launch. */
  predicate Left(b: Broker, id: EscalationId) {
    && (b.active == Some(id) ==> Failing(b.state) || Ending(b.pc))
    && (!b.launched && b.pc.Opening? ==> Deliver(id) !in b.jobs)
  }

  // ----- the queue

  lemma {:induction false} AheadMonotone(
      active: bool, open: bool, active': bool, open': bool, jobs: seq<Job>, id: EscalationId)
    requires (active' ==> active) && (open ==> open')
    requires ReportAhead(active', open', jobs, id)
    ensures ReportAhead(active, open, jobs, id)
    decreases |jobs|
  {
    if jobs != [] && jobs[0] != Deliver(id) {
      var forgets, verifies := BrokerSafety.Forgets(jobs[0]), jobs[0].VerifyFailed?;
      if forgets {
        AheadMonotone(false, open, false, open', jobs[1..], id);
      } else if ChecksMenu(jobs[0]) {
        AheadMonotone(active, false, active', false, jobs[1..], id);
      } else if verifies {
        AheadMonotone(active, true, active', true, jobs[1..], id);
      } else if !(jobs[0].DeveloperPrompt? && active' && !open') {
        AheadMonotone(active, open, active', open', jobs[1..], id);
      }
    }
  }

  /** More jobs, if none delivers a decision for `id`, make no report possible. */
  lemma {:induction false} AheadAppend(active: bool, open: bool, jobs: seq<Job>, more: seq<Job>, id: EscalationId)
    requires Deliver(id) !in more && ReportAhead(active, open, jobs + more, id)
    ensures ReportAhead(active, open, jobs, id)
    decreases |jobs|
  {
    if jobs == [] {
      assert jobs + more == more;
      NoneAhead(active, open, more, id);
    } else if jobs[0] != Deliver(id) {
      assert (jobs + more)[0] == jobs[0] && (jobs + more)[1..] == jobs[1..] + more;
      if BrokerSafety.Forgets(jobs[0]) {
        AheadAppend(false, open, jobs[1..], more, id);
      } else if ChecksMenu(jobs[0]) {
        AheadAppend(active, false, jobs[1..], more, id);
      } else if jobs[0].VerifyFailed? {
        AheadAppend(active, true, jobs[1..], more, id);
      } else if !(jobs[0].DeveloperPrompt? && active && !open) {
        AheadAppend(active, open, jobs[1..], more, id);
      }
    }
  }

  lemma {:induction false} NoneAhead(active: bool, open: bool, jobs: seq<Job>, id: EscalationId)
    requires Deliver(id) !in jobs && ReportAhead(active, open, jobs, id)
    ensures active
    decreases |jobs|
  {
    if jobs != [] {
      if BrokerSafety.Forgets(jobs[0]) {
        NoneAhead(false, open, jobs[1..], id);
      } else if ChecksMenu(jobs[0]) {
        NoneAhead(active, false, jobs[1..], id);
      } else if jobs[0].VerifyFailed? {
        NoneAhead(active, true, jobs[1..], id);
      } else if !(jobs[0].DeveloperPrompt? && active && !open) {
        NoneAhead(active, open, jobs[1..], id);
      }
    }
  }

  /** Only the first job runs: it alone must lead to the report. */
  lemma FirstAhead(active: bool, open: bool, jobs: seq<Job>, id: EscalationId)
    requires jobs != [] && ReportAhead(active, open, [jobs[0], Sentinel], id)
    ensures jobs[0] == Deliver(id) || (jobs[0].DeveloperPrompt? && active && !open)
    ensures ReportAhead(active, open, jobs, id)
  {
    assert [jobs[0], Sentinel][1..] == [Sentinel];
  }

  // ----- handlers

  lemma HandlerLeavesLoop(b: Broker, input: Input)
    requires Enabled(b, input) && BrokerSafety.IsHandler(input)
    ensures Step(b, input).launched == b.launched
    ensures Step(b, input).shutdown == (b.shutdown || input.ShutdownRequest?)
  {
    if input.AskQuestion? || input.AskAnswered? || input.AskEscalated? {
      AskLeavesLoop(b, input);
    } else if input.PromptSubmitHook? || input.ToolDoneHook? {
      HookLeavesLoop(b, input);
    }
  }

  lemma AskLeavesLoop(b: Broker, input: Input)
    requires Enabled(b, input) && (input.AskQuestion? || input.AskAnswered? || input.AskEscalated?)
    ensures Step(b, input).launched == b.launched && Step(b, input).shutdown == b.shutdown
  {
    match input
    case AskQuestion(tool, _, newId) => BrokerSafety.EscalateMenuClaims(b, tool, newId);
    case AskAnswered(_) =>
    case AskEscalated(tool, newId) =>
      BrokerSafety.EscalateMenuClaims(b.(asks := b.asks - multiset{tool}), tool, newId);
  }

  lemma HookLeavesLoop(b: Broker, input: Input)
    requires input.PromptSubmitHook? || input.ToolDoneHook?
    ensures Step(b, input).launched == b.launched && Step(b, input).shutdown == b.shutdown
  {
    BrokerSafety.InputSeenQueues(b);
    if input.ToolDoneHook? {
      var seen := b.(permissionPrompt := false);
      BrokerSafety.InputSeenQueues(seen);
      if input.mismatch.Some? {
        BrokerSafety.InputSeenQueues(Enqueue(seen, VerifyFailed(input.mismatch.value.0, input.mismatch.value.1, true)));
      }
    }
  }

  /** More queued jobs, a claimed picker or a shutdown make no report possible. */
  lemma MoreQueuedSilent(b: Broker, r: Broker, more: seq<Job>, heard: bool, id: EscalationId)
    requires Loop(b) && r.pc == b.pc && r.active == b.active && r.launched == b.launched
    requires r.jobs == b.jobs + more && Deliver(id) !in more
    requires (b.shutdown ==> r.shutdown) && (b.menu.Some? ==> r.menu.Some?)
    requires MayReport(r, heard, id)
    ensures MayReport(b, heard, id)
  {
    var active := b.active == Some(id);
    if Serves(r) && ReportAhead(active, r.menu.Some?, Runnable(r), id) {
      AheadMonotone(active, b.menu.Some?, active, r.menu.Some?, Runnable(r), id);
      if b.pc.Idle? && b.shutdown {
        assert Runnable(r) == Runnable(b);
      } else {
        if b.pc.Idle? && r.shutdown && r.jobs != [] {
          FirstAhead(active, b.menu.Some?, r.jobs, id);
        }
        AheadAppend(active, b.menu.Some?, b.jobs, more, id);
      }
    }
  }

  lemma HandlerSilent(b: Broker, input: Input, heard: bool, id: EscalationId)
    requires Enabled(b, input) && BrokerSafety.IsHandler(input) && !input.DispatchDecision? && Loop(b)
    requires MayReport(Step(b, input), heard, id)
    ensures MayReport(b, heard, id)
  {
    BrokerSafety.HandlerHandled(b, input);
    HandlerQueues(b, input);
    HandlerLeavesLoop(b, input);
    if Deliver(id) in HandlerJobs(b, input) {
      OnlyDispatchDelivers(b, input, id);
    }
    MoreQueuedSilent(b, Step(b, input), HandlerJobs(b, input), heard, id);
  }

  // ----- segments

  /** `r` comes from `b` without touching picker, queue or the loop's flags, and
      starts nothing that reports on `id`. */
  predicate Quiet(b: Broker, r: Broker, id: EscalationId) {
    && r.menu == b.menu && r.jobs == b.jobs && r.shutdown == b.shutdown && r.launched == b.launched
    && (r.active == Some(id) ==> b.active == Some(id))
    && !r.pc.Delivering? && !r.pc.Relaying? && !ReportsOn(r.pc, id)
    && (r.pc.Idle? ==> !b.shutdown && b.launched)
  }

  lemma StopQuiet(b: Broker, id: EscalationId)
    ensures Quiet(b, Done(b), id) && Quiet(b, Fail(b), id)
  {
  }

  lemma AfterResolutionQuiet(b: Broker, t: Transcript, next: Next, id: EscalationId)
    ensures Quiet(b, AfterResolution(b, t, next), id)
  {
    StopQuiet(b, id);
  }

  lemma CheckOutOfBandQuiet(b: Broker, t: Transcript, next: Next, id: EscalationId)
    requires b.active == Some(id) ==> Failing(b.state)
    ensures Quiet(b, CheckOutOfBand(b, t, next), id)
  {
    StopQuiet(b, id);
    AfterResolutionQuiet(b, t, next, id);
  }

  lemma AfterMenuQuiet(b: Broker, t: Transcript, next: Next, id: EscalationId)
    requires b.active == Some(id) ==> Failing(b.state)
    ensures Quiet(b, AfterMenu(b, t, next), id)
  {
    StopQuiet(b, id);
    CheckOutOfBandQuiet(b, t, next, id);
  }

  lemma CheckMenuAnsweredQuiet(b: Broker, t: Transcript, next: Next, id: EscalationId)
    requires b.active == Some(id) ==> Failing(b.state)
    ensures Quiet(b, CheckMenuAnswered(b, t, next), id) || Quiet(b.(menu := None), CheckMenuAnswered(b, t, next), id)
  {
    StopQuiet(b, id);
    AfterMenuQuiet(b, t, next, id);
    AfterMenuQuiet(b.(menu := None), t, next, id);
  }

  /** The broker neither reports on `id` nor will. */
  predicate Silent(b: Broker, id: EscalationId) {
    !ReportsOn(b.pc, id) && !MayReport(b, true, id)
  }

  /** The first segment of `job` ends in `r`: the flags the queue is read with
      are those the rest of the queue was judged by. */
  predicate Starts(b: Broker, job: Job, r: Broker, id: EscalationId) {
    && (r.active == Some(id) ==> b.active == Some(id) && !BrokerSafety.Forgets(job))
    && (r.jobs == b.jobs || r.jobs == b.jobs + ClaimJobs(b))
    && r.shutdown == b.shutdown && (r.launched ==> b.launched)
    && (if ChecksMenu(job) then true
        else if job.VerifyFailed? && !job.recorded then r.menu.Some?
        else r.menu == b.menu)
    && !ReportsOn(r.pc, id) && !(r.pc.Delivering? && r.pc.id == id)
    && (r.pc == Relaying(PromptWrite) ==> job.DeveloperPrompt? && b.menu.None?)
    && (r.pc.Idle? ==> !r.shutdown) && (Stops(job) ==> Ending(r.pc))
  }

  lemma StartCheckStarts(b: Broker, job: Job, t: Transcript, newId: EscalationId, id: EscalationId)
    requires ChecksMenu(job) || job.CheckResolution?
    requires b.active == Some(id) ==> Failing(b.state)
    ensures Starts(b, job, StartJob(b, job, t, newId), id)
  {
    match job
    case TurnEnd => CheckMenuAnsweredQuiet(b, t, Turn, id);
    case CheckMenu => CheckMenuAnsweredQuiet(b, t, Finish, id);
    case Reconcile => CheckMenuAnsweredQuiet(b, t, Watch, id);
    case CheckResolution => CheckOutOfBandQuiet(b, t, Finish, id);
  }

  lemma StartVerifyStarts(b: Broker, job: Job, t: Transcript, newId: EscalationId, id: EscalationId)
    requires job.VerifyFailed? && newId != id
    ensures Starts(b, job, StartJob(b, job, t, newId), id)
  {
  }

  lemma StartOtherStarts(b: Broker, job: Job, t: Transcript, newId: EscalationId, id: EscalationId)
    requires !ChecksMenu(job) && !job.CheckResolution? && !job.VerifyFailed? && job != Deliver(id)
    ensures Starts(b, job, StartJob(b, job, t, newId), id)
  {
  }

  lemma StartJobStarts(b: Broker, job: Job, t: Transcript, newId: EscalationId, id: EscalationId)
    requires job != Deliver(id) && newId != id && (b.active == Some(id) ==> Failing(b.state))
    ensures Starts(b, job, StartJob(b, job, t, newId), id)
  {
    if ChecksMenu(job) || job.CheckResolution? {
      StartCheckStarts(b, job, t, newId, id);
    } else if job.VerifyFailed? {
      StartVerifyStarts(b, job, t, newId, id);
    } else {
      StartOtherStarts(b, job, t, newId, id);
    }
  }

  /** Where the rest of the queue leads after `job`, given where it led before. */
  lemma AheadAfter(b: Broker, job: Job, rest: seq<Job>, r: Broker, id: EscalationId)
    requires b.jobs == rest && Starts(b, job, r, id)
    requires !ReportAhead(b.active == Some(id), b.menu.Some?, [job] + rest, id)
    requires !Ending(r.pc)
    ensures !ReportAhead(r.active == Some(id), r.menu.Some?, r.jobs, id)
  {
    assert ([job] + rest)[1..] == rest;
    if ReportAhead(r.active == Some(id), r.menu.Some?, r.jobs, id) {
      if r.jobs != rest {
        AheadAppend(r.active == Some(id), r.menu.Some?, rest, ClaimJobs(b), id);
      }
      var active := b.active == Some(id) && !BrokerSafety.Forgets(job);
      var open := if ChecksMenu(job) then false else if job.VerifyFailed? && !job.recorded then true else b.menu.Some?;
      AheadMonotone(active, open, r.active == Some(id), r.menu.Some?, rest, id);
    }
  }

  lemma StartSilent(b: Broker, t: Transcript, newId: EscalationId, heard: bool, id: EscalationId)
    requires Loop(b) && Left(b, id) && Enabled(b, Dequeue(t, newId)) && newId != id
    requires !MayReport(b, heard, id)
    ensures Silent(Step(b, Dequeue(t, newId)), id)
  {
    var job, rest := b.jobs[0], b.jobs[1..];
    var start := b.(jobs := rest);
    var r := StartJob(start, job, t, newId);
    assert b.jobs == [job] + rest;
    assert [job, Sentinel][1..] == [Sentinel];
    StartJobStarts(start, job, t, newId, id);
    if Serves(r) {
      AheadAfter(start, job, rest, r, id);
    }
  }

  // ----- awaits of the running job

  /** A resumed segment: picker and queue as they were. */
  predicate Resumes(b: Broker, r: Broker, id: EscalationId) {
    && r.menu.Some? == b.menu.Some? && (r.active == Some(id) ==> b.active == Some(id))
    && (Serves(r) ==> r.jobs == b.jobs && !r.shutdown && !b.shutdown && !Ending(b.pc))
    && (r.launched ==> b.launched || b.pc.Opening?)
    && !ReportsOn(r.pc, id) && !(r.pc.Delivering? && r.pc.id == id) && r.pc != Relaying(PromptWrite)
  }

  lemma QuietResumes(b: Broker, r: Broker, id: EscalationId)
    requires Quiet(b, r, id) && !b.pc.Idle? && !Ending(b.pc)
    ensures Resumes(b, r, id)
  {
  }

  lemma ContinueCheckResumes(b: Broker, check: CheckStep, next: Next, t: Transcript, id: EscalationId)
    requires b.pc == Checking(check, next) && (b.active == Some(id) ==> Failing(b.state))
    ensures Resumes(b, ContinueCheck(b, check, next, t), id)
  {
    AfterMenuQuiet(b, t, next, id);
    AfterResolutionQuiet(b, t, next, id);
    match check
    case MenuRetract(_, byDeveloper) => if !byDeveloper { QuietResumes(b, AfterMenu(b, t, next), id); }
    case MenuContact => QuietResumes(b, AfterMenu(b, t, next), id);
    case ResolutionRetract(_) =>
    case ResolutionContact => QuietResumes(b, AfterResolution(b, t, next), id);
  }

  lemma ContinueTurnResumes(b: Broker, turn: TurnStep, id: EscalationId)
    requires b.pc == Classifying(turn) && !turn.Triage?
    ensures Resumes(b, ContinueTurn(b, turn), id)
  {
  }

  lemma ContinueDeliveryResumes(b: Broker, id': EscalationId, delivery: DeliveryStep, id: EscalationId)
    requires b.pc == Delivering(id', delivery)
    requires id' == id ==> !delivery.DecisionWrite? && !delivery.DecisionContact?
    ensures Resumes(b, ContinueDelivery(b, id', delivery), id)
  {
  }

  lemma ContinueOpeningResumes(b: Broker, opening: OpeningStep, id: EscalationId)
    requires b.pc == Opening(opening)
    ensures Resumes(b, ContinueOpening(b, opening), id)
  {
  }

  lemma ContinueRelayResumes(b: Broker, relay: RelayStep, id: EscalationId)
    requires b.pc == Relaying(relay) && (relay.PromptWrite? ==> b.active != Some(id))
    ensures Resumes(b, ContinueRelay(b, relay), id)
  {
  }

  lemma StopResumes(b: Broker, id: EscalationId)
    requires !b.pc.Idle? && !Ending(b.pc)
    ensures Resumes(b, Done(b), id) && Resumes(b, Fail(b), id)
  {
  }

  lemma EndResumes(b: Broker, id: EscalationId)
    requires Ending(b.pc)
    ensures Resumes(b, SessionReported(b), id)
  {
  }

  lemma ContinueResumes(b: Broker, t: Transcript, newId: EscalationId, id: EscalationId)
    requires Enabled(b, Resume(Ok, t, newId)) && !MayReport(b, true, id)
    requires b.active == Some(id) ==> Failing(b.state) || Ending(b.pc)
    ensures Resumes(b, Continue(b, t), id)
  {
    match b.pc
    case Checking(check, next) => ContinueCheckResumes(b, check, next, t, id);
    case Classifying(turn) => ContinueTurnResumes(b, turn, id);
    case Delivering(id', delivery) => ContinueDeliveryResumes(b, id', delivery, id);
    case Opening(opening) => ContinueOpeningResumes(b, opening, id);
    case Relaying(relay) => ContinueRelayResumes(b, relay, id);
    case _ => if Ending(b.pc) { EndResumes(b, id); } else { StopResumes(b, id); }
  }

  lemma AbortResumes(b: Broker, outcome: Outcome, id: EscalationId)
    requires !b.pc.Idle? && !b.pc.Halted? && b.pc != Delivering(id, DecisionWrite)
    ensures Resumes(b, Abort(b, outcome), id)
  {
    if Ending(b.pc) {
      EndResumes(b, id);
    } else {
      StopResumes(b, id);
    }
  }

  lemma JudgeResumes(b: Broker, verdict: Verdict, newId: EscalationId, id: EscalationId)
    requires InTriage(b.pc) && newId != id
    ensures Resumes(b, ActOnVerdict(b, verdict, b.pc.turn.prompts, newId), id)
  {
  }

  lemma ResumesSilent(b: Broker, r: Broker, heard: bool, id: EscalationId)
    requires BrokerSafety.Inv(b) && Left(b, id) && !b.pc.Idle? && !MayReport(b, heard, id) && Resumes(b, r, id)
    ensures Silent(r, id)
  {
    if Serves(r) && ReportAhead(r.active == Some(id), r.menu.Some?, r.jobs, id) {
      AheadMonotone(b.active == Some(id), b.menu.Some?, r.active == Some(id), r.menu.Some?, b.jobs, id);
      if !b.launched {
        NoneAhead(b.active == Some(id), b.menu.Some?, b.jobs, id);
      }
    }
  }

  /** A resumed segment of a broker that cannot report leaves it so; `heard` is
      false only if the awaited report is refused. */
  lemma ResumeSilent(b: Broker, outcome: Outcome, t: Transcript, newId: EscalationId, heard: bool, id: EscalationId)
    requires BrokerSafety.Inv(b) && Left(b, id) && Enabled(b, Resume(outcome, t, newId)) && newId != id
    requires !MayReport(b, heard, id) && (b.pc == Delivering(id, DecisionContact) && outcome.Ok? ==> heard)
    ensures Silent(Step(b, Resume(outcome, t, newId)), id)
  {
    if outcome.Ok? {
      ContinueResumes(b, t, newId, id);
    } else if outcome.Triaged? {
      JudgeResumes(b, outcome.verdict, newId, id);
    } else {
      AbortResumes(b, outcome, id);
    }
    ResumesSilent(b, Step(b, Resume(outcome, t, newId)), heard, id);
  }

  // ----- an escalation that left the queue

  /** `r` is no opening, and launched just if `b` is. */
  predicate LaunchesNothing(b: Broker, r: Broker) {
    !r.pc.Opening? && r.launched == b.launched
  }

  lemma AfterResolutionOpens(b: Broker, t: Transcript, next: Next)
    ensures LaunchesNothing(b, AfterResolution(b, t, next))
  {
  }

  lemma CheckOutOfBandOpens(b: Broker, t: Transcript, next: Next)
    ensures LaunchesNothing(b, CheckOutOfBand(b, t, next))
  {
    AfterResolutionOpens(b, t, next);
  }

  lemma CheckOpens(b: Broker, t: Transcript, next: Next)
    ensures LaunchesNothing(b, AfterMenu(b, t, next)) && LaunchesNothing(b, AfterResolution(b, t, next))
    ensures LaunchesNothing(b, CheckOutOfBand(b, t, next))
  {
    CheckOutOfBandOpens(b, t, next);
    AfterResolutionOpens(b, t, next);
  }

  lemma StartOpens(b: Broker, job: Job, t: Transcript, newId: EscalationId)
    ensures StartJob(b, job, t, newId).launched == b.launched
  {
    match job
    case TurnEnd => CheckOpens(b, t, Turn); CheckOpens(b.(menu := None), t, Turn);
    case CheckMenu => CheckOpens(b, t, Finish); CheckOpens(b.(menu := None), t, Finish);
    case Reconcile => CheckOpens(b, t, Watch); CheckOpens(b.(menu := None), t, Watch);
    case CheckResolution => CheckOpens(b, t, Finish);
    case _ =>
  }

  lemma ContinueCheckOpens(b: Broker, check: CheckStep, next: Next, t: Transcript)
    ensures LaunchesNothing(b, ContinueCheck(b, check, next, t))
  {
    CheckOpens(b, t, next);
  }

  lemma ContinueTurnOpens(b: Broker, turn: TurnStep)
    ensures !turn.Triage? ==> LaunchesNothing(b, ContinueTurn(b, turn))
  {
  }

  lemma ContinueDeliveryOpens(b: Broker, id: EscalationId, delivery: DeliveryStep)
    ensures LaunchesNothing(b, ContinueDelivery(b, id, delivery))
  {
  }

  lemma ContinueRelayOpens(b: Broker, relay: RelayStep)
    ensures LaunchesNothing(b, ContinueRelay(b, relay))
  {
  }

  lemma ContinueOpeningOpens(b: Broker, opening: OpeningStep)
    ensures b.launched ==> ContinueOpening(b, opening).launched
  {
  }

  lemma ContinueOpens(b: Broker, t: Transcript)
    requires !InTriage(b.pc)
    ensures (Continue(b, t).pc.Opening? ==> b.pc.Opening?) && (b.launched ==> Continue(b, t).launched)
  {
    match b.pc
    case Checking(check, next) => ContinueCheckOpens(b, check, next, t);
    case Classifying(turn) => ContinueTurnOpens(b, turn);
    case Delivering(id, delivery) => ContinueDeliveryOpens(b, id, delivery);
    case Opening(opening) => ContinueOpeningOpens(b, opening);
    case Relaying(relay) => ContinueRelayOpens(b, relay);
    case _ =>
  }

  lemma AbortOpens(b: Broker, outcome: Outcome)
    ensures LaunchesNothing(b, Abort(b, outcome))
  {
  }

  lemma JudgeOpens(b: Broker, verdict: Verdict, prompts: nat, newId: EscalationId)
    ensures LaunchesNothing(b, ActOnVerdict(b, verdict, prompts, newId))
  {
  }

  lemma ResumeOpens(b: Broker, outcome: Outcome, t: Transcript, newId: EscalationId)
    requires Enabled(b, Resume(outcome, t, newId))
    ensures var r := Step(b, Resume(outcome, t, newId));
      (r.pc.Opening? ==> b.pc.Opening?) && (b.launched ==> r.launched)
  {
    if outcome.Ok? {
      ContinueOpens(b, t);
    } else if outcome.Triaged? {
      JudgeOpens(b, outcome.verdict, b.pc.turn.prompts, newId);
    } else {
      AbortOpens(b, outcome);
    }
  }

  /** Only a first launch goes on while a broker was never launched. */
  lemma SegmentOpens(b: Broker, input: Input)
    requires Enabled(b, input) && !BrokerSafety.IsHandler(input) && (b.pc.Idle? ==> b.launched)
    requires !Step(b, input).launched && Step(b, input).pc.Opening?
    ensures !b.launched && b.pc.Opening?
  {
    match input
    case Dequeue(t, newId) => StartOpens(b.(jobs := b.jobs[1..]), b.jobs[0], t, newId);
    case Resume(outcome, t, newId) => ResumeOpens(b, outcome, t, newId);
  }

  lemma LeftStays(b: Broker, input: Input, id: EscalationId)
    requires BrokerSafety.Inv(b) && Loop(b) && Left(b, id) && Enabled(b, input) && !input.DispatchDecision?
    requires BrokerSafety.IsHandler(input) || input.newId != id
    ensures Left(Step(b, input), id)
  {
    var r := Step(b, input);
    if BrokerSafety.IsHandler(input) {
      BrokerSafety.HandlerHandled(b, input);
      HandlerLeavesLoop(b, input);
    } else {
      SegmentRuns(b, input);
      if !r.launched && r.pc.Opening? {
        SegmentOpens(b, input);
      }
      if Ending(b.pc) {
        assert r.pc.Halted?;
      }
    }
    if Deliver(id) in r.jobs && !r.launched && r.pc.Opening? {
      BrokerRuns.StepDeliversDispatched(b, input, id);
    }
  }
}
