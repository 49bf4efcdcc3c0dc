/** Properties of whole runs of one session broker. */
module BrokerRuns {
  import opened Protocol
  import opened BrokerModel
  import opened BrokerSafety
  import BrokerLoop

  /** Ids are uuids: an id handed to a step has not been raised before. */
  predicate NewId(b: Broker, input: Input) {
    IsHandler(input) || input.newId !in b.used
  }

  /** The `i`-th input takes the `i`-th state to the next. */
  predicate StepAt(states: seq<Broker>, inputs: seq<Input>, i: nat)
    requires i < |inputs| < |states|
  {
    && Enabled(states[i], inputs[i])
    && NewId(states[i], inputs[i])
    && states[i + 1] == Step(states[i], inputs[i])
  }

  /** `states` is a run: it starts in an initial state and each state follows
      from the one before by the input between them. */
  ghost predicate Run(states: seq<Broker>, inputs: seq<Input>) {
    && |states| == |inputs| + 1
    && Initial(states[0])
    && forall i | 0 <= i < |inputs| :: StepAt(states, inputs, i)
  }

  lemma {:induction false} RunKeeps(states: seq<Broker>, inputs: seq<Input>, i: nat)
    requires Run(states, inputs) && i < |states|
    ensures Inv(states[i])
  {
    if i > 0 {
      assert StepAt(states, inputs, i - 1);
      RunKeeps(states, inputs, i - 1);
      StepKeeps(states[i - 1], inputs[i - 1]);
    }
  }

  // ----- quiescence

  /** The step hands a text to the pane. */
  predicate StartsWrite(b: Broker, input: Input) {
    Enabled(b, input) && !IsHandler(input) && Writing(Step(b, input).pc)
  }

  /** A driving broker has no escalation active and, between jobs, an escalated
      one has; while an autonomous answer is being typed none is active; and no
      write of any kind starts while a native prompt holds the pane. */
  lemma QuiescentThroughout(states: seq<Broker>, inputs: seq<Input>, i: nat)
    requires Run(states, inputs) && i < |inputs|
    ensures states[i].state == Driving ==> states[i].active == None
    ensures states[i].pc.Idle? && states[i].state == Escalated ==> states[i].active.Some?
    ensures TypingAnswer(states[i].pc) ==> states[i].active == None
    ensures StartsWrite(states[i], inputs[i]) ==> states[i + 1].menu.None? && !states[i + 1].permissionPrompt
  {
    assert StepAt(states, inputs, i);
    RunKeeps(states, inputs, i);
    if !IsHandler(inputs[i]) {
      SegmentAdvances(states[i], inputs[i]);
    }
  }

  // ----- at most one decision per escalation

  /** The step confirms that the decision for `id` reached the pane. */
  predicate TypesDecision(b: Broker, input: Input, id: EscalationId) {
    b.pc == Delivering(id, DecisionWrite) && input.Resume? && input.outcome.Ok?
  }

  /** `id` was raised and is no longer active. */
  predicate Over(b: Broker, id: EscalationId) {
    id in b.used && b.active != Some(id)
  }

  lemma OverStays(b: Broker, input: Input, id: EscalationId)
    requires Inv(b) && Enabled(b, input) && NewId(b, input) && Over(b, id)
    ensures Over(Step(b, input), id)
  {
    if IsHandler(input) {
      HandlerHandled(b, input);
    } else {
      SegmentAdvances(b, input);
    }
  }

  lemma OverNext(states: seq<Broker>, inputs: seq<Input>, i: nat, id: EscalationId)
    requires Run(states, inputs) && i < |inputs| && Over(states[i], id)
    ensures Over(states[i + 1], id)
  {
    assert StepAt(states, inputs, i);
    RunKeeps(states, inputs, i);
    OverStays(states[i], inputs[i], id);
  }

  lemma {:induction false} OverForever(states: seq<Broker>, inputs: seq<Input>, i: nat, j: nat, id: EscalationId)
    requires Run(states, inputs) && i <= j < |states| && Over(states[i], id)
    ensures Over(states[j], id)
  {
    if i < j {
      OverForever(states, inputs, i, j - 1, id);
      OverNext(states, inputs, j - 1, id);
    }
  }

  /** Once an escalation stops being active (a decision typed, retracted,
      overwritten or dropped by a reactivation) no decision is ever typed for
      it, whatever dispatches arrive. */
  lemma NothingTypedOnceOver(states: seq<Broker>, inputs: seq<Input>, i: nat, j: nat, id: EscalationId)
    requires Run(states, inputs) && i < j < |inputs|
    requires states[i].active == Some(id) && states[i + 1].active != Some(id)
    ensures !TypesDecision(states[j], inputs[j], id)
  {
    assert StepAt(states, inputs, i);
    RunKeeps(states, inputs, i);
    RunKeeps(states, inputs, j);
    StepKeepsUsed(states[i], inputs[i]);
    OverForever(states, inputs, i + 1, j, id);
  }

  lemma StepKeepsUsed(b: Broker, input: Input)
    requires Inv(b) && Enabled(b, input)
    ensures b.used <= Step(b, input).used
  {
    if IsHandler(input) {
      HandlerHandled(b, input);
    } else {
      SegmentAdvances(b, input);
    }
  }

  /** At most one decision per escalation is typed into the pane. */
  lemma TypedAtMostOnce(states: seq<Broker>, inputs: seq<Input>, i: nat, j: nat, id: EscalationId)
    requires Run(states, inputs) && i < |inputs| && j < |inputs|
    requires TypesDecision(states[i], inputs[i], id) && TypesDecision(states[j], inputs[j], id)
    ensures i == j
  {
    RunKeeps(states, inputs, i);
    RunKeeps(states, inputs, j);
    assert StepAt(states, inputs, i) && StepAt(states, inputs, j);
    if i < j {
      NothingTypedOnceOver(states, inputs, i, j, id);
    } else if j < i {
      NothingTypedOnceOver(states, inputs, j, i, id);
    }
  }

  /** Delivery of `id` is queued or under way. */
  predicate DeliveryPending(b: Broker, id: EscalationId) {
    Deliver(id) in b.jobs || (b.pc.Delivering? && b.pc.id == id)
  }

  lemma HandlerDeliversDispatched(b: Broker, input: Input, id: EscalationId)
    requires Enabled(b, input) && IsHandler(input) && Deliver(id) in Step(b, input).jobs
    ensures Deliver(id) in b.jobs || input == DispatchDecision(id)
  {
    BrokerLoop.HandlerQueues(b, input);
    if Deliver(id) !in b.jobs {
      BrokerLoop.OnlyDispatchDelivers(b, input, id);
    }
  }

  lemma SegmentDeliversQueued(
      b: Broker, r: Broker, t: Transcript, newId: EscalationId, job: Option<Job>, id: EscalationId)
    requires Advances(b, r, t, newId, job) && DeliveryPending(r, id)
    ensures DeliveryPending(b, id) || job == Some(Deliver(id))
  {
  }

  lemma StepDeliversDispatched(b: Broker, input: Input, id: EscalationId)
    requires Inv(b) && Enabled(b, input) && DeliveryPending(Step(b, input), id)
    ensures DeliveryPending(b, id) || input == DispatchDecision(id)
  {
    if IsHandler(input) {
      HandlerHandled(b, input);
      if Deliver(id) in Step(b, input).jobs {
        HandlerDeliversDispatched(b, input, id);
      }
    } else {
      SegmentAdvances(b, input);
      var start := if input.Dequeue? then b.(jobs := b.jobs[1..]) else b;
      SegmentDeliversQueued(start, Step(b, input), input.transcript, input.newId, SegmentJob(b, input), id);
    }
  }

  /** A decision is typed only for an escalation that was dispatched before. */
  lemma {:induction false} TypedOnlyIfDispatched(states: seq<Broker>, inputs: seq<Input>, j: nat, id: EscalationId)
    requires Run(states, inputs) && j < |states| && DeliveryPending(states[j], id)
    ensures exists i | 0 <= i < j :: inputs[i] == DispatchDecision(id)
  {
    if j > 0 {
      assert StepAt(states, inputs, j - 1);
      RunKeeps(states, inputs, j - 1);
      StepDeliversDispatched(states[j - 1], inputs[j - 1], id);
      if DeliveryPending(states[j - 1], id) {
        TypedOnlyIfDispatched(states, inputs, j - 1, id);
      }
    }
  }

  /** The broker reports that the decision for `id` was typed. */
  predicate Confirming(pc: Pc, id: EscalationId) {
    pc.Delivering? && pc.id == id && (pc.delivery.DecisionContact? || pc.delivery.DeliveredAck?)
  }

  /** Only the step that typed the decision leads to the report. */
  lemma ConfirmsTyped(b: Broker, input: Input, id: EscalationId)
    requires Inv(b) && Enabled(b, input) && Confirming(Step(b, input).pc, id)
    ensures Confirming(b.pc, id) || TypesDecision(b, input, id)
  {
    if IsHandler(input) {
      HandlerHandled(b, input);
    } else {
      SegmentAdvances(b, input);
    }
  }

  // ----- the claimed picker

  /** The picker a step claims. */
  function Claims(b: Broker, input: Input): Option<ToolUseId> {
    if input.Resume? || (input.Dequeue? && b.jobs == []) then None
    else if input.Dequeue? then JobClaim(b.jobs[0])
    else HandlerClaim(b, input)
  }

  /** The step read a transcript that records the answer to `tool`. */
  predicate ReadsAnswer(input: Input, tool: ToolUseId) {
    !IsHandler(input) && AnswerRecorded(input.transcript, tool)
  }

  lemma ClaimOpensPicker(b: Broker, input: Input)
    requires Inv(b) && Enabled(b, input) && Claims(b, input).Some?
    ensures Picker(Step(b, input)) == Claims(b, input)
  {
    if IsHandler(input) {
      HandlerHandled(b, input);
    } else {
      SegmentAdvances(b, input);
    }
  }

  lemma OpenPickerStays(b: Broker, input: Input, tool: ToolUseId)
    requires Inv(b) && Enabled(b, input) && Picker(b) == Some(tool)
    requires Claims(b, input) == None && !ReadsAnswer(input, tool)
    ensures Picker(Step(b, input)) == Some(tool) && !StartsWrite(b, input)
  {
    if IsHandler(input) {
      HandlerHandled(b, input);
    } else {
      SegmentAdvances(b, input);
    }
  }

  /** The step neither claims a picker nor reads the answer to `tool`. */
  predicate Leaves(b: Broker, input: Input, tool: ToolUseId) {
    Claims(b, input) == None && !ReadsAnswer(input, tool)
  }

  /** Between steps `i` and `j` no picker is claimed and no read shows the
      answer to `tool`. */
  ghost predicate StaysOpen(states: seq<Broker>, inputs: seq<Input>, i: nat, j: nat, tool: ToolUseId)
    requires j <= |inputs| <= |states|
  {
    forall k | i < k < j :: Leaves(states[k], inputs[k], tool)
  }

  lemma {:induction false} PickerStaysOpen(states: seq<Broker>, inputs: seq<Input>, i: nat, j: nat, tool: ToolUseId)
    requires Run(states, inputs) && i < j <= |inputs|
    requires Claims(states[i], inputs[i]) == Some(tool)
    requires StaysOpen(states, inputs, i, j, tool)
    ensures Picker(states[j]) == Some(tool)
  {
    assert StepAt(states, inputs, j - 1);
    RunKeeps(states, inputs, j - 1);
    if j - 1 == i {
      ClaimOpensPicker(states[i], inputs[i]);
    } else {
      PickerStaysOpen(states, inputs, i, j - 1, tool);
      assert Leaves(states[j - 1], inputs[j - 1], tool);
      OpenPickerStays(states[j - 1], inputs[j - 1], tool);
    }
  }

  /** From the step `i` that claims picker `tool` until a transcript records its
      answer, and unless a newer picker is claimed, no step `k` starts a pane
      write. */
  lemma NoWriteWhilePickerOpen(states: seq<Broker>, inputs: seq<Input>, i: nat, k: nat, tool: ToolUseId)
    requires Run(states, inputs) && i < k < |inputs|
    requires Claims(states[i], inputs[i]) == Some(tool)
    requires StaysOpen(states, inputs, i, k + 1, tool)
    ensures !StartsWrite(states[k], inputs[k])
  {
    PickerStaysOpen(states, inputs, i, k, tool);
    assert StepAt(states, inputs, k);
    assert Leaves(states[k], inputs[k], tool);
    RunKeeps(states, inputs, k);
    OpenPickerStays(states[k], inputs[k], tool);
  }

  // ----- the autonomy budget

  /** Autonomous answers past the budget check and not yet counted. */
  function Uncounted(b: Broker): nat {
    |b.asks| + if TypingAnswer(b.pc) then 1 else 0
  }

  /** The step answers the session without the developer. */
  predicate Answers(b: Broker, input: Input) {
    input.AskAnswered? || (TypingAnswer(b.pc) && input.Resume? && input.outcome.Ok?)
  }

  /** The step is contact with the developer. */
  predicate Contacts(b: Broker, input: Input) {
    Enabled(b, input) && !IsHandler(input) && InContact(Step(b, input).pc)
  }

  predicate WithinBudget(b: Broker, k: nat) {
    && b.budget + Uncounted(b) + 1 <= b.budgetMax + k
    && (b.budgetMax == 0 ==> Uncounted(b) == 0)
  }

  /** The answers being decided, after a handler. */
  function AsksAfter(b: Broker, input: Input): multiset<ToolUseId> {
    match input
    case AskQuestion(tool, parses, _) =>
      if b.state == Driving && parses && b.budget < b.budgetMax then b.asks + multiset{tool} else b.asks
    case AskAnswered(tool) => b.asks - multiset{tool}
    case AskEscalated(tool, _) => b.asks - multiset{tool}
    case _ => b.asks
  }

  lemma AskAsks(b: Broker, input: Input)
    requires Enabled(b, input) && (input.AskQuestion? || input.AskAnswered? || input.AskEscalated?)
    ensures Step(b, input).asks == AsksAfter(b, input)
  {
    match input
    case AskQuestion(tool, _, newId) => EscalateMenuClaims(b, tool, newId);
    case AskAnswered(_) =>
    case AskEscalated(tool, newId) => EscalateMenuClaims(b.(asks := b.asks - multiset{tool}), tool, newId);
  }

  lemma HandlerAsks(b: Broker, input: Input)
    requires Enabled(b, input) && IsHandler(input)
    ensures Step(b, input).asks == AsksAfter(b, input)
  {
    if input.AskQuestion? || input.AskAnswered? || input.AskEscalated? {
      AskAsks(b, input);
    } else if input.PromptSubmitHook? || input.ToolDoneHook? {
      InputSeenQueues(b);
      var seen := b.(permissionPrompt := false);
      InputSeenQueues(seen);
      if input.ToolDoneHook? && input.mismatch.Some? {
        InputSeenQueues(Enqueue(seen, VerifyFailed(input.mismatch.value.0, input.mismatch.value.1, true)));
      }
    }
  }

  lemma HandlerStaysWithinBudget(b: Broker, input: Input, k: nat)
    requires Enabled(b, input) && IsHandler(input) && WithinBudget(b, k)
    requires Uncounted(Step(b, input)) <= k
    ensures WithinBudget(Step(b, input), k)
  {
    HandlerHandled(b, input);
    HandlerAsks(b, input);
    BudgetArithmetic(b, Step(b, input), input, k);
  }

  lemma BudgetArithmetic(b: Broker, r: Broker, input: Input, k: nat)
    requires Enabled(b, input) && WithinBudget(b, k) && Uncounted(r) <= k
    requires r.asks == AsksAfter(b, input) && r.pc == b.pc && r.budgetMax == b.budgetMax
    requires r.budget == if input.AskAnswered? then b.budget + 1 else b.budget
    ensures WithinBudget(r, k)
  {
  }

  lemma StepStaysWithinBudget(b: Broker, input: Input, k: nat)
    requires Inv(b) && Enabled(b, input) && WithinBudget(b, k)
    requires Uncounted(Step(b, input)) <= k
    ensures WithinBudget(Step(b, input), k)
  {
    if IsHandler(input) {
      HandlerStaysWithinBudget(b, input, k);
    } else {
      SegmentAdvances(b, input);
    }
  }

  ghost predicate OverlapAtMost(states: seq<Broker>, k: nat) {
    forall i | 0 <= i < |states| :: Uncounted(states[i]) <= k
  }

  lemma StartsWithinBudget(b: Broker, k: nat)
    requires Initial(b) && b.budget + 1 <= b.budgetMax + k
    ensures WithinBudget(b, k)
  {
  }

  /** With at most `k` answers past the check and not yet counted, the count
      stays within `budgetMax + k - 1` if it starts there. */
  lemma {:induction false} BudgetBound(states: seq<Broker>, inputs: seq<Input>, k: nat, i: nat)
    requires Run(states, inputs) && i < |states|
    requires states[0].budget + 1 <= states[0].budgetMax + k
    requires OverlapAtMost(states, k)
    ensures WithinBudget(states[i], k)
  {
    if i == 0 {
      StartsWithinBudget(states[0], k);
    } else {
      assert StepAt(states, inputs, i - 1);
      BudgetBound(states, inputs, k, i - 1);
      RunKeeps(states, inputs, i - 1);
      StepStaysWithinBudget(states[i - 1], inputs[i - 1], k);
    }
  }

  /** Autonomous answers given by the steps from `i` up to `j`. */
  function AnswerCount(states: seq<Broker>, inputs: seq<Input>, i: nat, j: nat): nat
    requires i <= j <= |inputs| <= |states|
  {
    if i == j then 0
    else AnswerCount(states, inputs, i, j - 1) + if Answers(states[j - 1], inputs[j - 1]) then 1 else 0
  }

  /** No step from `i` up to `j` is contact with the developer. */
  ghost predicate Uncontacted(states: seq<Broker>, inputs: seq<Input>, i: nat, j: nat)
    requires i <= j <= |inputs| <= |states|
  {
    forall k | i <= k < j :: !Contacts(states[k], inputs[k])
  }

  lemma StepCounts(b: Broker, input: Input)
    requires Inv(b) && Enabled(b, input)
    ensures Step(b, input).budget ==
            if Contacts(b, input) then 0 else if Answers(b, input) then b.budget + 1 else b.budget
  {
    if IsHandler(input) {
      HandlerHandled(b, input);
    } else {
      SegmentAdvances(b, input);
    }
  }

  /** Between two contacts the count grows by exactly the autonomous answers. */
  lemma {:induction false} BudgetCountsAnswers(states: seq<Broker>, inputs: seq<Input>, i: nat, j: nat)
    requires Run(states, inputs) && i <= j <= |inputs|
    requires Uncontacted(states, inputs, i, j)
    ensures states[j].budget == states[i].budget + AnswerCount(states, inputs, i, j)
  {
    if i < j {
      assert StepAt(states, inputs, j - 1);
      BudgetCountsAnswers(states, inputs, i, j - 1);
      RunKeeps(states, inputs, j - 1);
      StepCounts(states[j - 1], inputs[j - 1]);
    }
  }

  lemma ContactResets(states: seq<Broker>, inputs: seq<Input>, i: nat)
    requires Run(states, inputs) && i < |inputs| && Contacts(states[i], inputs[i])
    ensures states[i + 1].budget == 0
  {
    assert StepAt(states, inputs, i);
    RunKeeps(states, inputs, i);
    StepCounts(states[i], inputs[i]);
  }

  lemma BudgetWithinMax(states: seq<Broker>, inputs: seq<Input>, j: nat)
    requires Run(states, inputs) && j < |states|
    requires states[0].budget <= states[0].budgetMax
    requires OverlapAtMost(states, 1)
    ensures states[j].budget <= states[j].budgetMax
  {
    BudgetBound(states, inputs, 1, j);
  }

  /** After a contact the count is that of the autonomous answers since. */
  lemma CountSinceContact(states: seq<Broker>, inputs: seq<Input>, i: nat, j: nat)
    requires Run(states, inputs) && i < j <= |inputs|
    requires Contacts(states[i], inputs[i])
    requires Uncontacted(states, inputs, i + 1, j)
    ensures AnswerCount(states, inputs, i + 1, j) == states[j].budget
  {
    ContactResets(states, inputs, i);
    BudgetCountsAnswers(states, inputs, i + 1, j);
  }

  /** If answers never overlap, at most `budgetMax` are given after a contact
      with the developer before the next one. */
  lemma AnswersSinceContact(states: seq<Broker>, inputs: seq<Input>, i: nat, j: nat)
    requires Run(states, inputs) && i < j <= |inputs|
    requires Contacts(states[i], inputs[i])
    requires Uncontacted(states, inputs, i + 1, j)
    requires states[0].budget <= states[0].budgetMax
    requires OverlapAtMost(states, 1)
    ensures AnswerCount(states, inputs, i + 1, j) <= states[j].budgetMax
  {
    CountSinceContact(states, inputs, i, j);
    BudgetWithinMax(states, inputs, j);
  }
}
