/** What a broker remembers over a run: which transcript a baseline and an event
    count were read from, and so when an escalation counts as answered in the pane
    and when the watchdog triages. */
module BrokerHistory {
  import opened Protocol
  import opened BrokerModel
  import opened BrokerSafety
  import opened BrokerRuns
  import opened BrokerCauses
  import opened BrokerOutcomes

  // ----- the transcript a triage read

  /** Step `q` handed a turn to triage, which is still asked in state `r`. */
  ghost predicate TriagedSince(states: seq<Broker>, inputs: seq<Input>, q: nat, r: nat) {
    && q < r < |states| && q < |inputs| && Triages(states[q], inputs[q])
    && forall k | q < k <= r :: InTriage(states[k].pc)
  }

  /** While triage is asked the broker holds the prompts counted at its start. */
  lemma {:induction false} TriagePrompts(states: seq<Broker>, inputs: seq<Input>, q: nat, r: nat)
    requires Run(states, inputs) && TriagedSince(states, inputs, q, r)
    ensures inputs[q].transcript.Readable?
    ensures states[r].pc == Classifying(Triage(inputs[q].transcript.prompts))
  {
    assert StepAt(states, inputs, q);
    TriagesExactly(states[q], inputs[q]);
    if q + 1 < r {
      assert StepAt(states, inputs, r - 1);
      TriagePrompts(states, inputs, q, r - 1);
      TriageAsked(states[r - 1], inputs[r - 1]);
    }
  }

  /** Only handlers run while triage is asked. */
  lemma TriageAsked(b: Broker, input: Input)
    requires Enabled(b, input) && InTriage(b.pc) && InTriage(Step(b, input).pc)
    ensures IsHandler(input) && Step(b, input).pc == b.pc
  {
    if IsHandler(input) {
      HandlerHandled(b, input);
    } else {
      TriagesExactly(b, input);
    }
  }

  lemma {:induction false} TriageBegan(states: seq<Broker>, inputs: seq<Input>, r: nat) returns (q: nat)
    requires Run(states, inputs) && r < |states| && InTriage(states[r].pc)
    ensures TriagedSince(states, inputs, q, r)
  {
    assert r > 0;
    assert StepAt(states, inputs, r - 1);
    q := r - 1;
    if InTriage(states[r - 1].pc) {
      TriageAsked(states[r - 1], inputs[r - 1]);
      q := TriageBegan(states, inputs, r - 1);
    } else if IsHandler(inputs[r - 1]) {
      HandlerHandled(states[r - 1], inputs[r - 1]);
    }
  }

  // ----- the baseline of an escalation

  /** Step `r` raised `id` when the triage that step `q` asked handed the turn over. */
  ghost predicate RaisedOver(states: seq<Broker>, inputs: seq<Input>, q: nat, r: nat, id: EscalationId) {
    && r < |inputs| && TriagedSince(states, inputs, q, r)
    && HandsOver(states[r], inputs[r]) && inputs[r].newId == id
  }

  /** An escalation active twice was active all along. */
  lemma ActiveAllAlong(states: seq<Broker>, inputs: seq<Input>, i: nat, j: nat, id: EscalationId)
    requires Run(states, inputs) && i < j < |states|
    requires states[i].active == Some(id) && states[j].active == Some(id)
    ensures states[j - 1].active == Some(id)
  {
    if states[j - 1].active != Some(id) {
      RunKeeps(states, inputs, i);
      KeepsUsed(states, inputs, i, j - 1);
      OverForever(states, inputs, j - 1, j, id);
    }
  }

  lemma {:induction false} StaysRaised(states: seq<Broker>, inputs: seq<Input>, r: nat, i: nat, id: EscalationId)
    requires Run(states, inputs) && r < i < |states| && states[i].active == Some(id)
    requires states[r + 1].active == Some(id)
    ensures states[i].baseline == states[r + 1].baseline
    decreases i
  {
    if r + 1 < i {
      ActiveAllAlong(states, inputs, r + 1, i, id);
      StaysRaised(states, inputs, r, i - 1, id);
      assert StepAt(states, inputs, i - 1);
      RunKeeps(states, inputs, i - 1);
      BaselineKept(states[i - 1], inputs[i - 1], id);
    }
  }

  lemma BaselineKept(b: Broker, input: Input, id: EscalationId)
    requires Inv(b) && Enabled(b, input) && NewId(b, input)
    requires b.active == Some(id) && Step(b, input).active == Some(id)
    ensures Step(b, input).baseline == b.baseline
  {
    RaisesExactly(b, input);
  }

  lemma {:induction false} KeepsUsed(states: seq<Broker>, inputs: seq<Input>, i: nat, j: nat)
    requires Run(states, inputs) && i <= j < |states|
    ensures states[i].used <= states[j].used
  {
    if i < j {
      KeepsUsed(states, inputs, i, j - 1);
      assert StepAt(states, inputs, j - 1);
      RaisesExactly(states[j - 1], inputs[j - 1]);
    }
  }

  /** An active escalation is measured against the prompts its triage read. */
  lemma BaselineRead(states: seq<Broker>, inputs: seq<Input>, q: nat, r: nat, i: nat, id: EscalationId)
    requires Run(states, inputs) && RaisedOver(states, inputs, q, r, id) && r < i < |states|
    requires states[i].active == Some(id)
    ensures inputs[q].transcript.Readable? && states[i].baseline == inputs[q].transcript.prompts
  {
    TriagePrompts(states, inputs, q, r);
    assert StepAt(states, inputs, r);
    RaisesExactly(states[r], inputs[r]);
    StaysRaised(states, inputs, r, i, id);
  }

  /** An escalation with a baseline was raised over some turn. */
  lemma {:induction false} RaisedOnce(states: seq<Broker>, inputs: seq<Input>, i: nat, id: EscalationId)
    returns (q: nat, r: nat)
    requires Run(states, inputs) && i < |states| && states[i].active == Some(id) && states[i].baseline >= 0
    ensures r < i && RaisedOver(states, inputs, q, r, id)
  {
    assert i > 0;
    var b, input := states[i - 1], inputs[i - 1];
    assert StepAt(states, inputs, i - 1);
    RunKeeps(states, inputs, i - 1);
    RaisesExactly(b, input);
    if HandsOver(b, input) {
      r := i - 1;
      q := TriageBegan(states, inputs, r);
    } else {
      ActiveBefore(b, input, id);
      q, r := RaisedOnce(states, inputs, i - 1, id);
    }
  }

  lemma ActiveBefore(b: Broker, input: Input, id: EscalationId)
    requires Inv(b) && Enabled(b, input) && Step(b, input).active == Some(id)
    requires !HandsOver(b, input) && !RaisesUnverified(b, input) && NewId(b, input)
    ensures b.active == Some(id)
  {
    RaisesExactly(b, input);
    if IsHandler(input) {
      HandlerHandled(b, input);
    } else {
      StepKeeps(b, input);
      SegmentAdvances(b, input);
    }
  }

  /** Over any run: an escalation is withdrawn as answered in the pane if and only
      if it is active in a broker that waits for it, and a check reads more prompts
      than the transcript showed when the turn it was raised over went to triage.
      One raised for an unverified answer never is. */
  lemma WithdrawnExactly(states: seq<Broker>, inputs: seq<Input>, i: nat, id: EscalationId)
    requires Run(states, inputs) && i < |inputs| && !IsHandler(inputs[i])
    ensures Withdraws(states[i], inputs[i], id) <==>
            && states[i].state == Escalated && states[i].active == Some(id)
            && ChecksResolution(states[i], inputs[i]) && inputs[i].transcript.Readable?
            && exists q: nat, r: nat | r < i :: RaisedOver(states, inputs, q, r, id)
                 && inputs[q].transcript.Readable? && inputs[q].transcript.prompts < inputs[i].transcript.prompts
  {
    assert StepAt(states, inputs, i);
    WithdrawsExactly(states[i], inputs[i], id);
    if states[i].active == Some(id) {
      forall q: nat, r: nat | r < i && RaisedOver(states, inputs, q, r, id)
        ensures inputs[q].transcript.Readable? && states[i].baseline == inputs[q].transcript.prompts
      {
        BaselineRead(states, inputs, q, r, i, id);
      }
      if Withdraws(states[i], inputs[i], id) {
        var q, r := RaisedOnce(states, inputs, i, id);
      }
    }
  }

  // ----- what the watchdog compares with

  /** Step `q` is the last before state `i` to hand a turn to triage. */
  ghost predicate LastTriage(states: seq<Broker>, inputs: seq<Input>, q: nat, i: nat) {
    && q < i <= |inputs| < |states| && Triages(states[q], inputs[q])
    && forall k | q < k < i :: !Triages(states[k], inputs[k])
  }

  lemma EventsKept(b: Broker, input: Input)
    requires Enabled(b, input) && !Triages(b, input)
    ensures Step(b, input).lastEvents == b.lastEvents
  {
    if !IsHandler(input) {
      TriagesExactly(b, input);
      if InChecks(b, input) {
        ChecksGoOn(b, input);
      } else {
        EventsKeptElsewhere(b, input);
      }
    }
  }

  lemma {:induction false} EventsRead(states: seq<Broker>, inputs: seq<Input>, q: nat, i: nat)
    requires Run(states, inputs) && LastTriage(states, inputs, q, i)
    ensures inputs[q].transcript.Readable? && states[i].lastEvents == inputs[q].transcript.events
  {
    assert StepAt(states, inputs, i - 1);
    if q == i - 1 {
      TriagesExactly(states[q], inputs[q]);
    } else {
      EventsRead(states, inputs, q, i - 1);
      EventsKept(states[i - 1], inputs[i - 1]);
    }
  }

  /** The watchdog triages a turn only if the transcript is not as long as the last
      triage read it, and only into a free pane. */
  lemma WatchdogSeesNews(states: seq<Broker>, inputs: seq<Input>, q: nat, i: nat)
    requires Run(states, inputs) && i < |inputs| && LastTriage(states, inputs, q, i)
    requires Triages(states[i], inputs[i]) && AtBoundary(states[i], inputs[i]) == Some(Watch)
    ensures inputs[q].transcript.Readable? && inputs[i].transcript.Readable?
    ensures inputs[q].transcript.events != inputs[i].transcript.events
    ensures inputs[i].transcript.hasText && !PaneHeld(states[i], inputs[i])
  {
    EventsRead(states, inputs, q, i);
    TriagesExactly(states[i], inputs[i]);
  }

  lemma EventsKeptElsewhere(b: Broker, input: Input)
    requires Enabled(b, input) && !IsHandler(input) && !InChecks(b, input)
    ensures Step(b, input).lastEvents == b.lastEvents
  {
    if input.Dequeue? {
      if StartsCheck(b, input).Some? {
        CheckMenuChecks(Begun(b, input), input.transcript, StartsCheck(b, input).value);
      } else {
        JobKeepsEvents(Begun(b, input), b.jobs[0], input.transcript, input.newId);
      }
    } else if input.outcome.Ok? {
      AwaitKeepsEvents(b, input.transcript);
    } else if !input.outcome.Triaged? {
      AbortKeepsEvents(b, input.outcome);
    }
  }

  lemma AwaitKeepsEvents(b: Broker, t: Transcript)
    requires !b.pc.Idle? && !b.pc.Halted? && !InTriage(b.pc)
    requires b.pc.Checking? ==> b.pc.check.ResolutionRetract? || (b.pc.check.MenuRetract? && b.pc.check.byDeveloper)
    ensures Continue(b, t).lastEvents == b.lastEvents
  {
  }

  lemma AbortKeepsEvents(b: Broker, outcome: Outcome)
    requires !b.pc.Idle? && !b.pc.Halted?
    ensures Abort(b, outcome).lastEvents == b.lastEvents
  {
  }

  lemma JobKeepsEvents(b: Broker, job: Job, t: Transcript, newId: EscalationId)
    requires AfterPicker(job).None? && job != CheckResolution
    ensures StartJob(b, job, t, newId).lastEvents == b.lastEvents
  {
  }
}
