/** Which stale markers a report can still free: exactly those that are not
    stuck. */
module MarkerFate {
  import opened Protocol
  import opened BrokerModel
  import BrokerSafety
  import BrokerLoop
  import opened BrokerSilence
  import opened BrokerReports
  import opened EscalationQueue
  import opened MasterModel
  import MasterSafety
  import opened FleetModel
  import opened FleetSafety
  import FleetRuns
  import opened FleetOwners
  import opened StaleMarkers

  // ----- how a fleet may go on

  predicate StepAt(fleets: seq<Fleet>, actions: seq<Action>, i: nat)
    requires i < |actions| < |fleets|
  {
    FleetRuns.StepAt(fleets, actions, i) && !actions[i].RestartMaster?
  }

  /** `fleets` goes on from its first state under one master process. */
  ghost predicate Continues(fleets: seq<Fleet>, actions: seq<Action>) {
    |fleets| == |actions| + 1 && forall i | 0 <= i < |actions| :: StepAt(fleets, actions, i)
  }

  ghost predicate Leads(f: Fleet, g: Fleet) {
    exists fleets, actions | Continues(fleets, actions) :: fleets[0] == f && fleets[|actions|] == g
  }

  /** The marker on `id` may still be taken off without a restart. */
  ghost predicate CanBeFreed(f: Fleet, id: EscalationId) {
    exists g :: Leads(f, g) && g.master.inflight != Some(id)
  }

  lemma LeadsToItself(f: Fleet)
    ensures Leads(f, f)
  {
    assert Continues([f], []);
  }

  lemma LeadsOn(f: Fleet, g: Fleet, action: Action)
    requires Leads(f, g) && Possible(g, action) && !action.RestartMaster?
    ensures Leads(f, After(g, action))
  {
    var fleets, actions :| Continues(fleets, actions) && fleets[0] == f && fleets[|actions|] == g;
    var fleets', actions' := fleets + [After(g, action)], actions + [action];
    forall i | 0 <= i < |actions'|
      ensures StepAt(fleets', actions', i)
    {
      if i < |actions| {
        assert StepAt(fleets, actions, i);
      }
    }
    assert Continues(fleets', actions');
  }

  // ----- one broker goes on

  /** From `f` the fleet came to `g`, where the broker of `s` runs and `id` is out
      of the queue. */
  ghost predicate Tracked(f: Fleet, g: Fleet, s: SessionId, id: EscalationId) {
    Leads(f, g) && Owned(g) && Gone(g, id) && s in g.nodes && g.nodes[s].up
  }

  lemma TrackedHolds(f: Fleet, g: Fleet, s: SessionId, id: EscalationId)
    requires Tracked(f, g, s, id)
    ensures BrokerSafety.Inv(g.nodes[s].broker) && BrokerLoop.Loop(g.nodes[s].broker)
    ensures Left(g.nodes[s].broker, id) && id in g.ids
  {
    assert NodeInv(g, g.nodes[s]) && Owns(g, s, g.nodes[s]) && LeftBehind(g, g.nodes[s]);
  }

  lemma Goes(f: Fleet, g: Fleet, s: SessionId, input: Input, id: EscalationId)
    requires Tracked(f, g, s, id) && Possible(g, Act(s, input))
    ensures Tracked(f, ActStep(g, s, input), s, id)
  {
    LeadsOn(f, g, Act(s, input));
    ActOwned(g, s, input);
  }

  /** Some id was not used yet. */
  lemma NewId(ids: set<EscalationId>) returns (id: EscalationId)
    ensures id !in ids
  {
    id := 0;
    if ids != {} {
      var max := Largest(ids);
      id := max + 1;
    }
  }

  lemma {:induction false} Largest(ids: set<EscalationId>) returns (max: EscalationId)
    requires ids != {}
    ensures forall id | id in ids :: id <= max
    decreases |ids|
  {
    var id :| id in ids;
    max := id;
    if ids != {id} {
      var rest := Largest(ids - {id});
      max := if rest > id then rest else id;
      forall other | other in ids
        ensures other <= max
      {
        assert other == id || other in ids - {id};
      }
    }
  }

  /** The running job's await fails. */
  lemma GoesFailing(f: Fleet, g: Fleet, s: SessionId, id: EscalationId) returns (h: Fleet)
    requires Tracked(f, g, s, id) && !g.nodes[s].broker.pc.Idle? && !g.nodes[s].broker.pc.Halted?
    ensures Tracked(f, h, s, id) && h.nodes[s] == Node(Abort(g.nodes[s].broker, Failed), true, None)
  {
    var newId := NewId(g.ids);
    var input := Resume(Failed, Unreadable, newId);
    Goes(f, g, s, input, id);
    h := ActStep(g, s, input);
  }

  /** The running job's await completes; it waits for no answer of the master, or
      was told yes. */
  lemma GoesOn(f: Fleet, g: Fleet, s: SessionId, id: EscalationId) returns (h: Fleet)
    requires Tracked(f, g, s, id) && !g.nodes[s].broker.pc.Idle? && !g.nodes[s].broker.pc.Halted?
    requires !InTriage(g.nodes[s].broker.pc)
    requires Outstanding(g.nodes[s].broker.pc).None? || g.nodes[s].reply == Some(true)
    ensures Tracked(f, h, s, id) && h.nodes[s] == Node(Continue(g.nodes[s].broker, Unreadable), true, None)
  {
    var newId := NewId(g.ids);
    var input := Resume(Ok, Unreadable, newId);
    Goes(f, g, s, input, id);
    h := ActStep(g, s, input);
  }

  lemma TakesNext(f: Fleet, g: Fleet, s: SessionId, t: Transcript, id: EscalationId)
    returns (h: Fleet, newId: EscalationId)
    requires Tracked(f, g, s, id) && g.nodes[s].broker.pc.Idle? && g.nodes[s].broker.jobs != []
    ensures Tracked(f, h, s, id) && newId != id
    ensures h.nodes[s] == Node(Step(g.nodes[s].broker, Dequeue(t, newId)), true, None)
  {
    TrackedHolds(f, g, s, id);
    newId := NewId(g.ids);
    var input := Dequeue(t, newId);
    Goes(f, g, s, input, id);
    h := ActStep(g, s, input);
  }

  lemma Hears(f: Fleet, g: Fleet, s: SessionId, input: Input, id: EscalationId) returns (h: Fleet)
    requires Tracked(f, g, s, id) && BrokerSafety.IsHandler(input) && !input.DispatchDecision?
    requires Enabled(g.nodes[s].broker, input)
    ensures Tracked(f, h, s, id) && h.nodes[s] == g.nodes[s].(broker := Step(g.nodes[s].broker, input))
  {
    Goes(f, g, s, input, id);
    h := ActStep(g, s, input);
  }

  // ----- how the report comes

  /** The master handles a report on `id`, which frees its marker. */
  lemma ReportFrees(f: Fleet, g: Fleet, s: SessionId, id: EscalationId)
    requires Leads(f, g) && s in g.nodes && g.nodes[s].reply.None?
    requires BrokerLoop.ReportsOn(g.nodes[s].broker.pc, id)
    ensures CanBeFreed(f, id)
  {
    ReportsNamed(g.nodes[s].broker.pc, id);
    LeadsOn(f, g, Handle(s, true));
    NamedFrees(g.master, s, Outstanding(g.nodes[s].broker.pc).value, id);
    assert HandleStep(g, s, true).master.inflight != Some(id);
  }

  lemma NamedFrees(m: Master, s: SessionId, request: Request, id: EscalationId)
    requires MasterSafety.Names(request, id)
    ensures OnRequest(m, s, request).inflight != Some(id)
  {
  }

  lemma WriteFrees(f: Fleet, g: Fleet, s: SessionId, id: EscalationId)
    requires Tracked(f, g, s, id) && g.nodes[s].broker.pc == Delivering(id, DecisionWrite)
    ensures CanBeFreed(f, id)
  {
    var h := GoesFailing(f, g, s, id);
    ReportFrees(f, h, s, id);
  }

  /** The reset of the budget is reported; it goes on once the master said yes. */
  lemma ContactAnswered(f: Fleet, g: Fleet, s: SessionId, id: EscalationId) returns (h: Fleet)
    requires Tracked(f, g, s, id) && g.nodes[s].broker.pc == Delivering(id, DecisionContact)
    requires Heard(g, s, g.nodes[s])
    ensures Tracked(f, h, s, id) && h.nodes[s] == g.nodes[s].(reply := Some(true))
  {
    h := g;
    if g.nodes[s].reply.None? {
      LeadsOn(f, g, Handle(s, true));
      HandleOwned(g, s, true);
      StaysGone(g, Handle(s, true), id);
      h := HandleStep(g, s, true);
    }
  }

  lemma ContactFrees(f: Fleet, g: Fleet, s: SessionId, id: EscalationId)
    requires Tracked(f, g, s, id) && g.nodes[s].broker.pc == Delivering(id, DecisionContact)
    requires Heard(g, s, g.nodes[s])
    ensures CanBeFreed(f, id)
  {
    var h := ContactAnswered(f, g, s, id);
    h := GoesOn(f, h, s, id);
    ReportFrees(f, h, s, id);
  }

  lemma PromptFrees(f: Fleet, g: Fleet, s: SessionId, id: EscalationId)
    requires Tracked(f, g, s, id) && g.nodes[s].broker.pc == Relaying(PromptWrite)
    requires g.nodes[s].broker.active == Some(id)
    ensures CanBeFreed(f, id)
  {
    var h := GoesOn(f, g, s, id);
    ReportFrees(f, h, s, id);
  }

  /** The queued decision for `id` is next. */
  lemma DeliverFrees(f: Fleet, g: Fleet, s: SessionId, id: EscalationId)
    requires Tracked(f, g, s, id) && g.nodes[s].broker.pc.Idle?
    requires g.nodes[s].broker.jobs != [] && g.nodes[s].broker.jobs[0] == Deliver(id)
    ensures CanBeFreed(f, id)
  {
    var h, newId := TakesNext(f, g, s, Unreadable, id);
    DeliveryStarts(g.nodes[s].broker, Unreadable, newId, id);
    if h.nodes[s].broker.pc == Delivering(id, DecisionWrite) {
      WriteFrees(f, h, s, id);
    } else {
      ReportFrees(f, h, s, id);
    }
  }

  /** A developer prompt is next, `id` is still active and no picker is open: a
      permission prompt is answered, and the prompt typed. */
  lemma PromptJobFrees(f: Fleet, g: Fleet, s: SessionId, id: EscalationId)
    requires Tracked(f, g, s, id) && g.nodes[s].broker.pc.Idle?
    requires g.nodes[s].broker.jobs != [] && g.nodes[s].broker.jobs[0].DeveloperPrompt?
    requires g.nodes[s].broker.active == Some(id) && g.nodes[s].broker.menu.None?
    ensures CanBeFreed(f, id)
  {
    var h := FreesPane(f, g, s, id);
    var freed := h.nodes[s].broker;
    var newId;
    h, newId := TakesNext(f, h, s, Unreadable, id);
    PromptStarts(freed, Unreadable, newId);
    PromptFrees(f, h, s, id);
  }

  /** No picker is open: whatever holds the pane is gone after the next tool. */
  lemma FreesPane(f: Fleet, g: Fleet, s: SessionId, id: EscalationId) returns (h: Fleet)
    requires Tracked(f, g, s, id) && g.nodes[s].broker.pc.Idle?
    requires g.nodes[s].broker.active == Some(id) && g.nodes[s].broker.menu.None?
    ensures Tracked(f, h, s, id)
    ensures h.nodes[s].broker == g.nodes[s].broker.(permissionPrompt := false)
  {
    TrackedHolds(f, g, s, id);
    PaneFreed(g.nodes[s].broker);
    h := Hears(f, g, s, ToolDoneHook(None), id);
  }

  /** Nothing is queued: a developer prompt is sent. */
  lemma PromptSentFrees(f: Fleet, g: Fleet, s: SessionId, id: EscalationId)
    requires Tracked(f, g, s, id) && g.nodes[s].broker.pc.Idle? && g.nodes[s].broker.jobs == []
    requires g.nodes[s].broker.active == Some(id) && g.nodes[s].broker.menu.None?
    ensures CanBeFreed(f, id)
  {
    var h := FreesPane(f, g, s, id);
    PromptQueued(h.nodes[s].broker);
    h := Hears(f, h, s, SendPromptRequest, id);
    PromptJobFrees(f, h, s, id);
  }

  /** The running job is brought to its end. */
  lemma {:induction false} Drains(f: Fleet, g: Fleet, s: SessionId, id: EscalationId) returns (h: Fleet)
    requires Tracked(f, g, s, id) && Serves(g.nodes[s].broker)
    ensures Tracked(f, h, s, id) && h.nodes[s].broker.pc.Idle? && Alike(g.nodes[s].broker, h.nodes[s].broker)
    decreases Awaits(g.nodes[s].broker.pc)
  {
    h := g;
    if !g.nodes[s].broker.pc.Idle? {
      FailingAwait(g.nodes[s].broker);
      h := GoesFailing(f, g, s, id);
      h := Drains(f, h, s, id);
    }
  }

  /** Nothing is queued and a picker is open: a hook queues the check of it. */
  lemma QueuesMenuCheck(f: Fleet, g: Fleet, s: SessionId, id: EscalationId) returns (h: Fleet)
    requires Tracked(f, g, s, id) && g.nodes[s].broker.pc.Idle? && g.nodes[s].broker.jobs == []
    requires g.nodes[s].broker.active == Some(id) && g.nodes[s].broker.menu.Some?
    ensures Tracked(f, h, s, id) && h.nodes[s].broker == g.nodes[s].broker.(jobs := [CheckMenu])
  {
    TrackedHolds(f, g, s, id);
    MenuCheckQueued(g.nodes[s].broker);
    h := Hears(f, g, s, PromptSubmitHook, id);
  }

  /** The check finds the answer to the picker. */
  lemma ChecksPicker(f: Fleet, g: Fleet, s: SessionId, id: EscalationId) returns (h: Fleet)
    requires Tracked(f, g, s, id) && g.nodes[s].broker.pc.Idle? && g.nodes[s].broker.jobs == [CheckMenu]
    requires g.nodes[s].broker.active == Some(id) && !g.nodes[s].broker.shutdown
    ensures Tracked(f, h, s, id) && Serves(h.nodes[s].broker) && h.nodes[s].broker.jobs == []
    ensures h.nodes[s].broker.active == Some(id) && h.nodes[s].broker.menu.None?
  {
    TrackedHolds(f, g, s, id);
    var b := g.nodes[s].broker;
    var newId;
    h, newId := TakesNext(f, g, s, Answered(b), id);
    assert b.jobs[1..] == [];
    NextCarries(b, newId, id);
    WeightOfOne(CheckMenu);
    NothingQueued(h.nodes[s].broker.jobs);
  }

  /** Nothing is queued and a picker is open: its answer is recorded first. */
  lemma MenuClosedFrees(f: Fleet, g: Fleet, s: SessionId, id: EscalationId)
    requires Tracked(f, g, s, id) && g.nodes[s].broker.pc.Idle? && g.nodes[s].broker.jobs == []
    requires g.nodes[s].broker.active == Some(id) && g.nodes[s].broker.menu.Some? && !g.nodes[s].broker.shutdown
    ensures CanBeFreed(f, id)
  {
    var h := QueuesMenuCheck(f, g, s, id);
    h := ChecksPicker(f, h, s, id);
    h := Drains(f, h, s, id);
    PromptSentFrees(f, h, s, id);
  }

  lemma NothingQueued(jobs: seq<Job>)
    requires Weight(jobs) == 0
    ensures jobs == []
  {
  }

  /** Job after job the broker comes to report on `id`. */
  lemma {:induction false} AheadFrees(f: Fleet, g: Fleet, s: SessionId, id: EscalationId)
    requires Tracked(f, g, s, id) && Serves(g.nodes[s].broker)
    requires var b := g.nodes[s].broker;
      ReportAhead(b.active == Some(id), b.menu.Some?, Runnable(b), id)
    ensures CanBeFreed(f, id)
    decreases Weight(g.nodes[s].broker.jobs)
  {
    TrackedHolds(f, g, s, id);
    var h := Drains(f, g, s, id);
    TrackedHolds(f, h, s, id);
    var b := h.nodes[s].broker;
    if b.jobs == [] {
      if b.menu.Some? { MenuClosedFrees(f, h, s, id); } else { PromptSentFrees(f, h, s, id); }
    } else {
      RunnableFirst(b, id);
      if b.jobs[0] == Deliver(id) {
        DeliverFrees(f, h, s, id);
      } else if b.jobs[0].DeveloperPrompt? && b.active == Some(id) && b.menu.None? {
        PromptJobFrees(f, h, s, id);
      } else {
        var newId;
        h, newId := TakesNext(f, h, s, Answered(b), id);
        NextCarries(b, newId, id);
        AheadFrees(f, h, s, id);
      }
    }
  }

  lemma RunnableFirst(b: Broker, id: EscalationId)
    requires b.jobs != [] && ReportAhead(b.active == Some(id), b.menu.Some?, Runnable(b), id)
    ensures b.pc.Idle? && b.shutdown ==>
              b.jobs[0] == Deliver(id) || (b.jobs[0].DeveloperPrompt? && b.active == Some(id) && b.menu.None?)
  {
    if b.pc.Idle? && b.shutdown {
      FirstAhead(b.active == Some(id), b.menu.Some?, b.jobs, id);
    }
  }

  lemma MayReportFrees(f: Fleet, g: Fleet, s: SessionId, id: EscalationId)
    requires Tracked(f, g, s, id) && MayReport(g.nodes[s].broker, Heard(g, s, g.nodes[s]), id)
    ensures CanBeFreed(f, id)
  {
    var b := g.nodes[s].broker;
    if b.pc == Delivering(id, DecisionWrite) {
      WriteFrees(f, g, s, id);
    } else if b.pc == Delivering(id, DecisionContact) && Heard(g, s, g.nodes[s]) {
      ContactFrees(f, g, s, id);
    } else if b.pc == Relaying(PromptWrite) && b.active == Some(id) {
      PromptFrees(f, g, s, id);
    } else {
      AheadFrees(f, g, s, id);
    }
  }

  // ----- stuck or not

  /** The markers name escalations that were taken, and head the queue if they
      are still in it. */
  ghost predicate MarkerTaken(f: Fleet) {
    forall id: EscalationId | f.master.inflight == Some(id) || f.master.sending == Some(id) ::
      FleetRuns.HeadOrGone(f, id)
  }

  /** The markers are as they were, or the one in flight was taken off. */
  predicate SameMarkers(m: Master, r: Master) {
    r.sending == m.sending && (r.inflight == m.inflight || r.inflight == None)
  }

  lemma SurfaceMarkers(m: Master, i: nat)
    ensures SurfaceHead(m).sending == m.sending && SurfaceHead(m).inflight == m.inflight
    ensures Clear(m, i).sending == m.sending && Clear(m, i).inflight == m.inflight
  {
  }

  lemma RetractMarkers(m: Master, id: EscalationId)
    ensures SameMarkers(m, OnRetract(m, id))
  {
    var cleared := ClearInflight(m, id);
    SurfaceMarkers(cleared, PositionOf(m.queue, id));
    SurfaceMarkers(Clear(cleared, PositionOf(m.queue, id)), 0);
  }

  lemma DeliveredMarkers(m: Master, id: EscalationId)
    ensures SameMarkers(m, OnDelivered(m, id))
  {
    if m.queue != [] {
      SurfaceMarkers(ClearInflight(m, id).(queue := m.queue[1..], surfaced := None), 0);
    }
  }

  lemma StrandedMarkers(m: Master, s: SessionId)
    ensures SameMarkers(m, RetractStranded(m, s))
  {
    var i := PositionFor(m.queue, s);
    if i < |m.queue| {
      var cleared := ClearInflight(m, m.queue[i].id);
      SurfaceMarkers(cleared, i);
      SurfaceMarkers(Clear(cleared, i), 0);
    }
  }

  lemma EscalationMarkers(m: Master, entry: Entry)
    ensures SameMarkers(m, OnEscalation(m, entry))
  {
    SurfaceMarkers(m.(queue := m.queue + [entry], accepted := m.accepted + [entry.id]), 0);
  }

  /** No action but the two halves of a dispatch sets a marker. */
  lemma RequestMarkers(m: Master, s: SessionId, request: Request)
    ensures SameMarkers(m, OnRequest(m, s, request))
  {
    match request
    case Escalation(id) => EscalationMarkers(m, Entry(id, s));
    case EscalationRetract(id) => RetractMarkers(m, id);
    case DecisionDelivered(id) => DeliveredMarkers(m, id);
    case DecisionUndelivered(id, _) => RetractMarkers(m, id);
    case FatalError => StrandedMarkers(m, s);
    case SessionEnded => StrandedMarkers(m.(known := m.known - {s}), s);
    case _ =>
  }

  lemma ActionMarkers(f: Fleet, action: Action, id: EscalationId)
    requires Possible(f, action)
    requires After(f, action).master.inflight == Some(id) || After(f, action).master.sending == Some(id)
    ensures f.master.inflight == Some(id) || f.master.sending == Some(id)
            || (action.DispatchSend? && Head(f.master.queue) == Some(id))
  {
    if action.Handle? {
      RequestMarkers(f.master, action.session, Outstanding(f.nodes[action.session].broker.pc).value);
    }
  }

  lemma ActionMarkerTaken(f: Fleet, action: Action)
    requires Inv(f) && MarkerTaken(f) && Possible(f, action)
    ensures MarkerTaken(After(f, action))
  {
    var r := After(f, action);
    FleetRuns.ActionMoves(f, action);
    forall id: EscalationId | r.master.inflight == Some(id) || r.master.sending == Some(id)
      ensures FleetRuns.HeadOrGone(r, id)
    {
      ActionMarkers(f, action, id);
      if Head(f.master.queue) == Some(id) {
        HeadTaken(f, id);
      }
      FleetRuns.HeadOrGoneStays(f, r, id);
    }
  }

  lemma HeadTaken(f: Fleet, id: EscalationId)
    requires MasterInv(f) && Head(f.master.queue) == Some(id)
    ensures FleetRuns.HeadOrGone(f, id)
  {
    assert f.master.queue[0].id in f.master.accepted;
  }

  lemma {:induction false} StuckForGood(fleets: seq<Fleet>, actions: seq<Action>, j: nat, id: EscalationId)
    requires Continues(fleets, actions) && j <= |actions| && Owned(fleets[0]) && Stuck(fleets[0], id)
    ensures Owned(fleets[j]) && Stuck(fleets[j], id)
  {
    if j > 0 {
      assert StepAt(fleets, actions, j - 1);
      StuckForGood(fleets, actions, j - 1, id);
      ActionOwned(fleets[j - 1], actions[j - 1]);
      StuckStays(fleets[j - 1], actions[j - 1], id);
    }
  }

  lemma StuckNotFreed(f: Fleet, id: EscalationId)
    requires Owned(f) && Stuck(f, id)
    ensures !CanBeFreed(f, id)
  {
    forall g | Leads(f, g)
      ensures g.master.inflight == Some(id)
    {
      var fleets, actions :| Continues(fleets, actions) && fleets[0] == f && fleets[|actions|] == g;
      StuckForGood(fleets, actions, |actions|, id);
    }
  }

  lemma HeadFreed(f: Fleet, id: EscalationId)
    requires MasterInv(f) && Head(f.master.queue) == Some(id)
    ensures CanBeFreed(f, id)
  {
    var s := f.master.queue[0].session;
    LeadsToItself(f);
    LeadsOn(f, f, Action.Stop(s));
    assert After(f, Action.Stop(s)).master.inflight != Some(id);
  }

  lemma NotSpentFreed(f: Fleet, s: SessionId, id: EscalationId)
    requires Owned(f) && Gone(f, id) && s in f.nodes && !Spent(f, s, f.nodes[s], id)
    ensures CanBeFreed(f, id)
  {
    LeadsToItself(f);
    var n := f.nodes[s];
    if BrokerLoop.ReportsOn(n.broker.pc, id) && n.reply.None? {
      ReportFrees(f, f, s, id);
    } else {
      MayReportFrees(f, f, s, id);
    }
  }

  /** A marker can still be taken off if and only if it is not stuck. */
  lemma FreedOrStuck(f: Fleet, id: EscalationId)
    requires Owned(f) && MarkerTaken(f) && f.master.inflight == Some(id)
    ensures CanBeFreed(f, id) <==> !Stuck(f, id)
  {
    if Stuck(f, id) {
      StuckNotFreed(f, id);
    } else if Queued(f.master.queue, id) {
      HeadFreed(f, id);
    } else {
      assert FleetRuns.HeadOrGone(f, id);
      var s :| s in f.nodes && !Spent(f, s, f.nodes[s], id);
      NotSpentFreed(f, s, id);
    }
  }

  // ----- in every run

  lemma {:induction false} RunOwned(fleets: seq<Fleet>, actions: seq<Action>, i: nat)
    requires FleetRuns.Run(fleets, actions) && i < |fleets|
    ensures Owned(fleets[i]) && MarkerTaken(fleets[i])
  {
    if i > 0 {
      assert FleetRuns.StepAt(fleets, actions, i - 1);
      RunOwned(fleets, actions, i - 1);
      ActionOwned(fleets[i - 1], actions[i - 1]);
      ActionMarkerTaken(fleets[i - 1], actions[i - 1]);
    }
  }

  /** In every state a run reaches, the marker of a decision in flight stays until
      the master restarts, whatever else happens, if and only if its escalation
      left the queue, no report on it is unhandled, and no running broker can
      come to report on it. */
  lemma StaysForGoodIffStuck(fleets: seq<Fleet>, actions: seq<Action>, i: nat, id: EscalationId)
    requires FleetRuns.Run(fleets, actions) && i < |fleets| && fleets[i].master.inflight == Some(id)
    ensures !CanBeFreed(fleets[i], id) <==> Stuck(fleets[i], id)
  {
    RunOwned(fleets, actions, i);
    FreedOrStuck(fleets[i], id);
  }
}
