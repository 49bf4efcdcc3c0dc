/** The history shown for a settled session, assembled from its decision log in
    one pass that fills in earlier events when a later row resolves them. */
module Outcome {
  import opened Protocol

  datatype RowKind = Answered | Completed | Raised | Retracted | DeveloperPrompt | Reactivated | Error | OtherKind

  /** A row of the decision log; an absent summary differs from an empty one. */
  datatype Row = Row(kind: RowKind, ts: string, id: Option<EscalationId>, summary: Option<string>, headline: string,
      supporting: string)

  datatype EventKind = ActionEvent | EscalationEvent | PromptEvent | TaskEvent | TerminalEvent

  datatype Event = Event(kind: EventKind, ts: string, caption: string, detail: Option<string>,
      resolution: Option<string>)

  const NoFollowUp: string := "(no recorded follow-up)"

  /** The row carries a summary that is not empty. */
  predicate Says(row: Row) {
    row.summary.Some? && row.summary.value != ""
  }

  /** A kept action with a summary: it resolves everything still open. */
  predicate Resolves(row: Row) {
    (row.kind.Answered? || row.kind.Completed?) && Says(row)
  }

  // ----- the look-ahead definition

  /** How the rows from `i` on resolve an event; `id` is the escalation it is
      known by, as long as no later raise took that id over. */
  function Look(rows: seq<Row>, i: nat, id: Option<EscalationId>): Option<string>
    decreases |rows| - i
  {
    if i >= |rows| then Some(NoFollowUp)
    else if Resolves(rows[i]) then rows[i].summary
    else if rows[i].kind.Retracted? && id.Some? && rows[i].id == id then rows[i].summary
    else if rows[i].kind.Raised? && rows[i].id == id then Look(rows, i + 1, None)
    else Look(rows, i + 1, id)
  }

  /** The event a row adds to the history, not resolved yet. */
  function Shown(row: Row): Option<Event> {
    match row.kind
    case Answered => if Says(row) then Some(Event(ActionEvent, row.ts, row.summary.value, None, None)) else None
    case Completed => Some(Event(TerminalEvent, row.ts, "Task completed", None, None))
    case Raised => Some(Event(EscalationEvent, row.ts, "Escalation",
        Some(if row.summary.Some? then row.summary.value else ""), None))
    case DeveloperPrompt => Some(Event(PromptEvent, row.ts, "Developer instruction", None, None))
    case Reactivated => Some(Event(TaskEvent, row.ts, "New task", None, None))
    case _ => None
  }

  /** Its event waits for a later row to resolve it. */
  predicate Waits(row: Row) {
    row.kind.Raised? || row.kind.DeveloperPrompt?
  }

  function OwnId(row: Row): Option<EscalationId> {
    if row.kind.Raised? then row.id else None
  }

  /** The events of the `i`-th row, none or one, as the later rows resolve it. */
  function EventsOf(rows: seq<Row>, i: nat): seq<Event>
    requires i < |rows|
  {
    var shown := Shown(rows[i]);
    if shown.None? then []
    else [shown.value.(resolution := if Waits(rows[i]) then Look(rows, i + 1, OwnId(rows[i])) else None)]
  }

  function EventsUpto(rows: seq<Row>, n: nat): seq<Event>
    requires n <= |rows|
  {
    if n == 0 then [] else EventsUpto(rows, n - 1) + EventsOf(rows, n - 1)
  }

  /** The history of a log: every event as the whole log resolves it. */
  function Assembled(rows: seq<Row>): seq<Event> {
    EventsUpto(rows, |rows|)
  }

  // ----- the single pass

  /** Before row `i`: the events in `pending` will be resolved as the rows from
      `i` on say, knowing them by `owner`; the others are finished. */
  ghost predicate Filled(
      rows: seq<Row>, i: nat, history: seq<Event>, pending: seq<nat>, owner: seq<Option<EscalationId>>)
    requires i <= |rows|
  {
    var events := EventsUpto(rows, i);
    && |history| == |events| == |owner|
    && (forall k | k in pending :: k < |history|)
    && AllFit(rows, i, history, events, pending, owner)
  }

  ghost predicate AllFit(
      rows: seq<Row>, i: nat, history: seq<Event>, events: seq<Event>, pending: seq<nat>,
      owner: seq<Option<EscalationId>>)
    requires |history| == |events| == |owner|
  {
    forall k | 0 <= k < |history| :: Fits(rows, i, history[k], events[k], k in pending, owner[k])
  }

  /** `event` is `goal`, or will be it when the rows from `i` on resolve it. */
  predicate Fits(rows: seq<Row>, i: nat, event: Event, goal: Event, waiting: bool, owner: Option<EscalationId>) {
    if waiting then event == goal.(resolution := None) && goal.resolution == Look(rows, i, owner) else event == goal
  }

  /** `open` finds exactly the pending events that an id still owns. */
  ghost predicate Owned(pending: seq<nat>, open: map<EscalationId, nat>, owner: seq<Option<EscalationId>>) {
    && (forall k | k in pending :: k < |owner|)
    && (forall x, y | 0 <= x < y < |pending| :: pending[x] != pending[y])
    && (forall e | e in open :: open[e] in pending && owner[open[e]] == Some(e))
    && (forall k | k in pending && owner[k].Some? :: owner[k].value in open && open[owner[k].value] == k)
  }

  ghost predicate Passing(
      rows: seq<Row>, i: nat, history: seq<Event>, pending: seq<nat>, open: map<EscalationId, nat>,
      owner: seq<Option<EscalationId>>)
    requires i <= |rows|
  {
    Filled(rows, i, history, pending, owner) && Owned(pending, open, owner)
  }

  /** Writes `resolution` into the events listed in `pending`. */
  method Fill(history: seq<Event>, pending: seq<nat>, resolution: Option<string>) returns (r: seq<Event>)
    requires forall k | k in pending :: k < |history|
    ensures |r| == |history|
    ensures forall k | 0 <= k < |r| ::
              r[k] == if k in pending then history[k].(resolution := resolution) else history[k]
  {
    r := history;
    for i := 0 to |pending|
      invariant |r| == |history|
      invariant forall k | 0 <= k < |r| ::
          r[k] == if k in pending[..i] then history[k].(resolution := resolution) else history[k]
    {
      assert pending[i] in pending;
      r := r[pending[i] := r[pending[i]].(resolution := resolution)];
    }
    assert pending[..|pending|] == pending;
  }

  /** Removes the one occurrence of `k`. */
  method Remove(pending: seq<nat>, k: nat) returns (r: seq<nat>)
    requires k in pending && forall x, y | 0 <= x < y < |pending| :: pending[x] != pending[y]
    ensures forall x :: x in r <==> x in pending && x != k
    ensures forall x, y | 0 <= x < y < |r| :: r[x] != r[y]
  {
    var i := 0;
    while pending[i] != k
      invariant i < |pending| && k !in pending[..i]
      decreases |pending| - i
    {
      i := i + 1;
      assert i < |pending| by {
        assert k in pending;
      }
    }
    r := pending[..i] + pending[i + 1..];
  }

  /** The row changes nothing an open event waits for. */
  ghost predicate Passes(rows: seq<Row>, i: nat, pending: seq<nat>, owner: seq<Option<EscalationId>>)
    requires i < |rows| && forall k | k in pending :: k < |owner|
  {
    forall k | k in pending :: Look(rows, i, owner[k]) == Look(rows, i + 1, owner[k])
  }

  lemma Settle(
      rows: seq<Row>, i: nat, history: seq<Event>, pending: seq<nat>, open: map<EscalationId, nat>,
      owner: seq<Option<EscalationId>>, filled: seq<Event>)
    requires i < |rows| && Passing(rows, i, history, pending, open, owner) && Resolves(rows[i])
    requires |filled| == |history|
    requires forall k | 0 <= k < |filled| ::
        filled[k] == if k in pending then history[k].(resolution := rows[i].summary) else history[k]
    ensures Passing(rows, i, filled, [], map[], owner)
  {
    forall k | 0 <= k < |filled|
      ensures filled[k] == EventsUpto(rows, i)[k]
    {
      if k in pending {
        assert history[k] == EventsUpto(rows, i)[k].(resolution := None);
      }
    }
  }

  /** A row with at most one event, which needs no resolution. */
  lemma Pass(
      rows: seq<Row>, i: nat, history: seq<Event>, pending: seq<nat>, open: map<EscalationId, nat>,
      owner: seq<Option<EscalationId>>)
    requires i < |rows| && Passing(rows, i, history, pending, open, owner) && Passes(rows, i, pending, owner)
    requires !Waits(rows[i])
    ensures Passing(rows, i + 1, history + EventsOf(rows, i), pending, open, owner + if EventsOf(rows, i) == []
        then [] else [None])
  {
    var events := EventsUpto(rows, i + 1);
    assert events[..|history|] == EventsUpto(rows, i);
    forall k | 0 <= k < |history|
      ensures events[k] == EventsUpto(rows, i)[k]
    {
    }
  }

  /** The owners once the id of a raise was taken from an earlier event. */
  ghost function Kept(
      open: map<EscalationId, nat>, owner: seq<Option<EscalationId>>, id: Option<EscalationId>)
    : seq<Option<EscalationId>>
    requires forall e | e in open :: open[e] < |owner|
  {
    if id.Some? && id.value in open then owner[open[id.value] := None] else owner
  }

  lemma LookKept(
      rows: seq<Row>, i: nat, pending: seq<nat>, open: map<EscalationId, nat>, owner: seq<Option<EscalationId>>, k: nat)
    requires i < |rows| && Waits(rows[i]) && Owned(pending, open, owner) && k in pending
    ensures Look(rows, i, owner[k]) == Look(rows, i + 1, Kept(open, owner, OwnId(rows[i]))[k])
  {
  }

  /** An earlier event goes on as before. */
  lemma FitsOn(
      rows: seq<Row>, i: nat, event: Event, goal: Event, waiting: bool, owner: Option<EscalationId>,
      kept: Option<EscalationId>)
    requires Fits(rows, i, event, goal, waiting, owner)
    requires waiting ==> Look(rows, i, owner) == Look(rows, i + 1, kept)
    ensures Fits(rows, i + 1, event, goal, waiting, kept)
  {
  }

  /** The new event waits for the rows after its own. */
  lemma NewFits(rows: seq<Row>, i: nat, event: Event)
    requires i < |rows| && Waits(rows[i]) && Shown(rows[i]) == Some(event)
    ensures |EventsOf(rows, i)| == 1 && Fits(rows, i + 1, event, EventsOf(rows, i)[0], true, OwnId(rows[i]))
    ensures EventsUpto(rows, i + 1) == EventsUpto(rows, i) + [EventsOf(rows, i)[0]]
  {
  }

  lemma OpenFilled(
      rows: seq<Row>, i: nat, history: seq<Event>, pending: seq<nat>, owner: seq<Option<EscalationId>>,
      kept: seq<Option<EscalationId>>, event: Event)
    requires i < |rows| && Filled(rows, i, history, pending, owner) && |kept| == |owner|
    requires Waits(rows[i]) && Shown(rows[i]) == Some(event)
    requires forall k | k in pending :: Look(rows, i, owner[k]) == Look(rows, i + 1, kept[k])
    ensures Filled(rows, i + 1, history + [event], pending + [|history|], kept + [OwnId(rows[i])])
  {
    var events := EventsUpto(rows, i);
    NewFits(rows, i, event);
    EarlierFit(rows, i, history, events, pending, owner, kept);
    AppendFit(rows, i + 1, history, events, pending, kept, event, EventsOf(rows, i)[0], OwnId(rows[i]));
  }

  /** All of them do. */
  lemma EarlierFit(
      rows: seq<Row>, i: nat, history: seq<Event>, events: seq<Event>, pending: seq<nat>,
      owner: seq<Option<EscalationId>>, kept: seq<Option<EscalationId>>)
    requires |history| == |owner| == |kept| == |events| && forall k | k in pending :: k < |owner|
    requires AllFit(rows, i, history, events, pending, owner)
    requires forall k | k in pending :: Look(rows, i, owner[k]) == Look(rows, i + 1, kept[k])
    ensures AllFit(rows, i + 1, history, events, pending, kept)
  {
    forall k | 0 <= k < |history|
      ensures Fits(rows, i + 1, history[k], events[k], k in pending, kept[k])
    {
      FitsOn(rows, i, history[k], events[k], k in pending, owner[k], kept[k]);
    }
  }

  lemma AppendFit(
      rows: seq<Row>, i: nat, history: seq<Event>, events: seq<Event>, pending: seq<nat>,
      owner: seq<Option<EscalationId>>, event: Event, goal: Event, own: Option<EscalationId>)
    requires |history| == |owner| == |events|
    requires AllFit(rows, i, history, events, pending, owner) && Fits(rows, i, event, goal, true, own)
    ensures AllFit(rows, i, history + [event], events + [goal], pending + [|history|], owner + [own])
  {
    var n := |history|;
    assert (pending + [n])[|pending|] == n;
    forall k | 0 <= k < n
      ensures k in pending + [n] <==> k in pending
    {
    }
  }

  lemma OpenOwned(
      pending: seq<nat>, open: map<EscalationId, nat>, owner: seq<Option<EscalationId>>, id: Option<EscalationId>)
    requires Owned(pending, open, owner)
    ensures Owned(pending + [|owner|], if id.Some?
        then open[id.value := |owner|] else open, Kept(open, owner, id) + [id])
  {
    var pending', kept := pending + [|owner|], Kept(open, owner, id) + [id];
    var open' := if id.Some? then open[id.value := |owner|] else open;
    assert pending'[|pending|] == |owner|;
    forall k
      ensures k in pending' <==> k in pending || k == |owner|
    {
    }
    forall x | 0 <= x < |pending|
      ensures pending'[x] != |owner|
    {
      assert pending[x] in pending;
    }
    forall e | e in open'
      ensures open'[e] in pending' && kept[open'[e]] == Some(e)
    {
      if id != Some(e) {
        assert open[e] in pending && owner[open[e]] == Some(e);
      }
    }
    forall k | k in pending' && kept[k].Some?
      ensures kept[k].value in open' && open'[kept[k].value] == k
    {
      if k != |owner| {
        assert owner[k] == kept[k] && open[kept[k].value] == k;
      }
    }
  }

  lemma Close(
      rows: seq<Row>, i: nat, history: seq<Event>, pending: seq<nat>, open: map<EscalationId, nat>,
      owner: seq<Option<EscalationId>>, e: EscalationId, rest: seq<nat>)
    requires i < |rows| && Passing(rows, i, history, pending, open, owner)
    requires rows[i].kind.Retracted? && rows[i].id == Some(e) && e in open
    requires forall x :: x in rest <==> x in pending && x != open[e]
    requires forall x, y | 0 <= x < y < |rest| :: rest[x] != rest[y]
    ensures Passing(rows, i + 1, history[open[e] := history[open[e]].(resolution := rows[i].summary)], rest,
        open - {e}, owner)
  {
    var k := open[e];
    assert EventsUpto(rows, i + 1) == EventsUpto(rows, i);
    assert history[k] == EventsUpto(rows, i)[k].(resolution := None);
    assert EventsUpto(rows, i)[k].resolution == rows[i].summary;
  }

  /** The events of a log, each with the resolution the later rows give it. */
  method History(rows: seq<Row>) returns (events: seq<Event>)
    ensures events == Assembled(rows)
  {
    var history: seq<Event> := [];
    var pending: seq<nat> := [];
    var open: map<EscalationId, nat> := map[];
    ghost var owner: seq<Option<EscalationId>> := [];
    for i := 0 to |rows|
      invariant Passing(rows, i, history, pending, open, owner)
    {
      var row := rows[i];
      if Resolves(row) {
        var filled := Fill(history, pending, row.summary);
        Settle(rows, i, history, pending, open, owner, filled);
        history, pending, open := filled, [], map[];
      }
      if Waits(row) {
        var id := OwnId(row);
        forall k | k in pending
          ensures Look(rows, i, owner[k]) == Look(rows, i + 1, Kept(open, owner, id)[k])
        {
          LookKept(rows, i, pending, open, owner, k);
        }
        OpenFilled(rows, i, history, pending, owner, Kept(open, owner, id), Shown(row).value);
        OpenOwned(pending, open, owner, id);
        owner := Kept(open, owner, id) + [id];
        if id.Some? {
          open := open[id.value := |history|];
        }
        pending := pending + [|history|];
        history := history + [Shown(row).value];
      } else if row.kind.Retracted? && row.id.Some? && row.id.value in open {
        var k := open[row.id.value];
        var rest := Remove(pending, k);
        Close(rows, i, history, pending, open, owner, row.id.value, rest);
        open := open - {row.id.value};
        pending := rest;
        history := history[k := history[k].(resolution := row.summary)];
      } else {
        Pass(rows, i, history, pending, open, owner);
        if Shown(row).Some? {
          owner := owner + [None];
          history := history + [Shown(row).value];
        }
      }
    }
    events := Fill(history, pending, Some(NoFollowUp));
    assert events == Assembled(rows);
  }

  // ----- what the look-ahead means

  /** Row `j` was answered or completed with something to say. */
  predicate KeptAction(rows: seq<Row>, j: nat)
    requires j < |rows|
  {
    && (rows[j].kind == Answered || rows[j].kind == RowKind.Completed)
    && rows[j].summary != None && rows[j].summary != Some("")
  }

  /** Row `j` retracts the escalation of row `i`, which no raise between them took
      the id of. */
  ghost predicate RetractsRaise(rows: seq<Row>, i: nat, j: nat)
    requires i < j < |rows|
  {
    && rows[j].kind == Retracted && rows[i].id != None && rows[j].id == rows[i].id
    && forall k | i < k < j && rows[k].kind == Raised :: rows[k].id != rows[i].id
  }

  /** From row `from` on, nothing between there and `j` decides for `id`. */
  lemma {:induction false} LookPasses(rows: seq<Row>, from: nat, j: nat, id: Option<EscalationId>)
    requires from <= j <= |rows|
    requires forall k | from <= k < j :: !KeptAction(rows, k)
    requires forall k | from <= k < j && rows[k].kind == Retracted && id != None && rows[k].id == id ::
        exists l | from <= l < k :: rows[l].kind == Raised && rows[l].id == id
    ensures Look(rows, from, id) ==
            Look(rows, j, if exists l | from <= l < j :: rows[l].kind == Raised && rows[l].id == id then None else id)
    decreases j - from
  {
    if from < j {
      var row := rows[from];
      assert !KeptAction(rows, from);
      if row.kind == Raised && row.id == id {
        LookPasses(rows, from + 1, j, None);
      } else {
        LookPasses(rows, from + 1, j, id);
      }
    }
  }

  lemma LookDecides(rows: seq<Row>, j: nat, id: Option<EscalationId>)
    requires j <= |rows|
    requires j < |rows| ==> KeptAction(rows, j) || (rows[j].kind == Retracted && id != None && rows[j].id == id)
    ensures Look(rows, j, id) == if j < |rows| then rows[j].summary else Some("(no recorded follow-up)")
  {
  }

  /** An escalation is resolved by the earliest later row that is a kept action
      with a summary, or retracts it before another raise takes its id; without
      one, by the fallback. */
  lemma EscalationResolution(rows: seq<Row>, i: nat, j: nat)
    requires i < j <= |rows| && rows[i].kind == Raised
    requires j < |rows| ==> KeptAction(rows, j) || RetractsRaise(rows, i, j)
    requires forall k | i < k < j :: !KeptAction(rows, k) && !RetractsRaise(rows, i, k)
    ensures At(rows, i) < |Assembled(rows)|
    ensures Assembled(rows)[At(rows, i)].resolution ==
            if j < |rows| then rows[j].summary else Some("(no recorded follow-up)")
  {
    var id := rows[i].id;
    forall k | i < k < j && rows[k].kind == Retracted && id != None && rows[k].id == id
      ensures exists l | i < l < k :: rows[l].kind == Raised && rows[l].id == id
    {
      assert !RetractsRaise(rows, i, k);
    }
    LookPasses(rows, i + 1, j, id);
    if j < |rows| && KeptAction(rows, j) {
      LookDecides(rows, j, None);
    }
    if j == |rows| {
      LookDecides(rows, j, None);
    }
    LookDecides(rows, j, id);
    EventPlaced(rows, i);
  }

  /** A developer prompt's result is the next kept action with a summary. */
  lemma PromptResolution(rows: seq<Row>, i: nat, j: nat)
    requires i < j <= |rows| && rows[i].kind == DeveloperPrompt
    requires j < |rows| ==> KeptAction(rows, j)
    requires forall k | i < k < j :: !KeptAction(rows, k)
    ensures At(rows, i) < |Assembled(rows)|
    ensures Assembled(rows)[At(rows, i)].resolution ==
            if j < |rows| then rows[j].summary else Some("(no recorded follow-up)")
  {
    LookPasses(rows, i + 1, j, None);
    LookDecides(rows, j, None);
    EventPlaced(rows, i);
  }

  // ----- which rows are shown, and as what

  /** The row adds an event to the history. */
  predicate Adds(row: Row) {
    || row.kind in {RowKind.Completed, Raised, DeveloperPrompt, Reactivated}
    || (row.kind == Answered && row.summary != None && row.summary != Some(""))
  }

  /** How many rows before row `i` add an event: its own event's place. */
  function At(rows: seq<Row>, i: nat): nat
    requires i <= |rows|
  {
    if i == 0 then 0 else At(rows, i - 1) + if Adds(rows[i - 1]) then 1 else 0
  }

  lemma {:induction false} EventsCounted(rows: seq<Row>, i: nat)
    requires i <= |rows|
    ensures |EventsUpto(rows, i)| == At(rows, i)
  {
    if i > 0 {
      EventsCounted(rows, i - 1);
    }
  }

  lemma {:induction false} EventsGrow(rows: seq<Row>, i: nat, j: nat)
    requires i <= j <= |rows|
    ensures EventsUpto(rows, i) <= EventsUpto(rows, j)
  {
    if i < j {
      EventsGrow(rows, i, j - 1);
    }
  }

  lemma EventPlaced(rows: seq<Row>, i: nat)
    requires i < |rows| && Adds(rows[i])
    ensures At(rows, i) < |Assembled(rows)| && |EventsOf(rows, i)| == 1
    ensures Assembled(rows)[At(rows, i)] == EventsOf(rows, i)[0]
  {
    EventsCounted(rows, i);
    EventsGrow(rows, i + 1, |rows|);
    assert EventsUpto(rows, i + 1)[At(rows, i)] == EventsOf(rows, i)[0];
  }

  /** The history has one event for each answer with a summary, completion, raise,
      developer prompt and new task, in the order of the log and with its time, and
      no others. Only raises and prompts carry a resolution, only raises a reason. */
  lemma HistoryShows(rows: seq<Row>, i: nat)
    requires i < |rows|
    ensures |Assembled(rows)| == At(rows, |rows|)
    ensures Adds(rows[i]) ==>
              At(rows, i) < |Assembled(rows)| && ShowsRow(Assembled(rows)[At(rows, i)], rows[i])
  {
    EventsCounted(rows, |rows|);
    if Adds(rows[i]) {
      EventPlaced(rows, i);
    }
  }

  predicate ShowsRow(e: Event, row: Row) {
    && e.ts == row.ts
    && e.kind == (match row.kind
                  case Answered => ActionEvent
                  case Raised => EscalationEvent
                  case DeveloperPrompt => PromptEvent
                  case Reactivated => TaskEvent
                  case _ => TerminalEvent)
    && (match row.kind
        case Answered => Some(e.caption) == row.summary
        case Raised => e.caption == "Escalation"
        case DeveloperPrompt => e.caption == "Developer instruction"
        case Reactivated => e.caption == "New task"
        case _ => e.caption == "Task completed")
    && e.detail == (if row.kind != Raised then None else if row.summary == None then Some("") else row.summary)
    && (row.kind != Raised && row.kind != DeveloperPrompt ==> e.resolution == None)
  }
}
