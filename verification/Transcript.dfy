/** Reading a session transcript: which tool results are kept, and as what. */
module Transcript {
  import opened Protocol

  datatype CallKind = AskCall | PlanCall

  /** What one transcript line maps to. `valid` is whether the record passes
      validation as a public event. */
  datatype Record =
    | CallRecord(id: ToolUseId, kind: CallKind, valid: bool)
    | ResultRecord(id: ToolUseId, valid: bool)
    | PlainRecord(valid: bool)

  datatype Line = Blank | Malformed | Unmapped | Mapped(records: seq<Record>)

  datatype Event = Call(id: ToolUseId, kind: CallKind) | Result(id: ToolUseId, kind: CallKind) | Plain

  // ----- by looking back

  /** What the records before `i` say about a result for `id`: the kind of the
      latest kept call, unless a result came since. */
  function Awaited(records: seq<Record>, i: nat, id: ToolUseId): Option<CallKind>
    requires i <= |records|
  {
    if i == 0 then None
    else
      match records[i - 1]
      case CallRecord(c, kind, valid) => if c == id && valid then Some(kind) else Awaited(records, i - 1, id)
      case ResultRecord(c, _) => if c == id then None else Awaited(records, i - 1, id)
      case PlainRecord(_) => Awaited(records, i - 1, id)
  }

  /** The event the `i`-th record becomes, if it is kept. */
  function EventAt(records: seq<Record>, i: nat): seq<Event>
    requires i < |records|
  {
    match records[i]
    case CallRecord(id, kind, valid) => if valid then [Call(id, kind)] else []
    case ResultRecord(id, valid) =>
      var kind := Awaited(records, i, id);
      if kind.Some? && valid then [Result(id, kind.value)] else []
    case PlainRecord(valid) => if valid then [Plain] else []
  }

  function Cleaned(records: seq<Record>, n: nat): seq<Event>
    requires n <= |records|
  {
    if n == 0 then [] else Cleaned(records, n - 1) + EventAt(records, n - 1)
  }

  function RecordsOf(lines: seq<Line>): seq<Record> {
    if lines == [] then []
    else RecordsOf(lines[..|lines| - 1]) + if lines[|lines| - 1].Mapped? then lines[|lines| - 1].records else []
  }

  predicate NotBlank(lines: seq<Line>) {
    exists line <- lines :: line != Blank
  }

  datatype ReadResult = Events(events: seq<Event>) | ParseError

  // ----- the reader

  ghost predicate Tracks(pending: map<ToolUseId, CallKind>, records: seq<Record>, n: nat)
    requires n <= |records|
  {
    forall id: ToolUseId :: (if id in pending then Some(pending[id]) else None) == Awaited(records, n, id)
  }

  lemma {:induction false} MoreRecords(records: seq<Record>, more: seq<Record>, n: nat)
    requires n <= |records|
    ensures Cleaned(records + more, n) == Cleaned(records, n)
    ensures forall id: ToolUseId :: Awaited(records + more, n, id) == Awaited(records, n, id)
  {
    if n > 0 {
      MoreRecords(records, more, n - 1);
      assert (records + more)[n - 1] == records[n - 1];
    }
  }

  /** Reads the records of one line onto `events` and `pending`. */
  method ReadLine(
      ghost before: seq<Record>, records: seq<Record>, events: seq<Event>, pending: map<ToolUseId, CallKind>)
    returns (events': seq<Event>, pending': map<ToolUseId, CallKind>)
    requires events == Cleaned(before, |before|) && Tracks(pending, before, |before|)
    ensures events' == Cleaned(before + records, |before + records|)
    ensures Tracks(pending', before + records, |before + records|)
  {
    events', pending' := events, pending;
    ghost var all := before + records;
    MoreRecords(before, records, |before|);
    for i := 0 to |records|
      invariant events' == Cleaned(all, |before| + i) && Tracks(pending', all, |before| + i)
    {
      assert all[|before| + i] == records[i];
      match records[i]
      case CallRecord(id, kind, valid) =>
        if valid {
          pending' := pending'[id := kind];
          events' := events' + [Call(id, kind)];
        }
      case ResultRecord(id, valid) =>
        if id in pending' {
          var kind := pending'[id];
          pending' := pending' - {id};
          if valid {
            events' := events' + [Result(id, kind)];
          }
        }
      case PlainRecord(valid) =>
        if valid {
          events' := events' + [Plain];
        }
    }
  }

  /** The events of a transcript in file order. A malformed line is fatal, and so
      is a transcript that is not blank and yields nothing. */
  method Read(lines: seq<Line>) returns (r: ReadResult)
    ensures r == if Malformed in lines || (NotBlank(lines) && Cleaned(RecordsOf(lines), |RecordsOf(lines)|) == [])
                 then ParseError else Events(Cleaned(RecordsOf(lines), |RecordsOf(lines)|))
  {
    var events: seq<Event> := [];
    var pending: map<ToolUseId, CallKind> := map[];
    var nonblank := 0;
    for i := 0 to |lines|
      invariant Malformed !in lines[..i]
      invariant events == Cleaned(RecordsOf(lines[..i]), |RecordsOf(lines[..i])|)
      invariant Tracks(pending, RecordsOf(lines[..i]), |RecordsOf(lines[..i])|)
      invariant nonblank > 0 <==> NotBlank(lines[..i])
    {
      LineAdded(lines, i);
      if lines[i].Blank? {
        continue;
      }
      nonblank := nonblank + 1;
      if lines[i].Malformed? {
        assert lines[i] in lines;
        return ParseError;
      }
      if lines[i].Mapped? {
        events, pending := ReadLine(RecordsOf(lines[..i]), lines[i].records, events, pending);
      }
    }
    assert lines[..|lines|] == lines;
    r := if nonblank > 0 && events == [] then ParseError else Events(events);
  }

  lemma LineAdded(lines: seq<Line>, i: nat)
    requires i < |lines|
    ensures RecordsOf(lines[..i + 1]) ==
        if lines[i].Mapped? then RecordsOf(lines[..i]) + lines[i].records else RecordsOf(lines[..i])
    ensures NotBlank(lines[..i + 1]) <==> NotBlank(lines[..i]) || lines[i] != Blank
    ensures Malformed in lines[..i + 1] <==> Malformed in lines[..i] || lines[i] == Malformed
  {
    assert lines[..i + 1] == lines[..i] + [lines[i]];
    assert lines[..i + 1][..i] == lines[..i];
    if NotBlank(lines[..i]) {
      var line :| line in lines[..i] && line != Blank;
      assert line in lines[..i + 1];
    }
    assert lines[i] in lines[..i + 1];
  }

  // ----- which records are kept

  /** Record `k` is the call record `i` may answer: a kept call of `id` with no kept
      call and no result of `id` in between. */
  ghost predicate Awaits(records: seq<Record>, k: nat, i: nat, id: ToolUseId, kind: CallKind)
    requires i <= |records|
  {
    && k < i && records[k] == CallRecord(id, kind, true)
    && forall j | k < j < i && !records[j].PlainRecord? && records[j].id == id ::
         records[j].CallRecord? && !records[j].valid
  }

  lemma {:induction false} AwaitedExactly(records: seq<Record>, i: nat, id: ToolUseId, kind: CallKind)
    requires i <= |records|
    ensures Awaited(records, i, id) == Some(kind) <==> exists k: nat :: Awaits(records, k, i, id, kind)
  {
    if i > 0 {
      AwaitedExactly(records, i - 1, id, kind);
      if Awaited(records, i, id) == Some(kind) {
        var last := records[i - 1];
        if last == CallRecord(id, kind, true) {
          assert Awaits(records, i - 1, i, id, kind);
        } else {
          var k: nat :| Awaits(records, k, i - 1, id, kind);
          assert Awaits(records, k, i, id, kind);
        }
      }
      if k: nat :| Awaits(records, k, i, id, kind) {
        assert k < i - 1 ==> Awaits(records, k, i - 1, id, kind);
      }
    }
  }

  /** A call and a plain record are kept if they are valid. A result is kept if and
      only if it is valid and answers a kept call no earlier result answered; it takes
      the kind of that call. */
  lemma KeptExactly(records: seq<Record>, i: nat, e: Event)
    requires i < |records|
    ensures EventAt(records, i) == [e] <==>
            match e
            case Call(id, kind) => records[i] == CallRecord(id, kind, true)
            case Plain => records[i] == PlainRecord(true)
            case Result(id, kind) =>
              records[i] == ResultRecord(id, true) && exists k: nat :: Awaits(records, k, i, id, kind)
    ensures |EventAt(records, i)| <= 1
  {
    if e.Result? {
      AwaitedExactly(records, i, e.id, e.kind);
    }
  }

  /** The kept events come in the order of their records. */
  lemma {:induction false} EventsInOrder(records: seq<Record>, i: nat, n: nat)
    requires i < n <= |records|
    ensures |Cleaned(records, i)| + |EventAt(records, i)| <= |Cleaned(records, n)|
    ensures Cleaned(records, n)[|Cleaned(records, i)|..|Cleaned(records, i)| + |EventAt(records, i)|]
            == EventAt(records, i)
    ensures Cleaned(records, i) <= Cleaned(records, n)
  {
    var before, next := Cleaned(records, n - 1), EventAt(records, n - 1);
    if i < n - 1 {
      EventsInOrder(records, i, n - 1);
      var from := |Cleaned(records, i)|;
      assert (before + next)[from..from + |EventAt(records, i)|] == before[from..from + |EventAt(records, i)|];
    }
  }

  lemma RecordsOfLine(line: Line)
    ensures RecordsOf([line]) == if line.Mapped? then line.records else []
  {
    assert [line][..0] == [];
  }

  /** The records of a transcript are those of its mapped lines, one after the other. */
  lemma {:induction false} RecordsJoin(a: seq<Line>, b: seq<Line>)
    ensures RecordsOf(a + b) == RecordsOf(a) + RecordsOf(b)
  {
    if b == [] {
      assert a + b == a;
    } else {
      var front, last := b[..|b| - 1], b[|b| - 1];
      RecordsJoin(a, front);
      assert (a + b)[..|a + b| - 1] == a + front && (a + b)[|a + b| - 1] == last;
      var own := if last.Mapped? then last.records else [];
      assert RecordsOf(a) + (RecordsOf(front) + own) == (RecordsOf(a) + RecordsOf(front)) + own;
    }
  }

  // ----- pairing

  predicate CallOf(e: Event, id: ToolUseId) {
    e.Call? && e.id == id
  }

  predicate ResultOf(e: Event, id: ToolUseId) {
    e.Result? && e.id == id
  }

  function Count(events: seq<Event>, id: ToolUseId, results: bool): nat {
    if events == [] then 0
    else
      Count(events[..|events| - 1], id, results)
      + if (if results then ResultOf(events[|events| - 1], id) else CallOf(events[|events| - 1], id)) then 1 else 0
  }

  lemma CountAppend(events: seq<Event>, e: Event, id: ToolUseId, results: bool)
    ensures Count(events + [e], id, results) ==
            Count(events, id, results) + if (if results then ResultOf(e, id) else CallOf(e, id)) then 1 else 0
  {
    assert (events + [e])[..|events|] == events;
  }

  /** The results for `id` do not outnumber its calls; while one is awaited they
      are even fewer. */
  predicate Room(events: seq<Event>, id: ToolUseId, awaited: bool) {
    Count(events, id, true) + (if awaited then 1 else 0) <= Count(events, id, false)
  }

  lemma RoomKept(events: seq<Event>, added: seq<Event>, id: ToolUseId, awaited: bool, awaited': bool)
    requires Room(events, id, awaited) && |added| <= 1
    requires added != [] && ResultOf(added[0], id) ==> awaited && !awaited'
    requires awaited' && !awaited ==> added != [] && CallOf(added[0], id)
    ensures Room(events + added, id, awaited')
  {
    EventCounted(events, added, id);
  }

  lemma {:induction false} ResultsLeaveRoom(records: seq<Record>, n: nat, id: ToolUseId)
    requires n <= |records|
    ensures Room(Cleaned(records, n), id, Awaited(records, n, id).Some?)
  {
    if n > 0 {
      ResultsLeaveRoom(records, n - 1, id);
      RoomNext(records, n - 1, id);
    }
  }

  lemma RoomNext(records: seq<Record>, i: nat, id: ToolUseId)
    requires i < |records| && Room(Cleaned(records, i), id, Awaited(records, i, id).Some?)
    ensures Room(Cleaned(records, i + 1), id, Awaited(records, i + 1, id).Some?)
  {
    var before, added := Cleaned(records, i), EventAt(records, i);
    RoomMade(records, i, id);
    RoomKept(before, added, id, Awaited(records, i, id).Some?, Awaited(records, i + 1, id).Some?);
    assert Cleaned(records, i + 1) == before + added;
  }

  /** A result is kept only while one is awaited, and awaits no more; one comes
      to be awaited only with a kept call. */
  lemma RoomMade(records: seq<Record>, i: nat, id: ToolUseId)
    requires i < |records|
    ensures var added := EventAt(records, i);
      && |added| <= 1
      && (added != [] && ResultOf(added[0], id) ==> Awaited(records, i, id).Some? && Awaited(records, i + 1, id).None?)
      && (Awaited(records, i + 1, id).Some? && Awaited(records, i, id).None? ==> added != [] && CallOf(added[0], id))
  {
  }

  lemma EventCounted(events: seq<Event>, more: seq<Event>, id: ToolUseId)
    requires |more| <= 1
    ensures Count(events + more, id, true) == Count(events, id, true) + if more != [] && ResultOf(more[0], id)
        then 1 else 0
    ensures Count(events + more, id, false) == Count(events, id, false) + if more != [] && CallOf(more[0], id)
        then 1 else 0
  {
    if more == [] {
      assert events + more == events;
    } else {
      assert more == [more[0]];
      CountAppend(events, more[0], id, true);
      CountAppend(events, more[0], id, false);
    }
  }

  /** In every prefix of the cleaned transcript the results for an id do not
      outnumber its calls. */
  lemma {:induction false} ResultsNeverOutnumberCalls(records: seq<Record>, n: nat, m: nat, id: ToolUseId)
    requires n <= |records| && m <= |Cleaned(records, n)|
    ensures Count(Cleaned(records, n)[..m], id, true) <= Count(Cleaned(records, n)[..m], id, false)
  {
    if m == |Cleaned(records, n)| {
      assert Cleaned(records, n)[..m] == Cleaned(records, n);
      ResultsLeaveRoom(records, n, id);
    } else {
      assert Cleaned(records, n)[..m] == Cleaned(records, n - 1)[..m];
      ResultsNeverOutnumberCalls(records, n - 1, m, id);
    }
  }

  /** The result at `m` answers the call at `k`: nothing else happened to the id
      in between, and the kinds agree. */
  ghost predicate Answers(events: seq<Event>, k: nat, m: nat)
    requires k < m < |events|
  {
    && events[m].Result? && events[k] == Call(events[m].id, events[m].kind)
    && forall j | k < j < m :: !CallOf(events[j], events[m].id) && !ResultOf(events[j], events[m].id)
  }

  /** The latest kept call behind an awaited result. */
  lemma {:induction false} AwaitedCall(records: seq<Record>, n: nat, id: ToolUseId) returns (k: nat)
    requires n <= |records| && Awaited(records, n, id).Some?
    ensures k < |Cleaned(records, n)| && Cleaned(records, n)[k] == Call(id, Awaited(records, n, id).value)
    ensures forall j | k < j < |Cleaned(records, n)| ::
        !CallOf(Cleaned(records, n)[j], id) && !ResultOf(Cleaned(records, n)[j], id)
  {
    var r := records[n - 1];
    if r.CallRecord? && r.id == id && r.valid {
      k := |Cleaned(records, n - 1)|;
    } else {
      k := AwaitedCall(records, n - 1, id);
    }
  }

  /** Every kept result answers the latest earlier call with its id, and has its
      kind. */
  lemma {:induction false} ResultsAnswerLatestCall(records: seq<Record>, n: nat, m: nat) returns (k: nat)
    requires n <= |records| && m < |Cleaned(records, n)| && Cleaned(records, n)[m].Result?
    ensures k < m && Answers(Cleaned(records, n), k, m)
  {
    if m < |Cleaned(records, n - 1)| {
      k := ResultsAnswerLatestCall(records, n - 1, m);
    } else {
      k := AwaitedCall(records, n - 1, records[n - 1].id);
    }
  }
}
