# A verified model of the session broker, the master and the code index

The project models the two parts of the system whose correctness is hardest to
see by reading: the protocol that carries a decision from a stuck coding session
to the developer and back, and the incremental code index with the edge
resolution underneath it. Four smaller computations follow.

`dafny verify dfyconfig.toml` checks everything.

## The decision protocol

A session broker runs queued jobs one at a time, and socket handlers run between
any two segments of a job. `BrokerModel` is that broker as a transition system:
the program counter names the await the running job is suspended in, and `Step`
gives the next state for every hook, request, transcript, model verdict and
reply. `BrokerSafety` proves what one step keeps, `BrokerRuns` what whole runs
guarantee: quiescence, at most one typed decision per escalation, no pane write
while a picker is open, and the bound on autonomous answers. `BrokerCauses` and
`BrokerOutcomes` say for each event exactly when it happens, in terms of the
state, the input and the transcript read; `BrokerHistory` does so over whole runs
for what depends on the past: an escalation is withdrawn as answered in the pane
exactly when a check reads more prompts than the turn it was raised over showed.
`SessionBroker` is
the same broker as an object that updates its fields in place; its methods keep
the invariant and take the model's steps, and `Drive` feeds a whole sequence of
inputs through the object and shows that the states it goes through are a run,
so that the theorems hold of it.

`EscalationQueue` and `MasterRuntime` are the master's queue and handlers as
objects, `MasterModel` their specification, `MasterSafety` the invariant of a
master process: the surfaced escalation is the head, and announcements are a
repeat-free subsequence of what was accepted. `MasterEffects` says entry by entry
what a request or a restart takes out of the queue. `MasterRuntime.Run` takes the
object through a whole process.

`FleetModel` puts the master and any number of brokers together, with crashing,
attached, reassigned and stopped brokers, failing requests and a restarting
master. A dispatch is two steps: the decision is sent, and its acknowledgement is
seen later, or never. `FleetSafety` proves the invariant of the fleet, `FleetRuns`
the theorems over runs: a dispatched escalation stays the head until it leaves, a
DELIVERED report pops exactly the escalation whose decision was typed, no
escalation is answered twice in any pane, and the marker of the decision in
flight names the head as long as no acknowledgement is overtaken. `Capacity`
proves when a raise can be refused because the session's earlier entry still
waits, and `CapacityRace` shows it happening.

**A finding.** The master keeps one entry per session and the broker is expected
to withdraw an escalation before it raises the next. That holds as long as no
request fails, except for three actions (`Capacity.Abandons`): reassigning a
session with a queued entry, raising for a recorded answer that failed
verification while an escalation is active, and starting a reactivation job while
one is active. The last one is a race: a reactivation is accepted only in the
completed state, but a developer prompt being typed at that moment sets the
broker driving, a turn end queued in between is escalated, and the reactivation
then clears the active escalation without a retract
(`src/broker/session/broker.py:1738`). The next escalation is refused and the
session ends in the error state. `CapacityRace.RefusedAfterRace` is a complete
run.

**A second finding.** A dispatch awaits the broker's acknowledgement and then sets
the in-flight marker without another look at the queue
(`src/broker/master/runtime.py:1172-1187`). If the escalation left the queue
during that wait, the marker names none that is queued, and while it does every
dispatch is refused. Often the broker's own report on the dispatched decision
still follows and takes the marker off. `MarkerFate.StaysForGoodIffStuck` says
exactly when none does, for every state a run reaches: the marker stays until the
master restarts if and only if its escalation left the queue, no report on it is
unhandled, and no running broker can come to report on it
(`StaleMarkers.Stuck`). The last part is read off the broker: a delivery under
way, a queued decision or developer prompt the loop will get to before it stops
or forgets the escalation, or an escalation still active after a fatal error,
which a later developer prompt would retract (`BrokerSilence.MayReport`).
`MarkerRace.StuckAfterRace` is a complete run into such a state: the broker types
the decision and the master handles the DELIVERED report before the dispatch
resumes. `BrokerLoop`, `BrokerSilence` and `BrokerReports` hold the broker's side
of the proof, `FleetOwners` which session an escalation belongs to, `SoloRuns`
the steps the two runs are built from.

## The code index

`EdgeResolution` defines what every stored reference and import resolves to;
`Hierarchy` is the breadth-first search over base classes; `Names` handles dotted
and qualified names. `EdgeResolver` is the resolver as it runs, `EdgeProperties`
proves where edges end, that a Python import means the longest dotted prefix with
a single answer, that a self call means a nearest definer, and that the order of
the inputs does not matter. `EdgeMeaning` says of the edge table itself which edges
are in it, distances counted along its own inheritance edges. `IndexStore` holds the tables and their transactions,
`Indexer` one run that may be cut off before any transaction, and
`IndexProperties` why an incremental run ends with the tables of a run from
nothing; `EmbeddedText` what the embedded text contains and that an edited body
shows in it. `Batches` proves that the embedding requests are the fewest possible.

Hashing (assumed free of collisions), parsing and embedding are functions in the
record `IndexModel.World`.

## The smaller parts

`Outcome`: the one-pass history of a session equals its look-ahead definition.
`Retrieval`: seeds, one-hop ranks, order, and what the budget leaves.
`CallAttribution`: every call in a class goes to exactly one symbol.
`Transcript`: tool results pair with the latest call.
`Protocol`, `Sorting` and `Subsequences` are shared vocabulary.

## Model

| member | source | states |
|---|---|---|
| SessionBroker.Session.constructor | src/broker/session/broker.py:293-365 | a broker starts in the initial state of a spawned, reassigned or attached session |
| SessionBroker.Session.CheckResolved | src/broker/session/broker.py:1616-1650 | a prompt beyond the baseline ends the escalation and reports the retract |
| SessionBroker.Session.CheckPicker | src/broker/session/broker.py:1352-1387 | the picker is released exactly when the transcript records its answer |
| SessionBroker.Session.Take | src/broker/session/broker.py:598-609 | the next job runs up to its first await, as the model's step says |
| SessionBroker.Session.Judge | src/broker/session/broker.py:1156-1196 | each triage verdict takes its branch, the budget checked before an answer is typed |
| SessionBroker.Session.ResumeDelivery | src/broker/session/broker.py:1708-1724 | a typed decision ends the escalation, resets the budget and is reported as delivered, in that order |
| SessionBroker.Session.ResumeRelay | src/broker/session/broker.py:1742-1765 | a relayed prompt ends an active escalation with a retract |
| SessionBroker.Session.Proceed | src/broker/session/broker.py:598-609 | a completed await continues its job as the model's step says |
| SessionBroker.Session.Interrupt | src/broker/session/broker.py:1908-1936 | a refused or failed await becomes a miss report, a dropped question, or a fatal report |
| SessionBroker.Session.OnToolDone | src/broker/session/broker.py:1070-1082 | PostToolUse queues a failed verification, then the checks its input may settle |
| SessionBroker.Session.OnVerifyBackstop | src/broker/session/broker.py:1440-1485 | the transcript confirms the injected answer, or the failed verification is queued, as recorded if another answer or none could be read |
| SessionBroker.Session.OnReactivate | src/broker/session/broker.py:964-983 | accepted only when completed, the gate closed before the job is queued |
| SessionBroker.Session.OnSendPrompt | src/broker/session/broker.py:985-1002 | refused while a native prompt is open |
| SessionBroker.Session.OnAsk | src/broker/session/broker.py:697-726 | decided by the model only while driving, parsable and within budget; otherwise the picker is claimed |
| SessionBroker.Session.OnAskAnswered | src/broker/session/broker.py:757-764 | an answered question counts at once and queues the count by value |
| SessionBroker.Session.OnAskEscalated | src/broker/session/broker.py:736-748 | a question the model hands over claims the picker and queues its escalation |
| SessionBroker.Session.Feed | src/broker/session/broker.py:914-1095 | every input, hooks and requests included, takes the model's step if it can be taken now and changes nothing otherwise; the invariant is kept |
| SessionBroker.Drive | src/broker/session/broker.py:367-396 | the object fed any inputs goes through a run of the model, so the theorems on runs hold of it; it types one decision per escalation at most |
| BrokerSafety.SegmentAdvances | src/broker/session/broker.py:598-609 | what every job segment may change: escalation, picker, budget, writes, deliveries |
| BrokerLoop.StepKeepsLoop | src/broker/session/broker.py:1666-1667 | a stale delivery stays stale, retracted escalations were raised, a fatal report is made in the error or stopped state |
| BrokerLoop.HandlerQueues | src/broker/session/broker.py:914-1095 | handlers only append to the queue, and exactly these jobs |
| BrokerSafety.HandlerHandled | src/broker/session/broker.py:613-626 | handlers leave the running job and the active escalation alone |
| BrokerSafety.StepKeeps | src/broker/session/broker.py:1553-1588 | every step of a broker keeps its invariant |
| BrokerRuns.QuiescentThroughout | src/broker/session/broker.py:1136-1171 | driving implies no active escalation, escalated between jobs implies one, none is active while an answer is typed, and no write starts into an occupied pane |
| BrokerRuns.NothingTypedOnceOver | src/broker/session/broker.py:1778-1787 | once an escalation stops being active no decision is typed for it, whatever is dispatched |
| BrokerRuns.TypedAtMostOnce | src/broker/session/broker.py:1652-1724 | at most one decision per escalation is typed |
| BrokerRuns.TypedOnlyIfDispatched | src/broker/session/broker.py:959-962 | a delivery under way was dispatched before |
| BrokerRuns.ConfirmsTyped | src/broker/session/broker.py:1708-1724 | only the step that typed the decision leads to its DELIVERED report |
| BrokerRuns.NoWriteWhilePickerOpen | src/broker/session/broker.py:1860-1878 | no pane write starts between claiming a picker and reading its answer, unless a newer picker is claimed |
| BrokerRuns.BudgetBound | src/broker/session/broker.py:1159-1171 | with at most k answers past the check and uncounted, the count stays within budget_max + k - 1 |
| BrokerRuns.BudgetCountsAnswers | src/broker/session/broker.py:1170-1171 | between two contacts the count grows by exactly the autonomous answers |
| BrokerRuns.AnswersSinceContact | src/broker/session/broker.py:1767-1770 | without overlap at most budget_max answers follow a contact |
| BrokerCauses.WithdrawsExactly | src/broker/session/broker.py:1610-1625 | a step withdraws the escalation as answered in the pane if and only if a check for it reads more prompts than its baseline |
| BrokerHistory.WithdrawnExactly | src/broker/session/broker.py:1553-1625 | over any run: if and only if it is active and awaited, and the check reads more prompts than the transcript its turn was triaged on; one raised for an unverified answer never |
| BrokerCauses.TriagesExactly | src/broker/session/broker.py:1590-1608 | a turn goes to triage exactly when the checks are over while driving, for the watchdog only on news in a free pane |
| BrokerHistory.WatchdogSeesNews | src/broker/session/broker.py:1793-1824 | over any run the watchdog triages only a transcript of another length than the last triage read |
| BrokerCauses.RaisesExactly | src/broker/session/broker.py:1553-1588 | an escalation is raised exactly when triage hands a turn over, by verdict or for want of budget, or a recorded answer failed verification; its baseline is what triage read, or none |
| BrokerCauses.VerdictsExactly | src/broker/session/broker.py:1156-1196 | an answer is typed exactly on an answer verdict within the budget and into a free pane, a completion reported exactly on its verdict |
| BrokerCauses.PickerExactly | src/broker/session/broker.py:1352-1375 | a job releases the picker exactly when it checks it and reads its answer |
| BrokerCauses.RetractsQuestionExactly | src/broker/session/broker.py:1352-1387 | the picker's question is retracted exactly then, as the developer's unless the answers are those the broker injected |
| BrokerCauses.MakesContactExactly | src/broker/session/broker.py:1767-1770 | the budget is reset and reported as zero exactly on a question or escalation answered in the pane, a typed decision or prompt, and a new task |
| BrokerOutcomes.EndsExactly | src/broker/session/broker.py:1778-1787 | an active escalation ends in exactly five ways |
| BrokerOutcomes.FailsExactly | src/broker/session/broker.py:598-609 | the steps that fail the session: a failed turn, a needed transcript that cannot be read, a text meant for a held pane, a failed await that nothing excuses |
| BrokerOutcomes.StateExactly | src/broker/session/broker.py:1708-1765 | the state after every step, by what the step did |
| BrokerOutcomes.DeliveryExactly | src/broker/session/broker.py:1652-1707 | a dispatched decision is written, stale or missed according to the active escalation and the pane |
| BrokerOutcomes.MissReportedTruly | src/broker/session/broker.py:1666-1707 | an undelivered report says truly whether the escalation is still active |
| BrokerOutcomes.OpensInOrder | src/broker/session/broker.py:508-560 | a task is grounded, proposed, approved and only then typed, into a free pane |
| BrokerOutcomes.RelaysExactly | src/broker/session/broker.py:1742-1765 | a developer prompt is typed only into a free pane and withdraws the escalation active by then |
| BrokerOutcomes.SegmentQueues | src/broker/session/broker.py:905-912 | jobs queue only the retract of a replaced picker and, at the end of the session, the sentinel |
| BrokerOutcomes.LoopGoesOn | src/broker/session/broker.py:598-609 | another job is taken only while Claude runs and no shutdown came |
| BrokerOutcomes.HandlerNotes | src/broker/session/broker.py:676-748 | what hooks and requests note: the claimed picker, the permission prompt, the questions being decided |
| BrokerOutcomes.PermissionExactly | src/broker/session/broker.py:1056-1086 | a permission prompt is open from its notification to the next Stop or finished tool |
| BrokerOutcomes.ReportsExactly | src/broker/session/broker.py:1880-1906 | the request a step leaves unanswered tells the master what the step did |
| BrokerOutcomes.JobsReport | src/broker/session/broker.py:757-764 | jobs that only report tell what they were queued for |
| BrokerOutcomes.StartsExactly | src/broker/session/broker.py:398-455 | what a spawned, a reassigned and an attached broker start with and do first |
| BrokerOutcomes.AttachedResumes | src/broker/session/broker.py:435-455 | attached to a finished task a broker takes a new one and triages nothing, to an unfinished one the other way round, with the persisted count |
| EscalationQueue.Queue.Accept | src/broker/master/queue.py:96-114 | appends unless the session has an entry; one entry per session is kept |
| EscalationQueue.Queue.Retract | src/broker/master/queue.py:116-130 | takes out the entry with that id wherever it waits, and nothing else |
| EscalationQueue.Queue.Resolve | src/broker/master/queue.py:132-148 | takes out the entry if and only if it is the head |
| EscalationQueue.Queue.RetractForSession | src/broker/master/queue.py:150-165 | takes out the session's entry; afterwards it has none |
| MasterRuntime.Runtime.constructor | src/broker/master/runtime.py:225-255 | startup drops finished sessions with their entries, forgets both markers and announces the head |
| MasterRuntime.Runtime.ReceiveEscalation | src/broker/master/runtime.py:748-759 | unknown session and taken slot are refused, otherwise the entry is queued and the head surfaced |
| MasterRuntime.Runtime.ReceiveRetract | src/broker/master/runtime.py:801-832 | clears the marker and the entry and surfaces the next head |
| MasterRuntime.Runtime.ReceiveDelivered | src/broker/master/runtime.py:1223-1243 | clears the marker; pops the entry only if it is the head |
| MasterRuntime.Runtime.ReceiveUndelivered | src/broker/master/runtime.py:1262-1284 | a live miss keeps the entry, a stale one clears it |
| MasterRuntime.Runtime.WithdrawFor | src/broker/master/runtime.py:1619-1638 | withdraws the entry of a session whose broker is gone |
| MasterRuntime.Runtime.ReceiveSessionEnded | src/broker/master/runtime.py:1667-1684 | retires a known session and withdraws its entry |
| MasterRuntime.Runtime.BeginDispatch | src/broker/master/runtime.py:1148-1175 | the decision is sent only for the head with none in flight; nothing is marked yet |
| MasterRuntime.Runtime.EndDispatch | src/broker/master/runtime.py:1180-1189 | an acknowledgement sets the marker without another look at the queue; without one nothing is marked |
| MasterRuntime.Runtime.Stop | src/broker/master/runtime.py:1460-1468 | keeps the entry, drops the marker of the session's own head |
| MasterRuntime.Run | src/broker/master/runtime.py:582-624 | the object taken through any messages ends in the model's state, the head surfaced and announcements a repeat-free subsequence of acceptances |
| MasterSafety.OnRequestKeeps | src/broker/master/runtime.py:801-832 | every handled request keeps the invariant of a master process |
| MasterSafety.AnnouncedInOrderOnce | src/broker/master/runtime.py:877-895 | announcements are a repeat-free subsequence of acceptance order |
| MasterSafety.DispatchKeeps | src/broker/master/runtime.py:1148-1189 | both halves of a dispatch keep the invariant; the acknowledgement leaves a marker that fits if and only if the escalation is still the head |
| MasterSafety.UnqueuedMarkerBlocks | src/broker/master/runtime.py:1156-1164 | a marker for an escalation not queued refuses every dispatch, and of all requests only one naming it clears it |
| MasterSafety.RestartEstablishes | src/broker/master/runtime.py:582-589 | a restart establishes the invariant for the new process |
| MasterEffects.QueueExactly | src/broker/master/runtime.py:748-832 | after a request the queue is what remains in order, with exactly the entries the request ends taken out, and the entry taken in |
| MasterEffects.MarkerExactly | src/broker/master/runtime.py:1223-1284 | the marker goes exactly with a report naming its decision or with its entry |
| MasterEffects.RestartExactly | src/broker/master/runtime.py:225-255 | a restart keeps exactly the entries and sessions not finished, in order, with nothing in flight and the head announced |
| FleetSafety.ActionKeeps | src/broker/master/runtime.py:626-724 | every action of the fleet keeps its invariant: ids apart, queued entries known, a dispatched id the head or gone |
| Capacity.CoveredAccepts | src/broker/master/queue.py:107-112 | while every entry is accounted for, no raise finds its place taken |
| Capacity.CoveredUnlessAbandoned | src/broker/session/broker.py:1726-1740 | without failing requests an action keeps every entry accounted for if and only if it does not abandon one |
| FleetRuns.SurfacedThroughout | src/broker/master/runtime.py:877-895 | in every run the surfaced id is the head's, and announcements are in order and unrepeated |
| FleetRuns.MarkerFitsUnlessOvertaken | src/broker/master/runtime.py:1187 | an action leaves the marker naming the head or nothing if and only if it is no acknowledgement that was overtaken |
| FleetRuns.MarkerFitsThroughout | src/broker/master/runtime.py:1156-1187 | in runs without an overtaken acknowledgement the decision in flight answers the head, or there is none |
| FleetRuns.DispatchedStaysHead | src/broker/master/runtime.py:1148-1187 | from its dispatch on an escalation is the head until it leaves the queue |
| FleetRuns.DeliveredPopsTheTyped | src/broker/master/runtime.py:1236-1243 | a DELIVERED report follows the typing of that decision and pops exactly its entry, or nothing if it is gone |
| FleetRuns.TypedAtMostOnce | src/broker/session/broker.py:1652-1724 | in the whole fleet, across crashes, replacements and restarts, one decision per escalation is typed at most |
| FleetRuns.NeverRefusedForCapacity | src/broker/master/queue.py:96-114 | while no request fails and no entry is abandoned no raise is refused for capacity |
| CapacityRace.RefusedAfterRace | src/broker/session/broker.py:1738-1740 | a run without failing requests or reassignment in which a raise is refused all the same |
| FleetOwners.ActionOwned | src/broker/master/runtime.py:626-724 | what a session raised and what it is to deliver is its own, and an escalation that left the queue stays active only at a failed broker |
| BrokerSilence.HandlerSilent | src/broker/session/broker.py:914-1095 | no hook or request but a dispatch makes a report possible that was not |
| BrokerSilence.StartSilent | src/broker/session/broker.py:598-609 | nor does the next job |
| BrokerSilence.ResumeSilent | src/broker/session/broker.py:1652-1765 | nor does an await that ends |
| StaleMarkers.StuckStays | src/broker/master/runtime.py:1218-1221 | nothing but a restart of the master frees a stuck marker |
| MarkerFate.AheadFrees | src/broker/session/broker.py:598-609 | a broker judged able to report does so in some continuation, job after job |
| MarkerFate.StaysForGoodIffStuck | src/broker/master/runtime.py:1156-1187 | in every reached state the marker stays until a restart, whatever else happens, if and only if it is stuck |
| MarkerRace.StuckAfterRace | src/broker/master/runtime.py:1172-1187 | a run without failing requests, reassignment or lost acknowledgement into a stuck marker |
| Hierarchy.Linearise | src/broker/index/edge_resolution.py:164-174 | the queue-driven search computes the search order of the specification, on cyclic inheritance too |
| Hierarchy.LinearisedIsReachable | src/broker/index/edge_resolution.py:164-174 | it lists exactly the reachable classes, each once, the class itself first |
| Hierarchy.NearestFirst | src/broker/index/edge_resolution.py:164-174 | in non-decreasing inheritance distance |
| Names.JoinSplit | src/broker/index/edge_resolution.py:137 | joining the parts of a dotted name gives it back |
| Names.QualifiedParts | src/broker/index/edge_resolution.py:136 | a qualified name falls apart into its path and inner name |
| Names.ModuleNamesAreSuffixes | src/broker/index/edge_resolution.py:56-64 | a Python file answers to exactly the dotted suffixes of its module's name, each once; a root package file to none |
| Names.ModuleFilesAnswer | src/broker/index/edge_resolution.py:56-64 | `m.py` and `m/__init__.py` answer to the same names, the root's own file to none |
| EdgeResolver.Resolver.constructor | src/broker/index/edge_resolution.py:68-84 | the tables hold the last row per name and binding, the module table every file under each name it answers to |
| EdgeResolver.Resolver.ResolveImport | src/broker/index/edge_resolution.py:176-203 | resolves an import binding and a member chain as specified, on lists of files in any order |
| EdgeResolver.Resolver.ResolveReference | src/broker/index/edge_resolution.py:132-155 | same file, then self or this, then imports |
| EdgeResolver.Resolver.Edges | src/broker/index/edge_resolution.py:86-125 | the sorted, duplicate-free list of the specified edges |
| EdgeResolver.Resolved | src/broker/index/edge_resolution.py:36-53 | the same for the whole resolution |
| EdgeMeaning.EdgesExactly | src/broker/index/edge_resolution.py:86-125 | the table has one edge for each reference that means something, each import that leads somewhere and each nested symbol, and no others |
| EdgeMeaning.SelfCallEdge | src/broker/index/edge_resolution.py:104-149 | a call through self, cls or this has its edge, to the member of a class nearest along the table's own inheritance edges, and to the imports only without one |
| EdgeMeaning.MeansLocalOrImported | src/broker/index/edge_resolution.py:132-155 | any other reference means its file's symbol of that name, else what its first part was imported as leads to, of a kind it may mean |
| EdgeMeaning.ImportsExactly | src/broker/index/edge_resolution.py:176-213 | what an import leads to, for Python by the longest answered prefix, else by the first indexed candidate file, all extensions named |
| EdgeMeaning.DottedImportReads | src/broker/index/edge_resolution.py:178-183 | the dotted path of a Python import reads module, imported name, members |
| EdgeMeaning.LastRowCounts | src/broker/index/edge_resolution.py:74-77 | of rows with one name or binding the last one counts |
| EdgeMeaning.EdgesOrdered | src/broker/index/edge_resolution.py:125 | edges are listed by source, target and kind name |
| Sorting.TextLeExactly | src/broker/index/edge_resolution.py:125 | names are ordered by their first differing character, a prefix first |
| EdgeProperties.EdgesEndIndexed | src/broker/index/edge_resolution.py:86-130 | every edge ends at an indexed symbol of an allowed kind, or for imports at an indexed file or symbol |
| EdgeProperties.PythonImportLongest | src/broker/index/edge_resolution.py:178-193 | a Python import resolves through the longest prefix exactly one file answers to, and through no other |
| EdgeProperties.SelfCallNearest | src/broker/index/edge_resolution.py:142-149 | a self or this call means a definer at minimal distance; imports decide only if no reachable class defines the member |
| EdgeProperties.ReferenceOrderIndependent | src/broker/index/edge_resolution.py:89-98 | the edges depend on the set of references only, although bases are searched in order |
| EdgeProperties.OrderIndependent | src/broker/index/edge_resolution.py:74-125 | the list of edges is the same for any order of symbols and imports and any order and repetition of references; languages are a map the resolver reads in any order |
| Batches.Split | src/broker/index/indexer.py:103-119 | an order-preserving partition within the caps, and no other has fewer batches |
| Batches.GreedyStaysAhead | src/broker/index/indexer.py:108-116 | after the same number of batches the greedy split is never behind another |
| IndexStore.Store.Replace | src/broker/index/store.py:140-176 | replaces all rows of one file, or none if a name is taken |
| IndexStore.Store.Delete | src/broker/index/store.py:178-186 | deletes exactly the rows of one file |
| IndexStore.Store.ReplaceEdges | src/broker/index/store.py:237-244 | the edge table becomes the given set |
| IndexStore.Store.StoreEmbeddings | src/broker/index/store.py:293-303 | inserts or replaces the given rows |
| IndexStore.Store.Prune | src/broker/index/store.py:305-312 | keeps the embeddings of embeddable symbols only |
| IndexStore.Store.MethodsOf | src/broker/index/store.py:272-286 | a class's methods in source order |
| IndexStore.Store.Imports | src/broker/index/store.py:219-233 | all import rows, sorted by all columns |
| IndexStore.Store.Keys | src/broker/index/store.py:190-205 | the identity of every symbol, once, ordered by qualified name |
| IndexStore.Store.EmbeddableSymbols | src/broker/index/store.py:264-270 | every function, method and class, once, ordered by qualified name |
| IndexProperties.ReplaceKeeps | src/broker/index/store.py:144-176 | replacing a file keeps every file stored whole |
| IndexProperties.IncrementalIsFresh | src/broker/index/indexer.py:169-197 | two completed runs on the same contents leave the same five tables, whatever each started from |
| IndexProperties.EmbeddingsAlike | src/broker/index/indexer.py:122-151 | and the same embeddings |
| IndexProperties.OneText | src/broker/index/indexer.py:78-100 | the tables determine the text embedded for a symbol |
| IndexProperties.DeclarationsHaveEdges | src/broker/index/edge_resolution.py:115-124 | while the edges are current each symbol declared in another has the edge that says so |
| EmbeddedText.TextReads | src/broker/index/indexer.py:78-100 | the text is path, name, signature, docstring and body, or a class's fields and method signatures, one below the other without the empty ones |
| EmbeddedText.SignaturesInOrder | src/broker/index/indexer.py:83-96 | the signatures are those of all methods of the class, by the line they start at |
| EmbeddedText.EditShows | src/broker/index/indexer.py:94-100 | a function or method whose body changed has another text |
| Indexer.UpdateFiles | src/broker/index/indexer.py:172-186 | parses exactly the files whose stored hash differs, one transaction each |
| Indexer.DropVanished | src/broker/index/indexer.py:187-190 | deletes the vanished files one transaction at a time |
| Indexer.UpdateEdges | src/broker/index/indexer.py:191-197 | the edge table becomes the resolution of the present tables |
| Indexer.FindPending | src/broker/index/indexer.py:124-137 | lists exactly the symbols whose text hash is not the stored one, each once, with its text |
| Indexer.EmbedBatches | src/broker/index/indexer.py:138-151 | stores the vectors of whole batches in order; a run cut off may have sent one batch more than it stored |
| Indexer.IndexRepo | src/broker/index/indexer.py:154-209 | cut off anywhere a run leaves whole files and true embeddings and treated only what changed; finished, all tables are those of the contents, exactly the functions, methods and classes have embeddings, and every symbol whose body is not the one its embedding was made of was sent; it fails only if a file of the repository yields a name twice or one another stored file yields |
| Indexer.IndexBeside | src/broker/index/indexer.py:154-209 | a finished run over any index earlier runs left and a finished run from nothing leave the same database |
| Indexer.NextRunIsIdle | src/broker/index/indexer.py:182-186 | after a finished run the next one on the same contents has nothing to parse or embed |
| Outcome.History | src/broker/master/outcome.py:61-116 | the single pass builds the history of the look-ahead definition, repeated raise ids included; a pending event is always there to remove |
| Outcome.EscalationResolution | src/broker/master/outcome.py:74-106 | the earliest later answer or completion with a summary, or retraction before another raise takes the id, resolves an escalation, else the fallback |
| Outcome.PromptResolution | src/broker/master/outcome.py:107-116 | a developer prompt gets the summary of the next answer or completion that has one, else the fallback |
| Outcome.HistoryShows | src/broker/master/outcome.py:79-112 | which rows have an event, in which order, and what it shows |
| Retrieval.Seeds | src/broker/index/retrieval.py:64-72 | five, or all, such that no vector left out scores higher, best first, equal scores by name |
| Retrieval.NeighborPulls | src/broker/index/retrieval.py:78-92 | the hop rules pull a node in from exactly one seed per edge |
| Retrieval.ShownPulls | src/broker/index/retrieval.py:78-92 | an edge is shown exactly if it pulls something in from a seed |
| Retrieval.Expand | src/broker/index/retrieval.py:95-106 | a pulled-in node ranks with the best seed that pulls it in, and every pulled-in node is ranked |
| Retrieval.Ordered | src/broker/index/retrieval.py:107-111 | the indexed nodes, seeds first, then by rank, then by name |
| Retrieval.Fit | src/broker/index/render.py:13-27 | keeps all seeds and the most expansion nodes, in order, that fit; none if none fits |
| Retrieval.TrimmedCuts | src/broker/index/render.py:18-26 | in the shown order the kept list is the longest prefix of the context that fits, never shorter than the seeds |
| CallAttribution.Walk | src/broker/index/symbol_extraction.py:323-339 | the stack walk collects the calls outside pruned subtrees |
| CallAttribution.ExtractClass | src/broker/index/symbol_extraction.py:127-222 | extracting a class credits members and class as specified, and skips one without a name or a body |
| CallAttribution.CreditsByMember | src/broker/index/symbol_extraction.py:144-214 | a call in a statement of the class body goes to the method it is, to whatever the class it is credits, or to the class |
| CallAttribution.CreditsOutside | src/broker/index/symbol_extraction.py:127-143 | a call outside the statements goes to the class; a class without a name or body gets nothing |
| CallAttribution.ClassCredited | src/broker/index/symbol_extraction.py:144-174 | a symbol is credited with a call if and only if its node is the innermost indexed one containing it and no skipped class does |
| CallAttribution.CreditedToInnermost | src/broker/index/symbol_extraction.py:127-214 | a call in a class is credited to exactly one symbol if and only if it lies in no nested class without a name or a body; otherwise to none |
| Transcript.Read | src/broker/transcript/adapter.py:63-126 | the reader keeps exactly the events of the look-back definition; malformed lines and empty results are fatal |
| Transcript.KeptExactly | src/broker/transcript/adapter.py:85-126 | valid calls and plain records are kept, a valid result exactly if it answers a kept call not answered before, with that call's kind |
| Transcript.EventsInOrder | src/broker/transcript/adapter.py:97-113 | the kept events come in the order of their records |
| Transcript.ResultsNeverOutnumberCalls | src/broker/transcript/adapter.py:97-113 | in every prefix results for an id never outnumber its calls |
| Transcript.ResultsAnswerLatestCall | src/broker/transcript/adapter.py:129-151 | every result answers the latest earlier call with its id and takes its kind |

## Left out

- A dispatched decision is in the broker's queue as soon as it is sent; one that does not reach the broker is no step.
- The developer's tools run one at a time, so that at most one dispatch awaits its acknowledgement.
- A request that fails at the broker may have been handled by the master or not; one still unhandled when the broker goes on is not handled later.
- A request in transit when its broker died is handled or lost before another broker takes the session.
- Ids are taken to be new whenever one is drawn, and a session name is not used again for another session.
- Pane escalations and permission prompts: only the flag that the pane is occupied is kept, and the master's answer to a pane escalation is arbitrary.
- Clarifications, approvals, status pushes, proposals, the registry's session states and its persisted budget.
- The cache that answers a repeated AskUserQuestion hook, and cancelling an answer backstop: a repeated hook or a late backstop is one more input.
- All transcript reads of one job segment see the same transcript.
- The text of prompts, answers, escalations and log rows, and calls to models, panes, git, SQLite and sockets; files on disk (the queue is saved with every change).
- Parsing source files (decorators, docstrings, bases, annotations, imports, merged overloads): `IndexModel.World` takes the extraction as given, and `CallAttribution` takes a tree.
- Several functions declared in one module-level `const` statement: each is credited with the calls of the whole statement.
- Floating-point rounding of scores, and computing unit vectors.
- Rendering the context block: its length is a parameter of `Retrieval.Fit`.
- The headline and status line of an outcome; listing repository files; the import lines of a context.
