# Verification of the fleet task protocol

This project models the two halves of the fleet system and proves what their documentation and their callers
rely on.

* The **server** (`fleet_api`) keeps tasks and one append-only event log per task. Eight service calls change
  them: create, cancel, retask, redirect, pause, resume, inject context, and the executor's own posts. Two read
  paths go over the same tables: the live event stream and the paged listings.
* The **sidecar** (`fleet_agent`) polls for tasks and control signals, runs one executor per task, and streams
  the executor's events back over a lossy channel.

`dafny verify dfyconfig.toml` checks everything.

## How the model is laid out

| modules | what they hold |
|---|---|
| `TaskStateMachine`, `TaskRecords` | states and transitions; rows, events, logs, and what a log tells |
| `TaskDecisions` | what each of the eight calls commits and replies, as a function of the committed store |
| `TaskSession` | the same calls as imperative code: loaded task objects, a working copy, commit and rollback |
| `Outcomes` | what each call does, seen from outside: when it succeeds, what the store then holds, how it is refused |
| `TaskInvariants`, `Lineage`, `TaskHistory`, `Creation`, `Results`, `Supersession`, `Pausing`, `ContextOrder` | what every reachable store and every run of calls satisfies |
| `Scenarios` | short runs from an empty database that break a promise of the documentation |
| `EventStream`, `EventDelivery`, `StreamEnds`, `EventWire` | the stream generator, its delivery guarantees, what ends it, its wire format |
| `KeysetPages`, `Listings` | pages cut by key, for any order; the task and the workflow listing |
| `Signals`, `SignalFold` | the shared signal state and its handlers; what repeated polling amounts to |
| `Executor`, `Dispatcher`, `Sidecar`, `SidecarFold`, `ExecutorRuns` | one execution; which polled tasks are started; all of it interleaved; what one task sees and emits |
| `Streamer` | numbering and retries of posted events, and what the server records of them |

Code that updates objects in place is modelled by classes (`TaskObject`, `Session`, the two `Generator`s,
`SignalPoller`, `TaskPoller`, `Client`) whose methods are proved to produce exactly the value of a specification
function. The laws are proved about those functions, over all histories or interleavings.

## How time, storage and concurrency are read

* A service call is one atomic step on the committed store. Inside a call the session has a working copy; the
  operations change it first and may then give up, and only a commit publishes it.
* The clock never runs backwards. A call reads it at most twice (`Moment.first`, `Moment.second`); the application
  clock and the database's default timestamps are the same clock.
* Generated ids are arbitrary. An id that is already taken violates the primary key and the call fails
  (`DuplicateId`); a created task that names no registered agent violates a foreign key (`UnknownAgent`).
* JSON objects are maps. Equal hashes of canonical JSON are equal inputs, cursors are the keys they encode, schema
  validity and the collation of ids are parameters.
* One round of the event stream, fetch and status check together, is atomic. Appends, rounds, arrivals, broken
  connections and reconnects interleave freely.
* In the sidecar each stretch of code between two awaits is one step. Setting a pause event wakes all current
  waiters, and a later clear does not put them back to sleep. Handling a signal and remembering its key are two
  steps with anything in between. A missing signal payload is the empty one.

## What the code does that its documentation does not say

* `get_max_context_sequence` is documented to return the highest context number; the code returns the number of the
  newest injection. Unless two injections share an instant, the numbers increase exactly if the executor numbers its
  own above all earlier ones (`ContextOrder.ContextNumbersIncreaseIff`). `Scenarios.ExecutorBreaksNumbering` and
  `Scenarios.TieBreaksNumbering` are runs in which they fall.
* The streamer numbers its initial `running` event 1, which `created` already holds, so the server never records it
  (`Streamer.FirstPostIsRefused`). A task starts exactly by an accepted `running` event that was given to a stream
  (`Streamer.StartedIffGivenRunning`). The acknowledgement of a control signal is numbered 2 and recorded only while
  the log holds nothing but `created` (`Streamer.AcknowledgementIsRecordedIff`). Delivery is therefore not claimed;
  what is proved is recording at most once and in order.
* Retask and redirect document a replay by idempotency key, but look at the status before the key: repeating one is
  always refused (`TaskHistory.RepeatedForkIsRefused`). Replay is proved for creation.
* A signal polled before its task is registered is remembered as processed without any effect. A signal polled later
  takes effect exactly if its key was not polled before (`SignalFold.EarlyKeysAreSpent`), where only what was polled
  since the task last left counts, and what was being acknowledged then (`SignalFold.LeavingRenewsKeys`).
* `execute` is documented to raise `TaskRedirected` on a redirect; it catches that error and ends without a further
  event (`Executor.Generator.Stop`).
* The executor may post `retasked` and `redirected` itself. A superseded task has a child exactly if it did not
  (`Supersession.ChildIffNotDeclared`); `Scenarios.DeclaredHasNoChild` is a run that leaves one without.
* The executor may pause and resume a task itself, which does not maintain `paused_at`. That field tells whether a
  task is paused exactly if it does not (`Pausing.PausedAtTellsIff`); `Scenarios.FreshPauseTimesOut` is a run in which
  a fresh pause times out.

## Model

| member | source | states |
|---|---|---|
| `TaskStateMachine.ParseStatus` | src/fleet_api/tasks/state_machine.py:7-17 | the lookup by value finds the state with that name, and fails only when no state has it |
| `TaskStateMachine.ParseStatusName` | src/fleet_api/tasks/state_machine.py:7-17 | every state is found again by its own name |
| `TaskStateMachine.TransitionSpendsBudget` | src/fleet_api/tasks/state_machine.py:28-45 | every valid transition other than between running and paused uses up at least one of three units; those two use none |
| `TaskRecords.LegalIncreases` | src/fleet_api/tasks/lifecycle.py:95-99 | sequence numbers of a legal log strictly increase from 1 |
| `TaskRecords.MaxSequenceIsGreatest` | src/fleet_api/tasks/sidecar.py:106-109 | `coalesce(max(sequence), 0)` is attained by an event and exceeded by none |
| `TaskRecords.LegalMax` | src/fleet_api/tasks/lifecycle.py:95-99 | the newest event of a legal log carries the greatest number |
| `TaskRecords.LegalSpendsBudget` | src/fleet_api/tasks/state_machine.py:28-45 | a legal log holds at most three changes besides pausing and resuming |
| `TaskSession.TaskObject.TransitionTo` | src/fleet_api/tasks/models.py:92-109 | the object changes status, and is stamped when the new one is terminal, exactly if the transition is valid; otherwise nothing changes |
| `TaskSession.Session.Rollback` | src/fleet_api/database/connection.py:18-21 | a session that ends without commit leaves the working copy equal to the committed store |
| `TaskSession.Session.FindByKey` | src/fleet_api/tasks/crud.py:40-70 | finds the task holding the key when its input is equal, reports a mismatch when it differs |
| `TaskSession.Session.CreateTask` | src/fleet_api/tasks/crud.py:137-206 | the imperative creation commits and replies exactly what `DecideCreate` decides, on every path |
| `TaskSession.Session.CancelTask` | src/fleet_api/tasks/lifecycle.py:30-119 | commits and replies exactly what `DecideCancel` decides: the cancelled row together with its event, or nothing |
| `TaskSession.Session.RetaskTask` | src/fleet_api/tasks/lifecycle.py:127-309 | commits and replies exactly what `DecideRetask` decides, although it moves the loaded task before it may still fail on the priority |
| `TaskSession.Session.RedirectTask` | src/fleet_api/tasks/lifecycle.py:343-537 | commits and replies exactly what `DecideRedirect` decides, although it moves the loaded task before it may still fail |
| `TaskSession.Session.Supersede` | src/fleet_api/tasks/lifecycle.py:225-309 | the common end of retask and redirect: parent moved, child and both events inserted, all or none |
| `TaskSession.Session.PauseTask` | src/fleet_api/tasks/lifecycle.py:545-660 | commits and replies exactly what `DecidePause` decides: status, `paused_at` and event together, or nothing |
| `TaskSession.Session.ExpirePause` | src/fleet_api/tasks/lifecycle.py:728-765 | an outlived pause commits one cancellation and one event |
| `TaskSession.Session.ResumeTask` | src/fleet_api/tasks/lifecycle.py:668-832 | commits and replies exactly what `DecideResume` decides, although it may raise after committing a timeout or after changing the working copy |
| `TaskSession.Session.BuildLineageChain` | src/fleet_api/tasks/lifecycle.py:312-335 | the loop returns the capped walk up the parents, root first |
| `TaskSession.Session.InjectContext` | src/fleet_api/tasks/context.py:72-199 | commits and replies exactly what `DecideInject` decides: one appended event or nothing, the row untouched |
| `TaskSession.Session.ApplyEvent` | src/fleet_api/tasks/sidecar.py:124-200 | the loaded object becomes exactly what the executor's event makes of the row, or the event is refused |
| `TaskSession.Session.ProcessSidecarEvent` | src/fleet_api/tasks/sidecar.py:50-220 | commits and replies exactly what `DecideSidecar` decides: the changed row together with the posted event, or nothing |
| `TaskSession.Session.Serve` | src/fleet_api/database/connection.py:18-21 | any call keeps the database valid; a call that raises leaves it unchanged, except a pause timeout, which commits one cancellation |
| `Outcomes.CancelOutcome` | src/fleet_api/tasks/lifecycle.py:55-119 | for a caller with the right to the task a cancel succeeds exactly if it is accepted, running or paused, and leaves it cancelled and stamped with one event that tells it; others are refused with the error that names what is missing |
| `Outcomes.PauseOutcome` | src/fleet_api/tasks/lifecycle.py:545-660 | a pause succeeds exactly for a running task, and records when and by whom it was paused |
| `Outcomes.ResumeOutcome` | src/fleet_api/tasks/lifecycle.py:668-832 | a resume needs a paused task; it cancels one paused longer than the time to live, else succeeds exactly if it names a priority or none, and sets it |
| `Outcomes.InjectOutcome` | src/fleet_api/tasks/context.py:128-180 | an injection succeeds exactly into a running or paused task under a number above that of the newest injection, and is recorded with its content |
| `Outcomes.RetaskOutcome` | src/fleet_api/tasks/lifecycle.py:160-309 | a retask needs a completed or failed task below the depth limit; unless its key is held it succeeds exactly if it names a priority or none; the new task inherits all but input, priority and key, its input being the old overlaid with the additional one |
| `Outcomes.RedirectOutcome` | src/fleet_api/tasks/lifecycle.py:380-537 | a redirect needs a running or paused task below the depth limit; otherwise as a retask, the new task having the new input |
| `Outcomes.KeyAnswers` | src/fleet_api/tasks/crud.py:40-70 | a key answers exactly if a task holds it: with that task when the input is the same, with a mismatch when it is not |
| `Outcomes.PostOutcome` | src/fleet_api/tasks/sidecar.py:76-214 | a post succeeds exactly if its kind is known, its poster is the executor, its number exceeds every event's, and the task's state allows it; it is appended unchanged, and state, result and timestamps follow it |
| `Outcomes.CreateOutcome` | src/fleet_api/tasks/crud.py:154-206 | without a held key a creation succeeds exactly in a known workflow, for registered agents, a working executor, a valid input and a priority, and inserts the task the call describes |
| `Creation.CreatedAsAsked` | src/fleet_api/tasks/crud.py:160-193 | in every later store a created task belongs to its creator and is executed by the agent the call named, or by the workflow's owner; workflow, input, time limit, key and first priority are as asked |
| `Creation.OnlyItsExecutorPosts` | src/fleet_api/tasks/sidecar.py:95-104 | every accepted executor post to a created task comes from that agent |
| `Results.LogTellsResult` | src/fleet_api/tasks/sidecar.py:149-184 | in every reachable store a task's result is the `result` of its `completed` event, or the error code and message of its `failed` event, or nothing without either |
| `TaskInvariants.CreateLawful` | src/fleet_api/tasks/crud.py:137-206 | a creation inserts a root with an opening log and a key nobody holds, or nothing |
| `TaskInvariants.CancelLawful` | src/fleet_api/tasks/lifecycle.py:82-119 | a cancel appends a newer event that tells the row's new status by a valid transition |
| `TaskInvariants.ForkLawful` | src/fleet_api/tasks/lifecycle.py:225-302 | a retask or redirect supersedes a live task and inserts one child a level deeper that inherits its fields and has the prescribed input |
| `TaskInvariants.ResumeLawful` | src/fleet_api/tasks/lifecycle.py:668-832 | a resume, or the timeout it finds, is a lawful change with a matching event |
| `TaskInvariants.ExecutorEventLawful` | src/fleet_api/tasks/sidecar.py:124-200 | whatever the executor posts, the row's new status is what the event tells, `started_at` is set once, timestamps stay ordered |
| `TaskInvariants.DecisionLawful` | src/fleet_api/tasks/lifecycle.py:30-832 | every decision of every call is lawful |
| `TaskInvariants.ForkKeeps` | src/fleet_api/tasks/lifecycle.py:225-302 | a fork keeps the store valid: only children stay only children, keys stay unique, depth stays bounded |
| `TaskInvariants.ServeKeeps` | src/fleet_api/tasks/models.py:92-109 | serving any call keeps all store invariants |
| `TaskInvariants.ReachableValid` | src/fleet_api/tasks/lifecycle.py:82-113 | the store after any history of calls satisfies all store invariants |
| `TaskHistory.LogTellsStatus` | src/fleet_api/tasks/lifecycle.py:82-113 | in every reachable store a task's log opens with `created` at 1, its numbers strictly increase, its replay through valid transitions is the task's status, and at most three changes are not between running and paused |
| `TaskHistory.HistoryEvolves` | src/fleet_api/tasks/models.py:92-109 | over any stretch of a history no task or event is lost, `started_at` is written once, terminal and superseded tasks stay so |
| `TaskHistory.LineageHasOneLiveHead` | src/fleet_api/tasks/lifecycle.py:188-271 | in every reachable store a task has at most one child, a parent is superseded for good, a lineage has at most D + 1 tasks and at most one live one |
| `Lineage.PathLinksRootToTask` | src/fleet_api/tasks/lifecycle.py:228-266 | the path of a task starts at its root, is linked by parents, has depths 0, 1, 2, ... and no repeats |
| `Lineage.OneLiveHead` | src/fleet_api/tasks/lifecycle.py:410-495 | two tasks of one lineage that are not superseded are the same |
| `Lineage.LineageIsBounded` | src/fleet_api/tasks/lifecycle.py:199-208 | a lineage has at most D + 1 tasks |
| `Lineage.LineageInherits` | src/fleet_api/tasks/lifecycle.py:254-270 | a task shares its root's fields, and its input is the nearest redirect's input, or the root's, overridden left to right by the later retasks |
| `Lineage.HeadIsUnique` | src/fleet_api/tasks/lifecycle.py:188-271 | a lineage has one childless task |
| `Lineage.OnlyHeadMoves` | src/fleet_api/tasks/state_machine.py:28-45 | every task of a lineage but its head is superseded |
| `Lineage.ChainIsPath` | src/fleet_api/tasks/lifecycle.py:312-335 | capping the walk at the task's depth never cuts the chain short: it is the whole path |
| `TaskHistory.LineageChainIsWhole` | src/fleet_api/tasks/lifecycle.py:312-335 | on any stored task of any reachable store: length depth + 1, root first, task last, linked by parents, no repeats, inherited fields, prescribed input |
| `TaskHistory.WorkDecreasesMeasure` | src/fleet_api/tasks/lifecycle.py:421-430 | every retask, redirect and transition other than a swap strictly decreases the measure of its lineage; no call increases it |
| `TaskHistory.WorkIsBounded` | src/fleet_api/tasks/lifecycle.py:199-208 | in any history a lineage sees at most 4 D + 3 such moves |
| `TaskHistory.TimestampsAreOrdered` | src/fleet_api/tasks/responses.py:98-102 | `completed_at` is set exactly for terminal tasks, `started_at` for those that ran and never changes, created <= started <= completed, and a completed task's duration is the whole seconds between them, not negative |
| `TaskHistory.CreateReplays` | src/fleet_api/tasks/crud.py:154-158 | of two successful creations with one key the later returns the same task, changes nothing and was given the same input |
| `TaskHistory.HeldKeyReplays` | src/fleet_api/tasks/crud.py:40-70 | a creation with a held key succeeds only as a replay of the holder |
| `TaskHistory.KeysStayUnique` | src/fleet_api/tasks/lifecycle.py:216-220 | no two tasks of a reachable store share a key |
| `TaskHistory.RepeatedForkIsRefused` | src/fleet_api/tasks/lifecycle.py:188-220 | after a retask or redirect of a task, every later one of it is refused whatever its key |
| `Pausing.ResumeUndoesPause` | src/fleet_api/tasks/lifecycle.py:600-823 | a resume of a task that stayed paused, whatever was served in between, times out exactly past the time to live; within it the row is again what it was before the pause, but for the priority asked for |
| `Pausing.SameStatusSameRow` | src/fleet_api/tasks/models.py:92-109 | a call that leaves a task's status leaves its whole row |
| `Pausing.PausedAtTellsIff` | src/fleet_api/tasks/sidecar.py:124-147 | throughout a history `paused_at` is set exactly while a task is paused, cancelled and redirected tasks aside, if and only if its executor never itself pauses or resumes it |
| `Scenarios.FreshPauseTimesOut` | src/fleet_api/tasks/lifecycle.py:728-734 | a run in which an executor's resume and pause leave a stale `paused_at`, and a resume at the moment of the second pause times out |
| `Supersession.CallSupersedes` | src/fleet_api/tasks/sidecar.py:124-147 | a task becomes superseded only by a fork or by its executor's accepted declaration, never by both |
| `Supersession.ChildIffNotDeclared` | src/fleet_api/tasks/sidecar.py:124-147 | a superseded task has a child if and only if its executor did not itself declare it retasked or redirected; one that is not superseded has neither |
| `Scenarios.DeclaredHasNoChild` | src/fleet_api/tasks/sidecar.py:124-147 | a run from an empty database that leaves a redirected task without a child |
| `TaskHistory.AcceptedPostAppends` | src/fleet_api/tasks/sidecar.py:106-119 | an accepted post is numbered above the whole log and appended to it |
| `TaskHistory.AcceptedPostsIncrease` | src/fleet_api/tasks/sidecar.py:202-209 | of two accepted posts to one task the later has the greater number |
| `TaskHistory.TimeoutLeavesOneEvent` | src/fleet_api/tasks/lifecycle.py:728-765 | a pause timeout changes one status, one timestamp and one log, by one event |
| `TaskHistory.RefusalLeavesNoTrace` | src/fleet_api/database/connection.py:18-21 | a call that raises leaves the committed store unchanged, except for the pause timeout |
| `ContextOrder.ContextNumbersIncreaseIff` | src/fleet_api/tasks/context.py:36-59 | if no two injections of a task were created at one instant, their numbers strictly increase along its log exactly if every injection its executor posts is numbered above all earlier ones |
| `ContextOrder.LastIsHighest` | src/fleet_api/tasks/context.py:144-155 | while context numbers and creation times increase along a log, a number above the one compared with is above all |
| `ContextOrder.DecimalIsInt` | src/fleet_api/tasks/context.py:59 | a context number given as decimal text is that number |
| `ContextOrder.InjectionHasItsCall` | src/fleet_api/tasks/sidecar.py:44-119 | an injection in a log comes from an accepted call numbered above the last, or is the executor's accepted post |
| `Scenarios.ExecutorBreaksNumbering` | src/fleet_api/tasks/context.py:36-59 | a run from an empty database in which the executor injects without a number and injection 1 is accepted after injection 5 |
| `Scenarios.TieBreaksNumbering` | src/fleet_api/tasks/context.py:47-56 | a run without executor injections in which 6 is accepted after 5 and 7 were created at one instant |
| `EventStream.Generator.Yield` | src/fleet_api/tasks/sse.py:101-118 | sends the fetched events in order up to the first that ends the stream, and remembers the last number sent |
| `EventStream.Generator.Replay` | src/fleet_api/tasks/sse.py:98-123 | phase 1 does exactly one replaying round |
| `EventStream.Generator.Poll` | src/fleet_api/tasks/sse.py:125-164 | a turn of phase 2 does exactly one polling round, keepalive included |
| `EventDelivery.SentIsPrefix` | src/fleet_api/tasks/sse.py:101-118 | what a round sends is a prefix of the unsent events, cut only right after an event that ends the stream |
| `EventDelivery.RunContinues` | src/fleet_api/tasks/sse.py:57-70 | after any initial run of the events after an id, the rest is what follows the run's last id |
| `EventDelivery.AdvanceSends` | src/fleet_api/tasks/sse.py:98-164 | a round adds a prefix of the unsent events and at most one keepalive, which repeats the last id |
| `EventDelivery.ClosesOnlyWhenDone` | src/fleet_api/tasks/sse.py:98-164 | a stream closes only after an event that ends it, or when the task is terminal and everything was sent |
| `EventDelivery.TerminalStreamCloses` | src/fleet_api/tasks/sse.py:120-156 | a stream over a terminal task at rest closes within two rounds |
| `StreamEnds.PostEndsIff` | src/fleet_api/tasks/sse.py:112-117 | an accepted executor post ends the stream exactly if it moves the task to a terminal state |
| `StreamEnds.CallersEndNothing` | src/fleet_api/tasks/sse.py:112-117 | no event of a caller's operation ends the stream |
| `StreamEnds.EndedIsOver` | src/fleet_api/tasks/sse.py:112-117 | in every reachable store a log with an event that ends the stream belongs to a task in a terminal state |
| `StreamEnds.ClosesExactlyWhenOver` | src/fleet_api/tasks/sse.py:98-156 | over a reachable store a stream closes only when the task is in a terminal state, and then within two rounds |
| `StreamEnds.FetchIsExact` | src/fleet_api/tasks/sse.py:57-70 | the fetch returns exactly the events numbered above the last one sent |
| `StreamEnds.IdleStreamBeats` | src/fleet_api/tasks/sse.py:157-164 | while nothing happens to a task at work, one keepalive with the last id is sent per heartbeat interval, and nothing else |
| `EventDelivery.RunIsConsistent` | src/fleet_api/tasks/sse.py:85-164 | in every interleaving with appends and reconnects client and server agree on how far the client is |
| `EventDelivery.ReceivedIsRunOfLog` | src/fleet_api/tasks/sse.py:85-164 | the events received over any number of connections are a gap-free, duplicate-free, in-order run of the log after the first id |
| `EventDelivery.ClosedIsComplete` | src/fleet_api/tasks/sse.py:120-156 | once the server has closed, the client has or will get everything up to an ending event or the end of a terminal task's log |
| `EventDelivery.FinishedIsComplete` | src/fleet_api/tasks/sse.py:120-156 | a client that saw the close has it all |
| `EventDelivery.HistoryGrows` | src/fleet_api/tasks/lifecycle.py:95-113 | every history of service calls changes logs and statuses as the delivery laws assume |
| `EventWire.DecimalReadsBack` | src/fleet_api/tasks/sse.py:42-54 | a number written in decimal reads back |
| `EventWire.EventLines` | src/fleet_api/tasks/sse.py:42-54 | a formatted event splits into its three field lines and an empty one, whatever follows |
| `EventWire.EventDispatches` | src/fleet_api/tasks/sse.py:42-54 | the lines of a formatted event dispatch exactly its id, type and data |
| `EventWire.StreamRoundTrip` | src/fleet_api/tasks/sse.py:42-54 | parsing the concatenated events by sections 9.2.5 and 9.2.6 of the WHATWG HTML Standard returns exactly them, in order |
| `KeysetPages.OrderedIsListing` | src/fleet_api/tasks/crud.py:288-292 | there is one way to list a set of rows in a strict total order |
| `KeysetPages.PageTakesFirst` | src/fleet_api/tasks/crud.py:340-366 | a page shows the first rows after the cursor; no next cursor means none is left, otherwise the cursor leaves exactly the rest |
| `KeysetPages.PageCounts` | src/fleet_api/tasks/crud.py:335-366 | for any page size a page is full if it can be, tells truly whether rows are left, and counts all matching rows |
| `KeysetPages.PagesRefineListing` | src/fleet_api/tasks/crud.py:340-368 | following cursors with any page size ends and yields the sorted, filtered rows |
| `KeysetPages.WalkIsOrdered` | src/fleet_api/tasks/crud.py:340-368 | however rows change between pages, none appears twice and the order never breaks |
| `KeysetPages.WalkShowsMatches` | src/fleet_api/tasks/crud.py:340-368 | a walk is the concatenation of its pages, and each page shows only rows that match when it is read |
| `KeysetPages.WalkSkipsNone` | src/fleet_api/tasks/crud.py:340-368 | a row that matches throughout is shown by a walk that ends |
| `Listings.NewestFirstIsTotal` | src/fleet_api/tasks/crud.py:288-292 | newest first with ties by descending id is a strict total order, for any collation that is one |
| `Listings.TaskListingReplies` | src/fleet_api/tasks/crud.py:269-368 | refused exactly for an unknown workflow or an invalid filter; otherwise rows right after the cursor, with true `has_more`, cursor and total |
| `Listings.ValidFilterIff` | src/fleet_api/tasks/crud.py:292-314 | a filter is valid exactly if it names an existing state and priority, or none |
| `Listings.MatchesIff` | src/fleet_api/tasks/crud.py:286-340 | a task matches exactly if it is of the workflow, in the named state and priority, of the named caller, created within the closed interval |
| `Listings.TaskPagesListAll` | src/fleet_api/tasks/crud.py:269-368 | on a fixed store the pages list every matching task once, newest first, and no other |
| `Listings.StandingMatches` | src/fleet_api/tasks/crud.py:269-368 | a filter on fields that never change keeps matching along every history |
| `Listings.TaskWalkIsSound` | src/fleet_api/tasks/crud.py:269-368 | with service calls between the pages no task id appears twice, each page shows only tasks that match when it is read, and none that matched an immutable filter from the start is skipped |
| `Listings.WorkflowListingReplies` | src/fleet_api/workflows/service.py:204-283 | refused exactly for an unknown status; active workflows by default; true `has_more`, cursor and total |
| `Listings.WorkflowMatchesIff` | src/fleet_api/workflows/service.py:230-252 | a workflow matches exactly if it is in the named state, active when none is named, of the named owner, and carries the tag |
| `Listings.WorkflowPagesListAll` | src/fleet_api/workflows/service.py:204-283 | on a fixed table the pages list every matching workflow once, by id, and no other |
| `Listings.WorkflowWalkIsSound` | src/fleet_api/workflows/service.py:204-283 | with changes between the pages no workflow appears twice, each page shows only workflows that match when it is read, and none that matched throughout is skipped |
| `Signals.SignalPoller.RegisterTask` | src/fleet_agent/signal_state.py:50-60 | a registered task is running, not cancelled, without redirect or contexts |
| `Signals.SignalPoller.UnregisterTask` | src/fleet_agent/signal_state.py:62-78 | all entries of the task go, and the remembered keys with its prefix |
| `Signals.SignalPoller.PopContext` | src/fleet_agent/signal_state.py:93-101 | hands over the queued contexts and empties the queue |
| `Signals.SignalPoller.WaitIfPaused` | src/fleet_agent/signal_state.py:103-110 | blocks exactly the executor of a paused task |
| `Signals.SignalPoller.HandleSignal` | src/fleet_agent/signals.py:93-140 | each handler changes the state as its signal says, and nothing for an unregistered task |
| `Signals.SignalPoller.HandleList` | src/fleet_agent/signals.py:78-82 | the loop over one polled list processes each signal once per key |
| `Signals.KeyTells` | src/fleet_agent/signals.py:79 | for ids without a colon a key determines task, kind and timestamp |
| `Signals.PruneIsExact` | src/fleet_agent/signal_state.py:74-78 | pruning by prefix removes the keys of that task and of no other |
| `SignalFold.RunFolds` | src/fleet_agent/signals.py:78-140 | in every interleaving a task registered throughout has the state one pass over the polled signals without repeats gives, and contexts popped then queued are those signals' contexts, once each, in order |
| `SignalFold.SteerAllMeans` | src/fleet_agent/signals.py:109-135 | one pass leaves a task paused exactly if a pause came with at most contexts after it, cancelled exactly if a cancellation or redirect came, and redirected by the last redirect |
| `SignalFold.ExtendingIsLast` | src/fleet_agent/signals.py:78-82 | polling lists each extending the last amounts to the last list |
| `SignalFold.PollingIsOnePass` | src/fleet_agent/signals.py:78-140 | polling lists each extending the last leaves the state, and the contexts, of one fold over the last list with repeats dropped |
| `SignalFold.EarlyKeysAreSpent` | src/fleet_agent/signals.py:78-96 | after registration a signal takes effect exactly if its key was not polled before: state and contexts are those of one pass over the later signals with new keys |
| `SignalFold.LeavingRenewsKeys` | src/fleet_agent/signal_state.py:62-78 | unregistering makes the task's keys new again, except that of a signal still being acknowledged |
| `Executor.Generator.Start` | src/fleet_agent/executor.py:97-117 | a missing handler is reported by one failure event; otherwise the loop begins at its top |
| `Executor.Generator.CheckSignals` | src/fleet_agent/executor.py:218-230 | redirect before cancellation before pause before contexts, as the top of the loop |
| `Executor.Generator.TakeContexts` | src/fleet_agent/executor.py:229-243 | takes all pending contexts and offers the first |
| `Executor.Generator.TakeLine` | src/fleet_agent/executor.py:245-264 | a line is emitted with the next number, skipped, or ends the loop |
| `Executor.Generator.Stop` | src/fleet_agent/executor.py:131-173 | each way of stopping emits its own last event or none |
| `Executor.Generator.Exit` | src/fleet_agent/executor.py:175-195 | a failing exit code emits one failure event, the next in number; a clean exit none |
| `Dispatcher.AdmitsFirstThatFit` | src/fleet_agent/poller.py:131-144 | a round starts exactly the first new ids in server order that fit |
| `Dispatcher.NewIdsAreNew` | src/fleet_agent/poller.py:131-133 | the new ids are those polled and not in flight, each once |
| `Dispatcher.NewIdsInOrder` | src/fleet_agent/poller.py:131-144 | new ids come in the order in which the server first lists them |
| `Dispatcher.RoundFits` | src/fleet_agent/poller.py:134-140 | nothing is started twice, and what is started stays within the limit |
| `Dispatcher.RoundFills` | src/fleet_agent/poller.py:131-144 | afterwards all slots are taken or every polled task is in flight |
| `Dispatcher.TaskPoller.PollRound` | src/fleet_agent/poller.py:131-150 | the loop starts the admitted ids, takes their slots and registers them for signals |
| `Dispatcher.TaskPoller.Release` | src/fleet_agent/poller.py:163-187 | a dispatch that ends in any way frees its slot and its signal state |
| `Sidecar.MovedKeeps` | src/fleet_agent/executor.py:213-264 | every step of one execution keeps its facts about signals, numbering and stopping |
| `Sidecar.HandledOk` | src/fleet_agent/signals.py:109-140 | handling a signal wakes the waiting executor whenever it asks it to stop |
| `Sidecar.AlwaysSound` | src/fleet_agent/poller.py:123-187 | every interleaving of poller, handlers, executors and ends of dispatches keeps the world sound |
| `Sidecar.NoLostWakeup` | src/fleet_agent/signals.py:109-135 | no executor stays blocked on a pause while its cancel flag or redirect is set |
| `Sidecar.ExecutorStops` | src/fleet_agent/executor.py:213-264 | once asked to stop at most one more context pop and one more read; events numbered 1, 2, 3, ...; a cancellation is reported only after a cancel signal |
| `ExecutorRuns.OutputIsEmitted` | src/fleet_agent/executor.py:245-264 | from the round that starts a task until its dispatch ends, in every interleaving, the executor has emitted exactly the events its handler printed, once each and in order |
| `ExecutorRuns.StopsIff` | src/fleet_agent/executor.py:218-226 | at the top of its loop an executor stops exactly if it is redirected or cancelled |
| `ExecutorRuns.StopsForItsReason` | src/fleet_agent/executor.py:218-226 | it stops for a redirect if there is one, else for a cancellation, and for a timeout only when that expires |
| `ExecutorRuns.EndsWithItsLastWords` | src/fleet_agent/executor.py:97-195 | whatever follows, the last emission is the notice after a cancellation, or the failure after a timeout, a failing exit or a missing handler; a redirect or a clean exit adds none |
| `Sidecar.DispatchIsBounded` | src/fleet_agent/poller.py:123-187 | in-flight ids, registered ids and live dispatches are one set within the limit, and a round fills the slots or starts everything |
| `SidecarFold.NextProjects` | src/fleet_agent/signals.py:78-140 | every step of the whole sidecar is, on the signal state, a run of the signal steps that the folding laws are about |
| `SidecarFold.MoveGives` | src/fleet_agent/executor.py:229-243 | an executor gives out the contexts it takes, each once and in order, over every step |
| `SidecarFold.ContextsAreEmitted` | src/fleet_agent/executor.py:213-264 | from the round that starts a task until its dispatch ends, in every interleaving: contexts emitted, held and queued are those of the signals handled since with new keys, once each, in order, and its control state is their fold |
| `Streamer.PostEvent` | src/fleet_agent/streamer.py:91-150 | posts one event one to five times, again only after a refused connection or a status of 500 or more, and raises on any other error |
| `Streamer.Stream` | src/fleet_agent/streamer.py:65-89 | posts its `running` event, then each event in turn renumbered from 2, until an uncaught error or the end of the source, whose own error it raises |
| `Streamer.TurnsAreDetermined` | src/fleet_agent/streamer.py:105-142 | the outcomes of the posts determine how often each event is tried |
| `Streamer.WireIsOrdered` | src/fleet_agent/streamer.py:71-89 | posts carry events of the stream under their place as number, in order |
| `Streamer.WireHasBlocks` | src/fleet_agent/streamer.py:71-142 | the posts of one event are one block as long as its tries |
| `Streamer.WireCarriesEvents` | src/fleet_agent/streamer.py:71-89 | each post is the streamer's `running` event under 1 or an event of the executor as emitted, under the number after its place |
| `Streamer.TriedIff` | src/fleet_agent/streamer.py:105-142 | at most five posts of an event, each but the last met with no connection or an answer of 500 or more, the last with something else or the fifth |
| `Streamer.RecordedOnceInOrder` | src/fleet_agent/streamer.py:71-142 | under any loss, delay, repetition or reordering, with other calls interleaved, the log holds each event of a stream at most once and in generation order |
| `Streamer.FirstPostIsRefused` | src/fleet_agent/streamer.py:71-80 | the streamer's own `running` event is never recorded |
| `Streamer.OnlyRunningStarts` | src/fleet_api/tasks/sidecar.py:146-147 | only an accepted post of a `running` status sets `started_at` |
| `Streamer.StartedIffGivenRunning` | src/fleet_agent/streamer.py:71-89 | a task has started if and only if a `running` post numbered above 1 was accepted for it |
| `Streamer.WithoutStatusNeverRuns` | src/fleet_agent/streamer.py:71-89 | a task whose streams were given no status event never runs, pauses, completes or is redirected |
| `Streamer.AcknowledgementIsRecordedIff` | src/fleet_agent/signals.py:142-150 | an acknowledgement is recorded exactly if its poster is the executor, the log holds only `created`, and its status may follow `accepted` |

## Left out

- HTTP routes, links, response bodies, error texts, the manifest and health pages: finite or string-building content.
- Signing, hashing, base64, JSON text, ISO dates and JSON schema: library calls, taken as parameters or equality.
- Progress, quality and other metadata, and `callback_url`: a JSON column changed in place, whose persistence depends on change tracking outside this code.
- Callbacks: any later executor event on a terminal task schedules another one, so there is nothing to claim at most once.
- Fields of events that only inform (`paused_state`, paused durations, refinement messages, the priority in `resume_requested`).
- The constraints, message and metadata of a retask's refinement, and `inherit_progress`; the model keeps the additional input.
- Concurrent database transactions: no isolation level is stated and no lock taken, so the store laws are about serial histories.
- Phase 1 of the event stream reads the status of a task object that may be cached; the model reads the stored status.
- The `retry` field and the byte order mark of the event stream format, which the server never sends.
- `get_pending_signals`: it names injections `context_injected` where the client expects `context_injection`, so the sidecar model starts from typed signal lists.
- `get_pending_tasks`: the order of the polled list is arbitrary in the model.
- Agent registration, heartbeats, workflow creation and update, backoff arithmetic: easy members.
- Subprocess control and process signals: a line, the end of output, an exit code and the end of a stopped process are steps of the environment.
- An execution timeout that expires while the event consumer holds the generator, in place of the generator's own wait.
- A pause event replaced while an executor waits on it: a task is registered only when it is not in flight.
- Retry delays of the streamer, and events whose data is null, which the route refuses before any service call.
- DecideInject: `int()` is modelled for ASCII digits and spaces; a context number written in other digits reads as no number.
- BuildLineageChain: reverses the collected ids by a function on values, not in place.
