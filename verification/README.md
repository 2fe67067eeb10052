# Vibing: verified model

Vibing is a control plane for coding agents. Runtimes (one host worker, one agent per devcontainer)
report `RuntimeEvent`s over a WebSocket; the control plane logs each event, projects it into
relational read models, commits, and tells browsers which scopes to refetch. Users act through HTTP
routes that guard, sometimes write, and send commands to the runtimes.

This project models that system in Dafny and proves what each step keeps and what holds over every
run. `dafny verify dfyconfig.toml` checks all of it.

## How it is laid out

| file | what it models |
|---|---|
| `Vocabulary`, `Tables` | statuses, events, commands; six tables with foreign keys, repository reads and writes, DELETE with CASCADE and SET NULL |
| `Reducer`, `Intake`, `EventEffects` | event to writes and invalidations; record, project, commit, publish; what each type of event comes to |
| `Routes` | the mutating routes as functions, and runs: any sequence of route calls and intakes |
| `Store`, `Handlers` | the same as the program does it: one connection whose tables are rewritten in place, and the handlers over it, each proved to be the function and to answer, write and send what is said outright |
| `Coherence`, `Conservation`, `SummaryIndex`, `ReadModel` | what every reachable database satisfies |
| `Commute`, `Interventions` | independent events; user input and approval decisions end to end |
| `Registry`, `Serve`, `SlotOwnership`, `TranscriptRpc` | runtime connections: slots, the serve loop, transcript requests |
| `AgentHandler`, `RunConservation`, `AgentCommands`, `CommandQueue`, `Reconnect`, `Lifecycle` | the runtimes' side; `AgentCommands` is the agent's handler as it rewrites its dictionaries |
| `ActiveSession`, `StartStop`, `RunningRule` | one active session per devcontainer; active sessions only in running ones |
| `Broadcaster`, `Coordinator`, `NoMissedInvalidation` | from a commit to the browser's callbacks |

State the program updates in place is a class whose methods are proved against functions on values;
the lemmas are about those functions. Concurrent parts are state machines whose steps are the code
between two awaits. A step that cannot be taken changes nothing, so every sequence of steps is a run;
beside what holds over all of them, each machine has lemmas that follow one exchange to its end.

## Assumptions

- Generated UUIDs are fresh; ids and clock readings are inputs of a step. Where a property needs it,
  no event names an approval before its id is generated.
- Payload fields are strings or null, and `requested_action` is a string.
- A route call and an intake are one atomic step each.
- `get_by_approval` has no ORDER BY: it may return any linked row. The row it returns is an input of
  the step, constrained only to be one that SQLite could return.
- Tables are maps by primary key, `session_summaries` by its UNIQUE session column; the log is kept
  in insertion order.
- Subscribing to the event stream and the browser's `open` event are one step. `EventSource` states
  follow section 9.2 of the WHATWG HTML Living Standard.
- The backoff is over real numbers, with factor at least 1 and non-negative delays.
- An emission by a runtime happens or raises; one that raises has sent nothing. Start and resume
  commands carry a prompt.
- A connection's end cancels the command being handled, except that a stop waiting for its run's task
  swallows the cancellation and its consumer goes on with the commands already queued
  (`command_handler.py:153-156`); the command queue has that step.
- A page's callbacks do not throw; one that did would keep the later callbacks of its scope from that
  run, since `coordinator.ts:29-37` swallows the error.
- Where it is said, no two terminal events of a session are logged at the same clock reading.

## What turned out not to hold

- ADR-0002 says all read-model state projects from the event stream, with no exceptions. The code,
  which is followed, has three. A resume sets the session to `starting`
  (`agent_sessions.py:253-255`), and PATCH sets a devcontainer's status (`devcontainers.py:79-87`).
  And a delete can take the last event about a row that stays, which keeps the status it gave. A
  devcontainer's delete takes an event that carries its id and another's session; a session's delete
  takes a lifecycle event that carries the session's id, or a resolution of another session's
  approval that does. `ReadModel.StepProjectsLogExactly` proves that a step breaks the rule in
  exactly these ways, `ReadModel.MisaddressedWordIsLost` shows one of the third kind. (Marking inbox
  items read or resolved is a write of the routes too; the ADR allows for it.)
- The delay after k failed connects is initial * factor^(k-1), capped, only until a connect first
  succeeds: the end of a session already takes the first step of the backoff, so failures after it
  wait one step longer. `Reconnect.CountingFromTheLastSuccess` says exactly when the formula holds;
  `Reconnect.RuntimeChannelClient.Run` proves the one that always does.
- A stop can leave a run of its session waiting even if no session is ever started while it has a
  task entry: the done callback of an earlier run unfiles the later run's task.
  `RunConservation.UnfiledStartsAreNotEnough` is the schedule; `StopLeavesExactlyStrays` says exactly
  when a stop leaves a run, and `CleanStartsMakeStopsClear` which starts rule it out.
- With resumes a devcontainer can have two active sessions: a stop crosses the run's own end, the
  session is resumed before the stop is answered, the answer puts it to rest, another session
  starts, and the resumed run reports in (`ActiveSession.LateStopOfAResumedSession`).
  `ActiveSession.OneActiveThroughoutExactly` says exactly which events break the rule,
  `StartStop.RuleThroughoutExactly` the same of the composed system, and
  `StartStop.AtMostOneActiveSession` that resuming only quiet sessions keeps it.
- The summary table stops being an index of the log when a devcontainer is deleted while another's
  session was last ended by an event that names it, and only then
  (`SummaryIndex.IndexedThroughoutExactly`).
- `CONTEXT.md` says a session can only be starting or running while its devcontainer is running.
  Starts and resumes keep that; a `devcontainer_stopped` event beside such a session
  (`RunningRule.StoppedUnderSession`), a PATCH, or a late session event does not.
  `RunningRule.StepBreaksExactly` lists the ways.
- A run of the agent need not end in an event or a stop: a wait for the process that raises, as when
  the prompt is too long for the operating system's argument list, ends it untold
  (`RunConservation.CrashEndsUntold`, `RunsEndOneWay`); starts are completed, failed, cancelled or in
  flight exactly if nothing raised (`NothingRaisedExactly`).
- A decision on an approval need not stand. While the approval is pending the route accepts both
  decisions, and the answer that is taken in later overturns the earlier one
  (`Interventions.CrossedDecisions`). `Interventions.DecisionStandsExactly` says exactly when one stands.
- A devcontainer can be left starting or stopping: the handler emits the pre-event, and the tool raises
  or the connection is lost before the end is told. Neither lifecycle route takes it any further then
  (`Lifecycle.CutStartSticks`). `Lifecycle.StatusSettlesExactly` says exactly when.

## Model

| member | source | states |
|---|---|---|
| `Tables.DeleteKeepsForeignKeys` | src/vibing_api/core/schema.py:28-88 | a DELETE with its CASCADE and SET NULL takes the given rows, keeps every foreign key and leaves only rows the database had, links possibly nulled |
| `Tables.DeleteIsLeast` | src/vibing_api/core/schema.py:28-88 | no key-intact remnant without the deleted rows keeps a row or a link that the DELETE loses: the cascades delete no more than they must |
| `Reducer.InvalidationsCoverProjection` | src/vibing_api/core/reducer.py:130-232 | for every event and database, each table the projection changes has its scope announced (summaries under agent_sessions), no scope twice, and the log is untouched |
| `Reducer.InvalidationsNameChangedRows` | src/vibing_api/core/reducer.py:195-216 | the announcement of a changed devcontainer, session, summary or approval names that row or names nothing; it never names only others |
| `Reducer.InvalidationsNameInboxOwners` | src/vibing_api/core/reducer.py:218-230 | a changed inbox item is announced: an answered question by its own id, any other by the event's session or devcontainer, which a new item belongs to |
| `Intake.IntakeSucceedsExactly` | src/vibing_api/core/runtime_channel.py:129-143 | from a key-intact database an intake succeeds exactly when its ids refer to rows and it carries no bad resolution; after that the invalidations cannot fail |
| `Intake.IntakeKeepsForeignKeys` | src/vibing_api/core/runtime_channel.py:129-143 | a successful intake appends exactly the recorded event and keeps every foreign key |
| `Store.Connection.PersistRuntimeEvent` | src/vibing_api/core/runtime_channel.py:129-143 | record, project, commit, publish as statements over the connection: it goes through exactly if the ids are there and no resolution is bad; then the log has the event under its new id and time and the committed tables and every mailbox are as the intake functions say, else nothing has changed and nothing was published |
| `Store.Connection.RunProjection` | src/vibing_api/core/reducer.py:130-192 | the projection, statement by statement, is the value-level projection for whichever row the unordered lookup returns |
| `EventEffects.DevcontainerReported` | src/vibing_api/core/reducer.py:64-73 | for each of the five devcontainer reports, everything an accepted intake changes and broadcasts: that devcontainer's status |
| `EventEffects.SessionReported` | src/vibing_api/core/reducer.py:74-75 | the same for a session that has started |
| `EventEffects.ApprovalAsked` | src/vibing_api/core/reducer.py:76-82 | the same for an approval request: the session waits, a pending approval of its own devcontainer and an unread inbox row linked to it are there, three scopes are announced in order |
| `EventEffects.ApprovalDecided` | src/vibing_api/core/reducer.py:83-96 | the same for a resolution: the approval has the decision, its linked row is resolved, the session runs |
| `EventEffects.QuestionAsked` | src/vibing_api/core/reducer.py:97-101 | the same for a question: one unread inbox row with its text |
| `EventEffects.InputConfirmed` | src/vibing_api/core/reducer.py:102-103 | the same for a sent input: the item it names is resolved |
| `EventEffects.SessionEnded` | src/vibing_api/core/reducer.py:104-121 | the same for a completed or failed session: its status, an unread inbox row and the summary, both with the result or the error output |
| `EventEffects.SessionHalted` | src/vibing_api/core/reducer.py:122-126 | the same for a stopped session, which is not news for the inbox |
| `EventEffects.RefusedEvent` | src/vibing_api/core/runtime_channel.py:129-143 | a refused event changes nothing and broadcasts nothing |
| `Store.Connection.DeleteCascading` | src/vibing_api/core/schema.py:28-88 | the in-place cascade over six tables is the deletion function |
| `Store.Connection.SummariesUpsert` | src/vibing_api/repositories/summaries.py:78-119 | an existing summary keeps its id and creation time and gets everything else; a new one is the row; a summary of a missing session is refused, and no other row changes |
| `Store.Connection.InboxGetByApproval` | src/vibing_api/repositories/inbox.py:117-122 | answers with some linked row, or None only when there is none |
| `Store.Connection.InboxMarkRead` | src/vibing_api/repositories/inbox.py:133-143 | an unread item becomes read, and no other item and no other column changes; a resolved one stays resolved |
| `Store.Connection.GetActive` | src/vibing_api/repositories/agent_sessions.py:87-95 | finds an active session of the devcontainer exactly when there is one |
| `Handlers.ControlPlane.StartAgentSession` | src/vibing_api/api/routes/agent_sessions.py:178-213 | which error is answered for every state of the tables and slots, in the order of the guards; accepted, the new row is committed as starting with its prompt and one start command with that prompt goes to the agent's socket; it is the start route function and the start step of a run |
| `Handlers.ControlPlane.ResumeAgentSession` | src/vibing_api/api/routes/agent_sessions.py:221-265 | the same for resume, which sets the one row to starting itself and sends a resume command with the prompt |
| `Handlers.ControlPlane.StopAgentSession` | src/vibing_api/api/routes/agent_sessions.py:273-302 | the same for stop: accepted for an unfinished session of a connected devcontainer, it writes nothing and sends one stop command of that session |
| `Handlers.ControlPlane.SendUserInput` | src/vibing_api/api/routes/agent_sessions.py:310-352 | the same for user input: an open question of that session, one command with the item and the text |
| `Handlers.ControlPlane.ResolveApproval` | src/vibing_api/api/routes/agent_sessions.py:360-405 | the same for approval resolution: a pending approval of that session, one command with the approval and the decision |
| `Handlers.ControlPlane.DeleteAgentSession` | src/vibing_api/api/routes/agent_sessions.py:151-170 | the same for session delete: refused unless the session is finished, else exactly its row, summary, events, approvals and inbox items go |
| `Handlers.ControlPlane.DeleteDevcontainerRow` | src/vibing_api/api/routes/devcontainers.py:91-97 | the same for devcontainer delete: exactly its row, its sessions and whatever names either go |
| `Handlers.ControlPlane.StartDevcontainer` | src/vibing_api/api/routes/devcontainers.py:101-144 | accepted exactly from created, stopped or error with a worker connected; then one start command with the devcontainer's path goes to the worker's socket |
| `Handlers.ControlPlane.StopDevcontainer` | src/vibing_api/api/routes/devcontainers.py:108-144 | accepted exactly from running or error; then one stop command with the path |
| `Handlers.ControlPlane.UpdateDevcontainerRow` | src/vibing_api/api/routes/devcontainers.py:79-87 | PATCH: the given fields of that row are written and no other row changes |
| `Handlers.ControlPlane.CreateDevcontainerRow` | src/vibing_api/api/routes/devcontainers.py:30-35 | one new row, created, with the given name and path |
| `Handlers.ControlPlane.MarkInboxEventRead` | src/vibing_api/api/routes/inbox.py:60-66 | an unread item becomes read, any other stays as it is; not found otherwise |
| `Handlers.ControlPlane.ResolveInboxEvent` | src/vibing_api/api/routes/inbox.py:70-76 | the item becomes resolved; not found otherwise |
| `Coherence.ReachableIsCoherent` | src/vibing_api/core/reducer.py:145-181 | in every reachable database: foreign keys intact; every approval carries its session's devcontainer; decided_at set iff not pending; each approval has at most one linked inbox row, an approval request of the same session, resolved once the approval is decided |
| `Coherence.GetByApprovalIsWellDefined` | src/vibing_api/repositories/inbox.py:117-122 | in such a database the unordered lookup has one possible answer |
| `Coherence.StepKeepsCoherence` | src/vibing_api/repositories/approvals.py:108-115 | one step keeps all of that; no approval returns to pending or changes hands, and no surviving inbox row loses its approval link |
| `Coherence.DeleteKeepsCoherence` | src/vibing_api/core/schema.py:52-73 | SET NULL never bites: when sessions or a devcontainer go, a linked inbox row goes with its approval or keeps it |
| `ReadModel.ProjectsThroughoutExactly` | docs/adr/0002-inbox-is-a-projection-of-the-runtime-event-stream.md:3-9 | the design's universal rule, over every run: each devcontainer, session and approval has at every moment the status the surviving log last told of it, if and only if no step writes a status directly or deletes the last word on a row that stays |
| `ReadModel.ReadModelIsAProjection` | docs/adr/0002-inbox-is-a-projection-of-the-runtime-event-stream.md:3-9 | over every run of properly addressed events and any creates, starts, deletes and inbox calls the rule holds throughout |
| `ReadModel.StepProjectsLogExactly` | src/vibing_api/core/reducer.py:58-192 | however events are addressed, a step keeps the rule if and only if it is not an accepted resume, not a PATCH to another status, and not a delete that takes the last word on a row it spares |
| `ReadModel.DeleteProjectsLogExactly` | src/vibing_api/core/schema.py:28-88 | a delete keeps the rule if and only if for each row it spares the last event about it survives, or the events left end on the same status |
| `ReadModel.MisaddressedWordIsLost` | src/vibing_api/core/reducer.py:104-126 | such a delete: the first event about a session that carries another devcontainer's id is taken in, and lost with that devcontainer while the session keeps the status |
| `ReadModel.DirectWriteDisagrees` | src/vibing_api/api/routes/agent_sessions.py:253-255 | an accepted resume (and a PATCH to another status, devcontainers.py:79-87) leaves its row saying what the log does not |
| `Conservation.ReachableIsConserved` | src/vibing_api/core/reducer.py:172-181 | in every reachable database, for each devcontainer, session, inbox type and text, there are as many inbox rows as surviving log events that map to it |
| `Conservation.DeleteConserves` | src/vibing_api/core/schema.py:41-73 | session and devcontainer deletes remove both sides equally |
| `Conservation.LogCountAfterDelete` | src/vibing_api/core/schema.py:41-50 | a delete removes all log events about a devcontainer, session, type and text, or none |
| `SummaryIndex.IndexedThroughoutExactly` | src/vibing_api/core/reducer.py:183-192 | over every run whose ends have distinct clock readings, the summary table is an index of the log at every moment if and only if no devcontainer is deleted while another's session was last ended by an event that names it |
| `SummaryIndex.StepKeepsIndexExactly` | src/vibing_api/core/schema.py:41-50 | however events are addressed, only such a delete breaks the index, and it does |
| `SummaryIndex.ReachableIndexesLog` | src/vibing_api/core/reducer.py:183-192 | over well-addressed runs with any deletes and resumes, a session has a summary exactly when the surviving log has a terminal event for it, and the summary tells of the last one, whatever the clock readings |
| `SummaryIndex.LastEndIsInLog` | src/vibing_api/core/reducer.py:104-126 | the last terminal event is in the log and ends that session; there is none only if no event ends it |
| `SummaryIndex.MisaddressedEndBreaksIndex` | src/vibing_api/core/reducer.py:183-192 | an input that breaks it: a first terminal event carrying another devcontainer's id, then the delete of that devcontainer |
| `SummaryIndex.ReachableRestAgrees` | src/vibing_api/core/reducer.py:104-143 | over every run, well addressed or not, a completed, failed or stopped session has a summary with that final status |
| `SummaryIndex.SummariesKeepTheirIdentity` | src/vibing_api/repositories/summaries.py:86-119 | over every run a summary has the id and creation time of the intake that brought it, however often it is rewritten |
| `SummaryIndex.StepKeepsSummaryIdentity` | src/vibing_api/repositories/summaries.py:86-119 | one step leaves both as they are while the summary stays |
| `Interventions.RequestIsUpForDecision` | src/vibing_api/core/reducer.py:145-181 | an approval request taken in from an addressed agent can be decided either way, keeps its requested action, and has an unread inbox row linked to it |
| `Interventions.QuestionIsUpForAnswer` | src/vibing_api/core/reducer.py:97-101 | a question taken in for an active session can be answered, and its inbox row shows it |
| `Interventions.StartLands` | src/vibing_devcontainer_runtime/command_handler.py:38-57 | an accepted start's command carries the prompt, and its answer, taken in by whatever the database has become, leaves the session running; it is refused if the session is gone |
| `Interventions.ResumeLands` | src/vibing_devcontainer_runtime/command_handler.py:38-57 | the same for an accepted resume |
| `Interventions.StopLands` | src/vibing_devcontainer_runtime/command_handler.py:145-166 | an accepted stop's answer says that the session is stopped, and leaves it so, its summary included |
| `Interventions.EndLands` | src/vibing_devcontainer_runtime/command_handler.py:81-116 | a run's end leaves its session completed or failed as the process was, with the result or error output in the inbox and in the summary |
| `Interventions.InputLands` | src/vibing_devcontainer_runtime/command_handler.py:118-128 | an accepted input, answered by the agent and taken in by whatever the database has become, resolves its inbox item and writes nothing else but the log; it is refused if the session is gone |
| `Interventions.DecisionLands` | src/vibing_devcontainer_runtime/command_handler.py:130-143 | an accepted decision likewise decides its approval as asked, sets the session running and resolves the linked row |
| `Interventions.AnsweredInputClosesItem` | src/vibing_api/api/routes/agent_sessions.py:328-336 | after that, over any further run, a second input for the item is refused |
| `Interventions.ClosedItemRefusesInput` | src/vibing_api/api/routes/inbox.py:70-76 | an item closed by its route is resolved, and over any further run every input for it is refused |
| `Interventions.ReadItemStaysOpen` | src/vibing_api/api/routes/inbox.py:60-66 | an item marked read is no longer unread, and can be answered exactly if it could before |
| `Interventions.AnsweredDecisionClosesApproval` | src/vibing_api/api/routes/agent_sessions.py:378-386 | after a decision's answer is in, the approval has the status decided and its linked row is resolved, and over any further run a decision that comes to the route then is refused |
| `Interventions.DecisionStandsExactly` | src/vibing_api/core/reducer.py:157-161 | over every run an approval keeps its status for as long as it exists if and only if no differing resolution of it is taken in |
| `Interventions.StepOverturnsExactly` | src/vibing_api/core/reducer.py:157-161 | a step gives an approval that stays another status exactly if it takes in an event with existing ids whose resolution of that approval differs from its status |
| `Interventions.CrossedDecisions` | src/vibing_api/api/routes/agent_sessions.py:378-386 | an input where a decision is overturned: while an approval is pending the route accepts both decisions, and the answer taken in later wins |
| `Commute.IndependentEventsCommute` | src/vibing_api/core/reducer.py:130-192 | events with disjoint footprints project to the same tables in either order, or fail in both |
| `Commute.SessionsGoTheirOwnWays` | src/vibing_api/core/reducer.py:58-126 | events of different sessions that neither resolve nor answer anything are independent |
| `Commute.OrderMattersWithinASession` | src/vibing_api/core/reducer.py:58-126 | a start and a stop of one session are not: the later one has the last word |
| `Commute.AnswersAreUnmoved` | src/vibing_api/core/reducer.py:163-166 | what the linked-row lookup of one event can answer is not moved by an independent event |
| `Commute.WritesOnlyFootprint` | src/vibing_api/core/reducer.py:137-192 | an update writes no row outside its footprint |
| `Commute.TablesCommute` | src/vibing_api/core/reducer.py:130-192 | two rewrites of a table that write and read disjoint rows commute |
| `ActiveSession.IntakeBreaksRuleExactly` | src/vibing_api/core/reducer.py:74-126 | an accepted intake gives a devcontainer two active sessions exactly when it wakes a resting session beside an active one |
| `ActiveSession.OneActiveThroughoutExactly` | src/vibing_api/api/routes/agent_sessions.py:195-199 | over every run, resumes and approval events included: at most one active session per devcontainer at every moment, if and only if no event wakes a resting session beside an active one |
| `ActiveSession.OneActiveIfNeverWoken` | src/vibing_api/api/routes/agent_sessions.py:195-199 | with resumes and approval events, at most one active session per devcontainer over every run in which no activating event arrives for a resting session |
| `ActiveSession.LateStopOfAResumedSession` | src/vibing_api/api/routes/agent_sessions.py:253-255 | that hypothesis is needed: from any database with one active session a five-step run with a resume is valid and ends with two |
| `StartStop.RuleThroughoutExactly` | src/vibing_api/api/routes/agent_sessions.py:178-405 | over every run of the composed system (FIFO commands and events, any run endings and reports, drops that lose both queues, starts, stops, resumes, inputs, decisions, deletes): at most one active session per devcontainer at every moment, if and only if no event is taken in that wakes a resting session beside an active one |
| `StartStop.AtMostOneActiveSession` | src/vibing_api/api/routes/agent_sessions.py:178-352 | which orderly runs never do: a session is resumed only once its channel holds nothing about it and its run is over, and there are no approvals |
| `StartStop.StartComesUp` | src/vibing_api/api/routes/agent_sessions.py:178-213 | on a clear channel an accepted start, handled and its answer taken in, has its session running with its prompt |
| `StartStop.ResumeComesUp` | src/vibing_api/api/routes/agent_sessions.py:221-265 | the same for a resume |
| `StartStop.StopComesDown` | src/vibing_api/api/routes/agent_sessions.py:273-302 | the same for a stop, whose session is then stopped |
| `StartStop.InputComesThrough` | src/vibing_api/api/routes/agent_sessions.py:310-352 | the same for an input, whose item is then resolved and refuses another |
| `StartStop.DecisionComesThrough` | src/vibing_api/api/routes/agent_sessions.py:360-405 | the same for a decision, which its approval then has |
| `StartStop.EndComesThrough` | src/vibing_devcontainer_runtime/command_handler.py:81-116 | a launched run that ends puts its session to rest with a summary |
| `StartStop.DropsLoseWhatIsOnItsWay` | src/vibing_api/api/routes/runtime.py:118-124 | a drop loses the commands on their way and, once noticed, the events; nothing is started until the next connect |
| `RunningRule.RunningThroughoutExactly` | CONTEXT.md:75 | the glossary's rule, over every run, read literally (starting or running) or with waiting for approval counted in: sessions are so only in running devcontainers at every moment if and only if no step breaks it |
| `RunningRule.StoppedUnderSession` | src/vibing_api/core/reducer.py:64-73 | an input that breaks either reading: the report that a devcontainer has stopped, beside a session starting or running in it |
| `RunningRule.ReadingsDiffer` | src/vibing_api/core/reducer.py:76-82 | an approval request in a devcontainer that is not running breaks only the wider reading |
| `RunningRule.StepBreaksExactly` | src/vibing_api/core/reducer.py:64-126 | a step breaks either reading exactly if it is an event with existing ids and no bad resolution, or a PATCH, that takes a devcontainer with such a session out of running, or such an event that makes a session so in one that is not running |
| `AgentCommands.AgentCommandHandler.FinishStart` | src/vibing_devcontainer_runtime/command_handler.py:58-69 | after a start the run waits, and a stop right now would cancel it and no other; every run stays accounted for |
| `AgentCommands.AgentCommandHandler.BeginStop` | src/vibing_devcontainer_runtime/command_handler.py:145-157 | a stop takes both entries; the run filed as process and as task is cancelled and waited for, a process without a task only terminated; a run of the session goes on waiting exactly if one was stray, and no other run is touched |
| `AgentCommands.AgentCommandHandler.OnWaitOver` | src/vibing_devcontainer_runtime/command_handler.py:71-79 | a wait that returns leaves exactly its own result to be told, one that raises ends the run untold; the process is forgotten either way |
| `AgentCommands.AgentCommandHandler.OnEndEmitted` | src/vibing_devcontainer_runtime/command_handler.py:81-116 | what is emitted is the end that the wait gave, or nothing if the emission raises |
| `AgentCommands.AgentCommandHandler.OnStopEmitted` | src/vibing_devcontainer_runtime/command_handler.py:159-166 | the stopped event of the stop in hand is then out, exactly once |
| `AgentCommands.AgentCommandHandler.OnDone` | src/vibing_devcontainer_runtime/command_handler.py:68-69 | the callbacks drop the finished task and put any run of the session that is still waiting beyond the reach of a stop |
| `RunConservation.EveryRunEndsOnce` | src/vibing_devcontainer_runtime/command_handler.py:71-116 | over every schedule, waits and emissions that raise included: one started and at most one terminal event per run; a run is cancelled exactly if one stop of its session does it, no stop cancels two, and each stop seen through emits one stopped event |
| `RunConservation.EndsAreTruthful` | src/vibing_devcontainer_runtime/command_handler.py:71-116 | over every schedule a run is reported completed, or failed, if and only if its process was waited for with that outcome and the report went out |
| `RunConservation.StartIsSeenThrough` | src/vibing_devcontainer_runtime/command_handler.py:45-69 | a start whose process is waited for and whose end is emitted tells of the start and of that end only |
| `RunConservation.StopIsSeenThrough` | src/vibing_devcontainer_runtime/command_handler.py:145-166 | a stop of a filed run kills it, waits for its callbacks and tells of itself |
| `RunConservation.LeavingTellsNothing` | src/vibing_devcontainer_runtime/command_handler.py:145-166 | a handler that leaves in the middle has told nothing, and a stop in hand is never told of |
| `RunConservation.RunsEndOneWay` | src/vibing_devcontainer_runtime/command_handler.py:71-116 | a run that is over ended in exactly one of four ways: by its terminal event, by a stop, by a wait that raised, or by an emission that raised |
| `RunConservation.CrashEndsUntold` | src/vibing_devcontainer_runtime/command_handler.py:71-79 | the shortest schedule in which a run is over without a terminal event and without a stop: a wait that raises |
| `RunConservation.StartsAreConserved` | src/vibing_devcontainer_runtime/command_handler.py:63-116 | starts handled = completed + failed + cancelled + those whose wait or last emission raised + still in flight, at every moment |
| `RunConservation.NothingRaisedExactly` | src/vibing_devcontainer_runtime/command_handler.py:71-116 | the balance without those that raised holds if and only if no wait and no last emission raised |
| `RunConservation.TasksAreTheLiveRuns` | src/vibing_devcontainer_runtime/command_handler.py:66-69 | the handler's task set is exactly the runs whose task and callbacks are not done |
| `RunConservation.StopLeavesExactlyStrays` | src/vibing_devcontainer_runtime/command_handler.py:145-157 | a stop leaves a run of its session waiting exactly when some waiting run has lost one of its entries |
| `RunConservation.CleanStartsMakeStopsClear` | src/vibing_devcontainer_runtime/command_handler.py:145-166 | if no session is started before its earlier runs are over, then from the stop taking the entries until it has emitted no run of the session waits |
| `RunConservation.UnfiledStartsAreNotEnough` | src/vibing_devcontainer_runtime/command_handler.py:66-69 | the weaker condition, that no session is started while it has a task entry, is not enough: a schedule that meets it leaves a run waiting after its stop |
| `CommandQueue.HandledIsAPrefix` | src/vibing_runtime_client/client.py:130-160 | over every schedule commands are handled one at a time, and on each connection what the handler got is a prefix of the valid commands received there; none reaches a later connection |
| `CommandQueue.CanTakeExactly` | src/vibing_runtime_client/client.py:153-160 | over every schedule the open connection can take a command if and only if none is in hand, one received has not been handed, and no handler has raised since the connect |
| `CommandQueue.ConnectionServes` | src/vibing_runtime_client/client.py:130-160 | on a new connection a command that arrives is begun and ended and the consumer is ready for the next; the disconnect ends it |
| `CommandQueue.SwallowedCancelGoesOn` | src/vibing_runtime_client/client.py:130-160 | a stop that swallows the end of its connection goes on with what is queued there, and nothing more arrives |
| `CommandQueue.RuntimeSession.TakeNext` | src/vibing_runtime_client/client.py:153-160 | the handler gets the earliest command received that it has not been given |
| `CommandQueue.RuntimeSession.OnHandlerLeft` | src/vibing_runtime_client/client.py:153-160 | the consumer goes on unless the handler raised |
| `CommandQueue.ConsumerKeepsUp` | src/vibing_runtime_client/client.py:153-160 | while no handler raises, each turn of the consumer with nothing in hand and a command waiting hands exactly the first one not yet handed |
| `CommandQueue.BacklogIsWorkedOff` | src/vibing_runtime_client/client.py:153-160 | and after as many rounds as commands are waiting everything received has been handed, in order |
| `CommandQueue.RunSession` | src/vibing_runtime_client/client.py:130-160 | one connection from start to end, however its receive loop and consumer interleave, goes turn by turn as the lemmas above say: what was received are the valid commands in order, what was handed is a prefix, and all of them if no handler raised and nothing is left waiting |
| `Reconnect.Backoff.NextDelay` | src/vibing_runtime_client/client.py:51-54 | the n-th delay since the start or a reset is min(initial * factor^n, maximum) |
| `Reconnect.RuntimeChannelClient.Run` | src/vibing_runtime_client/client.py:113-128 | every delay of the loop is that closed form at the number of delays taken since the last success, until stop |
| `Reconnect.StepsAdvance` | src/vibing_runtime_client/client.py:113-128 | how one more attempt moves that number |
| `Reconnect.CountingFromTheLastSuccess` | src/vibing_runtime_client/client.py:113-128 | the delay after k consecutive failed connects is min(initial * factor^(k-1), maximum) if and only if no connect has ever succeeded, or the backoff is constant or capped by then |
| `Reconnect.FirstFailureAfterASessionWaitsLonger` | src/vibing_runtime_client/client.py:113-128 | an input where it is not: one session, then one failed connect |
| `Registry.ConnectionRegistry.Register` | src/vibing_api/core/runtime_channel.py:44-49 | a slot is claimed only if free, and then is the socket's; no other slot changes |
| `Registry.ConnectionRegistry.UnregisterSocket` | src/vibing_api/core/runtime_channel.py:117-126 | only the owner frees the slot; the pending requests on that socket are dropped and forgotten, every other request and slot is as it was |
| `Registry.ConnectionRegistry.FailInflightFor` | src/vibing_api/core/runtime_channel.py:121-126 | the loop over the in-flight table fails exactly the pending requests of that socket |
| `Registry.FailOneMore` | src/vibing_api/core/runtime_channel.py:121-126 | failing one more request is one more turn of that loop, in any order of the table |
| `Registry.ConnectionRegistry.SendCommand` | src/vibing_api/core/runtime_channel.py:58-63 | a command goes to its slot's socket, the worker's or the devcontainer's, or nowhere |
| `Serve.ServeLoop.OnRegistered` | src/vibing_api/api/routes/runtime.py:85-180 | a worker asks for the one worker slot, an agent for the devcontainer it names; a runtime that is no agent or names none is turned away with 4400, a taken slot with 4409; else one claim and one broadcast that names the devcontainer |
| `Serve.ServeLoop.OnEvent` | src/vibing_api/api/routes/runtime.py:101-117 | an unregistered runtime is not listened to; of a registered one an acceptable event is logged and projected as a whole, any other not at all |
| `Serve.ServeLoop.OnDisconnect` | src/vibing_api/api/routes/runtime.py:118-124 | a loop that claimed frees its slot, leaves no request pending on its socket and broadcasts once; any other frees nothing |
| `SlotOwnership.SlotsAreOwned` | src/vibing_api/api/routes/runtime.py:70-124 | over any number of concurrent loops and any messages: a slot maps to a socket exactly when that socket's loop is live and claimed it; runtime broadcasts are one per claim plus one per claimed loop that ended |
| `SlotOwnership.OnlyOwnersActOnSlots` | src/vibing_api/api/routes/runtime.py:133-180 | a slot is lost only by its owner's disconnect and events are taken in only from a loop holding its slot |
| `SlotOwnership.RegistrationIsAnswered` | src/vibing_api/api/routes/runtime.py:133-180 | a registration on a free slot claims it and is announced once, naming an agent's devcontainer; any other ends its loop with 4400 or 4409 and changes nothing else |
| `SlotOwnership.EventsAreTakenExactly` | src/vibing_api/api/routes/runtime.py:101-117 | an event is taken in if and only if its socket's loop holds a slot |
| `SlotOwnership.RepliesAreHeardFromAgents` | src/vibing_api/api/routes/runtime.py:93-99 | a pending transcript request gets the value of a reply if and only if the reply comes from a loop that holds an agent's slot |
| `SlotOwnership.AgentComesAndGoes` | src/vibing_api/api/routes/runtime.py:152-180 | an agent that registers on a free slot is heard, and its disconnect frees the slot; both are announced |
| `TranscriptRpc.NoOrphans` | src/vibing_api/core/runtime_channel.py:88-126 | in every interleaving each suspended caller has a settled future, or a pending entry whose socket is still registered under its devcontainer; no entry outlives its caller |
| `TranscriptRpc.ValueIsFirstReply` | src/vibing_api/core/runtime_channel.py:108-115 | a future holds a value exactly when a reply arrived while it was pending; only one such reply ever counts and the value is that reply's |
| `TranscriptRpc.SettlesOnce` | src/vibing_api/core/runtime_channel.py:108-126 | a settled future never changes |
| `TranscriptRpc.DeliveryIsTheFuturesValue` | src/vibing_api/core/runtime_channel.py:98-106 | what a caller is handed is what its future holds |
| `TranscriptRpc.OutcomesAreExplained` | src/vibing_api/core/runtime_channel.py:88-126 | in every interleaving a caller is told of a dropped connection only if the very socket that carried its request was unregistered while it was pending; it times out, or fails to send, if and only if it did |
| `TranscriptRpc.RequestIsAnswered` | src/vibing_api/core/runtime_channel.py:88-126 | a waiting request is answered by its reply, by the drop of its socket or by its timeout, and leaves nothing in flight |
| `Lifecycle.DevcontainerCommandHandler.Handle` | src/vibing_host_runtime/command_handler.py:28-112 | what a command emits, all of it the worker's and about the command's devcontainer: nothing, one failed event for want of a path, or a pre-event and then success or failure as the tool answers; only the pre-event if the tool raises or is cut off, and no more than the emissions that go through; it raises exactly then |
| `Lifecycle.StatusSettlesExactly` | src/vibing_host_runtime/command_handler.py:50-112 | after any sequence of commands, handled to their ends or not and projected in order, a devcontainer is left starting or stopping if and only if its last touching command was cut short between pre-event and end, or none touched it and it was so before |
| `Lifecycle.StatusFollowsLastTouch` | src/vibing_host_runtime/command_handler.py:50-112 | each devcontainer then has the status its last touching command leaves |
| `Lifecycle.StatusSettles` | src/vibing_host_runtime/command_handler.py:50-112 | commands that the tool answers and whose events all get through never leave it so |
| `Lifecycle.SomeRouteIsOpen` | src/vibing_api/api/routes/devcontainers.py:24-27 | one of the start and stop routes takes a devcontainer further exactly if it is not starting or stopping |
| `Lifecycle.CutStartSticks` | src/vibing_api/api/routes/devcontainers.py:101-144 | so a start that is cut short leaves a devcontainer that neither route takes any further |
| `Broadcaster.Broadcaster.PublishAll` | src/vibing_api/core/broadcaster.py:54-57 | every subscribed mailbox gets all events in order, once |
| `Broadcaster.Broadcaster.Unsubscribe` | src/vibing_api/core/broadcaster.py:47-52 | removes that mailbox and no other |
| `Broadcaster.SseStream.Poll` | src/vibing_api/api/routes/events.py:42-57 | one turn of the stream: the oldest event is sent, and the mailbox is given up on disconnect or at the limit |
| `Coordinator.EventCoordinator.OnOpen` | apps/web/src/lib/events/coordinator.ts:45-52 | every open but the first runs every registered callback once, and no other |
| `Coordinator.EventCoordinator.OnInvalidate` | apps/web/src/lib/events/coordinator.ts:29-37 | an invalidation runs the callbacks registered for its scope, once each, a malformed one none |
| `Coordinator.EventCoordinator.Connect` | apps/web/src/lib/events/coordinator.ts:40-43 | a second connect changes nothing |
| `Coordinator.EventCoordinator.Register` | apps/web/src/lib/events/coordinator.ts:69-71 | the callback is then listening, every other pair is as before, and registering twice is registering once |
| `Coordinator.EventCoordinator.Unregister` | apps/web/src/lib/events/coordinator.ts:71 | the callback is then not listening and every other pair is as before |
| `Coordinator.CatchUpRuns` | apps/web/src/lib/events/coordinator.ts:23-27 | a catch-up runs every callback of every scope and no other |
| `Coordinator.CatchUpRunsOnce` | apps/web/src/lib/events/coordinator.ts:23-27 | and none of them twice |
| `NoMissedInvalidation.EveryCommitIsHeard` | src/vibing_api/core/runtime_channel.py:129-143 | for every commit after the page's first subscription and every scope it changed: each callback then registered has run since or was taken off, or an invalidation is unpublished, queued or in transit, or the page has no live stream and its next open runs it |
| `NoMissedInvalidation.ListeningExactly` | apps/web/src/lib/events/coordinator.ts:69-71 | over every run a callback is listening if and only if the last the page said of it is a registration |
| `NoMissedInvalidation.CommitOwesListeners` | src/vibing_api/core/runtime_channel.py:129-143 | every accepted intake after the first open that changes the table behind a listening callback's scope is such a commit |
| `NoMissedInvalidation.CommitsReachCallbacks` | src/vibing_api/core/runtime_channel.py:129-143 | end to end, whatever happens before and after: such a commit has been heard since, or the callback was taken off, or the news is still coming |
| `NoMissedInvalidation.CaughtUpOwesNothing` | apps/web/src/lib/events/coordinator.ts:29-37 | on a live stream with nothing on its way every such commit has been heard |
| `NoMissedInvalidation.LiveStreamCatchesUp` | src/vibing_api/api/routes/events.py:42-57 | from every reachable state with a live stream, publishing, draining and delivering alone lead there |
| `NoMissedInvalidation.NewsFlowsInOrder` | src/vibing_api/core/broadcaster.py:54-57 | while the stream is live nothing on its way is lost, doubled or reordered: an intake appends what it publishes, a delivery takes the first |
| `NoMissedInvalidation.BreaksLoseTheMailbox` | src/vibing_api/api/routes/events.py:42-57 | what each kind of break loses; no callback is lost by one |
| `NoMissedInvalidation.StreamComesBack` | apps/web/src/lib/events/coordinator.ts:45-58 | connecting gives a live stream; one that broke is live again after its reopen, with every registered callback run |
| `NoMissedInvalidation.RunsExactly` | apps/web/src/lib/events/coordinator.ts:23-52 | a callback runs if and only if it is registered and its scope's invalidation is delivered or the stream is opened again |
| `NoMissedInvalidation.ReopeningRunsEveryCallback` | apps/web/src/lib/events/coordinator.ts:45-52 | after a reopen no registered callback is owed a run |
| `NoMissedInvalidation.CommitIsAnnounced` | src/vibing_api/core/reducer.py:195-232 | an intake publishes the scope of every table it changes |

## Left out

- React components and hooks, routing, styling and the mock layer: user interface.
- Command-line front ends, HTTP client wrappers, settings, diagnostics and health routes: plumbing.
- Read-only routes and list queries, which return rows as they are, and the transcript route's
  choice between live turns, an empty state and the summary.
- Subprocesses and Docker (`claude_runner`, `devcontainer_cli`, `agent_launcher`): their outcome is
  an input. The payload of a lifecycle event and the launcher call after a start are dropped, since
  the projection reads neither.
- JSON, pydantic and WebSocket framing and transcript parsing: messages arrive typed, with a case for
  ignored ones.
- SQL text, migrations, indexes and timestamp order; `sample_data.py`, which bypasses the projection.
- Interleaving of threads inside one route, and a send that raises after a route has committed.
- A caller of the transcript RPC cancelled from outside while it waits; timeouts and failed sends
  are modelled.
- Fairness: that a step which can be taken is taken. What follows once it is, is proved.
- Invalidations for writes made by HTTP routes: those routes publish nothing, so coverage is claimed
  for runtime events.
- OneActiveIfNeverWoken: a run of route calls and intakes, not of the composed queues, which
  `StartStop` has.
- AtMostOneActiveSession: the resume route does not check that the channel is quiet about the
  session; without that the rule fails.
