# The agent monitor's daemon, modelled

The daemon watches AI coding agents. Hook events, dashboard prompts, SDK messages and
process scans all change one record per session; each change is written to a table and
announced to the connected dashboards. This project models that pipeline and the smaller
stores beside it, and proves what holds over every run of them.

| file | what it models |
|---|---|
| `Basics`, `SessionTypes`, `Handlers` | the session record, the events, and how each agent's events are classified |
| `Timeline`, `ToolStacks` | turns, entries and tool calls; the tool calls of a turn as one list and as brackets |
| `SessionOps`, `SessionRuns` | every operation on a session as a function, and what holds over runs of operations |
| `SessionEffects` | what each operation leaves in the record, in terms of the event, prompt or message |
| `Deltas` | change notices as patches on the published fields |
| `Persistence` | the session table, reloading after a restart |
| `SessionHeap` | the record as linked mutable objects, edited in place; clones and comparisons |
| `Books` | records, rows and notifications as one value; traces of operations on many sessions |
| `Manager` | the session manager: records, rows, notifications, waiting prompts |
| `ScanOrder`, `Scan` | the process scan: the orders and choices that are possible, their verdicts, and the loops that take them |
| `Recovery` | sessions from transcripts at start-up |
| `Stream`, `Hub` | snapshots and deltas on one connection; the hub that sends to all of them |
| `EventLog` | the crash-tolerant reader of the hook event log |
| `Hierarchy`, `Access` | cascading deletes; the scoped tree against the point checks |
| `StoryRuns` | the run table and the story columns that mirror it |
| `Tokens` | login tokens with sliding expiry |

The code keeps its shape: what it edits in place is a class here, with methods proved
against functions on values; decisions without state are functions. Go maps are walked in
an order nobody fixes, so those loops pick any element. A `ghost` parameter or result only
records what happened; a type that mixes in such a record (`Stream.Sys`, `EventLog.Log`)
says so at its declaration. Clock readings, process tables, parsed payloads, random tokens
and results of outside calls are parameters.

Where a promise turned out not to hold, there is a concrete input, or a whole family of
them, and the exact condition is proved:

- A process scan that brings a session back does not announce its new status, terminal or
  creation time: exact in `PidNoticeExactIff`. A connected client keeps showing it as
  disappeared (`ResurrectionIsNotSeen`).
- A restart is invisible to later events exactly when no dashboard prompt awaits its echo
  and, for OpenCode, the user did not speak last (`RestartTransparentIff`); to all later
  operations exactly when, besides, an active session was last active at its last event
  (`RestartAlwaysTransparentIff`), which a session that a scan brought back was not
  (`ResurrectedGoesIdleEarly`).
- The scan converts pids to 32 bits, and not every known session gets a verdict. One gets
  it in every order of the maps exactly when its pid is a process's, or is not taken for
  one, or some process without a known pid is in its place and in no other known
  session's (`VerdictInEveryOrderIff`); in no order exactly when its pid is taken for a
  process's and every process in its place has a known pid (`NoVerdictInAnyOrderIff`);
  in all other cases the order decides (`OrderDecidesIff`). Inputs of each kind:
  `ConfusedSession`, `CrowdedSession`.
- Tree and point check disagree on a project exactly when the user's permission row there
  is below level 10 (`TreeAgreesWithCheckIff`, `SessionAccessIffStoryInTree`). Such a row is
  an input of the store only: the handlers accept levels 10, 50 and 100
  (internal/server/handlers.go:617 and :669).
- A run leaves the story's summary behind exactly when its session cannot be registered
  (`MirroredAfterCreateIff`).
- The comment above `handleNewLines` says an incomplete last line is read again after it
  was completed; the code moves past it. The two pieces deliver what the line would
  exactly when, judged as lines, they amount to it (`TornLineIff`); a line of two
  characters is lost (`TornLineIsLost`).

## Model

| member | source | states |
|---|---|---|
| `Timeline.StartInFlat` | internal/session/manager.go:463-489 | A start puts the new call at the end of the flat list of the turn's calls, whether it joins the last group or opens one. |
| `Timeline.FinishInFlat` | internal/session/manager.go:491-514 | The nested reverse scan finishes exactly the matching running call with the greatest index in the flat list, and nothing else. |
| `SessionRuns.TimelineRefinesFlatList` | internal/session/manager.go:201-236 | Whatever operation runs, the nested groups of the current turn change as one operation on the flat list in creation order. |
| `SessionRuns.RunRefinesFlatList` | internal/session/manager.go:395-550 | The same over every run of operations. |
| `ToolStacks.OpenCallsAreRunning` | internal/session/manager.go:491-514 | The stack of a tool name holds exactly the indices of its running calls, in creation order. |
| `ToolStacks.LastMatchIsInnermost` | internal/session/manager.go:491-514 | The call the reverse scan finds is the innermost open bracket that fits, and there is none exactly when nothing fits. |
| `ToolStacks.StackStepSound` | internal/session/manager.go:463-543 | On the open calls every operation, with or without a tool name, is one step of a bracket machine: a start opens, an end closes the innermost call that fits. |
| `ToolStacks.CallsPairAsStacks` | internal/session/manager.go:463-543 | Over any run of operations starts and ends pair up like brackets, all together and name by name. |
| `ToolStacks.ClosePopsOneStack` | internal/session/manager.go:491-514 | A close pops the stack of one tool name, whose top it is, and no other. |
| `ToolStacks.OnlyTheTopChanges` | internal/session/manager.go:491-543 | Any end, with or without a tool name, rewrites exactly the call it closes, the top of its name's stack; all others stay as they are. |
| `ToolStacks.NamelessResult` | internal/session/manager.go:218-236 | A result without a tool name ends the newest running call of all. |
| `SessionRuns.SessionCallsPairAsStacks` | internal/session/manager.go:463-543 | The bracket discipline for the timeline of any session under any run of its operations, SDK results without a tool name included. |
| `SessionRuns.NextTurns` | internal/session/manager.go:413-451 | Every operation opens a turn, edits the last turn by appending entries or ending calls, or leaves the timeline; it opens one exactly when it should, and then the user input is the turn's prompt. |
| `SessionRuns.RunKeepsNumbering` | internal/session/manager.go:413-550 | Over every run, turn i has index i and the newest turn's prompt is the session's user input. |
| `SessionRuns.RunExtends` | internal/session/manager.go:413-550 | Turns before the newest never change, and entries are never dropped, reordered or given another payload. |
| `SessionRuns.TurnCountTracksTurns` | internal/session/manager.go:545-550 | The turn count and the number of turns move together, but for a first turn made for a stray entry. |
| `SessionRuns.EchoesBoundedByWebInputs` | internal/session/manager.go:413-451 | Prompts dropped as echoes never outnumber dashboard prompts. |
| `SessionRuns.RoleFromHistory` | internal/session/manager.go:696-712 | The remembered role is that of the last message event that named one, whatever operations ran. |
| `SessionRuns.PromptByHistory` | internal/session/handler_opencode.go:7-36 | A text part starts a turn exactly when it names the user, or names nobody and the last message with a role was the user's. |
| `SessionRuns.StoppedIsStable` | internal/session/manager.go:816-930 | A stopped session stays stopped through ordinary events, scans, disappearances and idle checks. |
| `SessionRuns.DisappearedIsStable` | internal/session/manager.go:395-411 | A disappeared session stays so through ordinary events without a scan update. |
| `SessionRuns.LeavingDisappeared` | internal/session/manager.go:847-876 | Of all operations exactly lifecycle events and scan updates, and on SDK sessions prompts and marks with another status, end a disappearance. |
| `SessionRuns.IdleCheckBounds` | internal/session/manager.go:900-930 | After the idle check an active session never had a hook event, or had one within 300000 ms; other statuses are kept. |
| `SessionEffects.EventClasses` | internal/session/handler_opencode.go:7-36 | Which events start, end or fail a tool or are a prompt, told apart by agent, event name and message part. |
| `SessionEffects.ToolStartRecorded` | internal/session/manager.go:463-489 | A tool start adds, last, a running call with the event's tool name, input and time, no output and no end; without a name it adds none. |
| `SessionEffects.ToolEndRecorded` | internal/session/manager.go:491-514 | A result ends the newest running call of its name with the event's status, or else as completed, its output and time; without such a call no call changes. |
| `SessionEffects.ToolFailureRecorded` | internal/session/manager.go:516-543 | A failure ends it as failed with the output or else the reason; without such a call one failed call is recorded. |
| `SessionEffects.OtherEventsKeepTools` | internal/session/manager.go:413-451 | No other event touches a call; a prompt that is no echo begins a turn without any. |
| `SessionEffects.SdkToolsRecorded` | internal/session/manager.go:188-236 | The same for the messages of an SDK session: a tool use adds a running call, a result completes the newest running one. |
| `SessionEffects.ResultEndsItsStart` | internal/session/manager.go:463-514 | After a start, any run of operations that spares its name, and a result, the call has the start's name, input and time and the result's status, output and time. |
| `SessionEffects.FailureEndsItsStart` | internal/session/manager.go:463-543 | The same with a failure in the place of the result. |
| `SessionEffects.SdkResultEndsItsStart` | internal/session/manager.go:188-236 | The same on an SDK session, for a run that touches no tool. |
| `SessionEffects.PromptRecorded` | internal/session/manager.go:413-451 | A prompt begins a turn and sets user input and first title; while an echo is awaited it does neither and ends the wait. |
| `SessionEffects.EventEntryRecorded` | internal/session/manager.go:413-461 | Every event but a prompt and a start leaves its name, time and payload as last entry of the newest turn. |
| `SessionEffects.GroupOpened` | internal/session/manager.go:463-489 | The first start of a turn opens a group that carries the event's name, time and payload. |
| `SessionEffects.LoneFailureEntered` | internal/session/manager.go:516-543 | A failure without a running call leaves a group with the lone call and, after it, the event. |
| `SessionEffects.SdkEntryRecorded` | internal/session/manager.go:188-236 | An SDK message that neither starts nor ends a call leaves the message as received as last entry. |
| `SessionEffects.SdkGroupOpened` | internal/session/manager.go:188-217 | The first SDK tool use of a turn opens a group. |
| `SessionEffects.StatusAfter` | internal/session/manager.go:125-930 | The status after any operation, in terms of the operation and the status, source and last activity before. |
| `SessionEffects.TerminalEvents` | internal/session/handler_claude.go:72-92 | Of the events that stop a session all but two can create none. |
| `SessionEffects.EchoAwaited` | internal/session/manager.go:413-451 | The wait for an echo ends with any event but one about a tool. |
| `SessionEffects.FactsRecorded` | internal/session/handler_claude.go:94-108 | File, command and branch come from the events that report them and from no other. |
| `SessionEffects.TitleRecorded` | internal/session/handler_opencode.go:151-200 | The title comes from an OpenCode session update, or from the first prompt that is no echo. |
| `SessionEffects.OutputRecorded` | internal/session/handler_claude.go:94-150 | Every event leaves the agent's output a prefix of the new one; what follows it, and when a newline stands between, by kind of event. |
| `SessionEffects.FieldsWritten` | internal/session/manager.go:125-930 | Which fields every operation writes and which it leaves, and the values of all that no event computes. |
| `SessionEffects.ScanReported` | internal/session/manager.go:816-865 | A scan update reports a change exactly when a value passes its threshold or the session comes back. |
| `SessionEffects.FirstEventRecorded` | internal/session/manager.go:311-366 | The first event of a session leaves what it would on a blank record of the key, but for the status, which is active. |
| `Deltas.TurnsEqualIsExact` | internal/session/manager.go:1091-1119 | On timelines that only grew, the comparison that skips payloads is equality. |
| `Deltas.DeltaIsExactPatch` | internal/session/manager.go:1035-1089 | The delta turns the old tracked fields into the new, names exactly the changed ones, and is absent exactly when nothing changed. |
| `Deltas.NoticeIsExact` | internal/session/manager.go:125-186 | The notice of every operation but a scan update makes a client's view the new one. |
| `Deltas.PidNoticeExactIff` | internal/session/manager.go:866-876 | The notice of a scan update does so exactly when the session was not disappeared and no other terminal or creation time was found. |
| `Deltas.NoticeCarries` | internal/session/manager.go:816-930 | Whatever a notice of any operation names, it names with the new value. |
| `Deltas.PatchedField` | internal/session/manager.go:1035-1089 | A patch gives each named field its named value and keeps the others. |
| `Persistence.RowFollowsSession` | internal/session/sqlite.go:178-275 | Over every run the stored row is the live session, up to the process columns, which a scan of an active session does not write. |
| `Persistence.ProcessColumnsWritten` | internal/session/manager.go:816-930 | Which operations write the process columns, with the session's values; all others leave them. |
| `Persistence.RowIsWhole` | internal/session/sqlite.go:178-275 | Over every run without a scan of an active session the stored row is the live session, process columns included. |
| `Persistence.RowSurvivesReload` | internal/session/sqlite.go:291-409 | A row loaded and stored again is the same, but for a payload of null and a missing source. |
| `Persistence.ReloadedSession` | internal/session/sqlite.go:291-409 | What a reload changes: process columns as stored, normalised payload and source, and four fields without a column. |
| `Persistence.EventsKeepStep` | internal/session/manager.go:311-393 | Two records that agree on status, timeline, prompt state and remembered role stay in agreement under any events. |
| `Persistence.RestartTransparentIff` | internal/session/sqlite.go:291-350 | Reloading shows in no later status or timeline, for every event sequence, exactly when no echo is awaited and no user role is remembered. |
| `Persistence.OpsKeepStep` | internal/session/manager.go:125-930 | Two records that also agree on being SDK sessions, and while active on the last activity, stay in agreement under any operations. |
| `Persistence.RestartAlwaysTransparentIff` | internal/session/sqlite.go:291-350 | Reloading shows in no later status or timeline, for every sequence of operations, exactly when besides the last activity of an active session is its last event. |
| `Persistence.ResurrectedGoesIdleEarly` | internal/session/manager.go:847-865 | For a session a scan brought back that holds only if the scan fell on the last event. |
| `SessionHeap.Session.AppendEntry` | internal/session/manager.go:453-461 | Appending through the turn's object adds one entry to the newest turn and touches no other turn or entry. |
| `SessionHeap.Session.StartCall` | internal/session/manager.go:463-489 | The reverse loop over entry objects adds a running call as the value-level timeline says. |
| `SessionHeap.Session.FinishCall` | internal/session/manager.go:491-514 | The nested reverse loops end the newest matching call in place, and report whether there was one. |
| `SessionHeap.Session.FailTool` | internal/session/manager.go:516-543 | A failure ends the newest running call of the name, or records a lone failed call. |
| `SessionHeap.Session.BuildTurnEntry` | internal/session/manager.go:413-451 | The in-place edit computes the value-level one, and keeps the objects' invariant. |
| `SessionHeap.Session.ApplyEvent` | internal/session/manager.go:395-411 | Header, timeline, texts and promotion of the status, in place. |
| `SessionHeap.Session.HandleKnown` | internal/session/manager.go:368-392 | An event on a known session, in place. |
| `SessionHeap.Session.WebPrompt` | internal/session/manager.go:772-806 | A dashboard prompt, in place. |
| `SessionHeap.Session.SdkMessage` | internal/session/manager.go:154-236 | An SDK message, in place. |
| `SessionHeap.Session.UpdateProcess` | internal/session/manager.go:816-865 | A scan's measurements, in place; reports a change exactly when one passes the thresholds or the session comes back. |
| `SessionHeap.Session.Clone` | internal/session/manager.go:1121-1148 | The clone shows the same record and shares no object with the original. |
| `SessionHeap.EditAfterClone` | internal/session/manager.go:1121-1148 | Any run of operations after cloning leaves the clone showing the record as it was, while the record goes through the run. |
| `SessionHeap.CompareTurns` | internal/session/manager.go:1091-1119 | The nested comparison loops decide the comparison that skips payloads. |
| `SessionHeap.HookDelta` | internal/session/manager.go:368-392 | Clone, edit in place, compare: the result is the delta between the record before and after. |
| `SessionHeap.SessionFrom` | internal/session/manager.go:276-309 | Every record has a representation as fresh objects that shows exactly it. |
| `Manager.SessionManager.RecordSDKPrompt` | internal/session/manager.go:125-152 | On a known session record, row and notification follow the step, which on another than an SDK session is none; an unknown one changes nothing. |
| `Manager.SessionManager.RecordSDKMessage` | internal/session/manager.go:154-186 | The same for messages. |
| `Manager.SessionManager.SetSDKSessionStatus` | internal/session/manager.go:238-274 | The same for the status marks. |
| `Manager.SessionManager.HandleWebInput` | internal/session/manager.go:772-806 | On a known session record, row and notification follow the step and the prompt waits for the agent; an unknown one changes nothing. |
| `Manager.SessionManager.GetPendingInput` | internal/session/manager.go:808-814 | Hands out the prompt waiting for the session, or nothing, and leaves none waiting; the prompts of others stay. |
| `Manager.PromptsAreHandedOutOnce` | internal/session/manager.go:772-814 | Over any run of prompts (`HandleWebInput`) and polls (`GetPendingInput`) a poll is handed the newest prompt for its session since the last poll, and the next poll nothing. |
| `Manager.SessionManager.HandleEvent` | internal/session/manager.go:311-393 | On known sessions record, row and notification follow the step; unknown ones are created with their row and announced, after the tree if they were put into a story, unless the event is a terminal one. |
| `Manager.SessionManager.HandlePidUpdate` | internal/session/manager.go:816-876 | Record, row (whole, process columns or not at all) and notification follow the scan step. |
| `Manager.SessionManager.MarkDisappeared` | internal/session/manager.go:878-898 | Record, row and notification follow the step; stopped and disappeared sessions are left alone. |
| `Manager.SessionManager.CheckIdleSessions` | internal/session/manager.go:900-930 | In any order each session gets the idle check once and nothing else; records, rows and notifications are those of these checks. |
| `Manager.SessionManager.GetKnownPIDs` | internal/session/manager.go:954-967 | In any order: each positive pid of a session is known, as that of a session that has it, and no other pid is. |
| `Manager.SessionManager.LoadFromStore` | internal/session/manager.go:276-309 | Every row becomes a session, sessions already there keep their objects; in any order each session without a story gets the one found for it, and its row is rewritten exactly then. |
| `Manager.LinkedIff` | internal/session/manager.go:276-309 | A loaded session gets a story, and its row is rewritten, exactly when it has none, is an agent's, and one was found. |
| `Manager.FirstNoted` | internal/session/manager.go:311-366 | A new session is announced once, after the tree if that changed. |
| `Manager.SessionManager.AddRecoveredSession` | internal/session/manager.go:998-1011 | A new session is added with its row; a tracked one is left alone. |
| `Manager.SessionManager.BindPIDToSession` | internal/session/manager.go:1013-1033 | The process's data, an active status and a new hook time, in the record and its row. |
| `Books.SessionsAreSeparate` | internal/session/manager.go:125-930 | However operations on several sessions interleave, record, row and announcements of each are those of its own operations in order. |
| `Scan.FindSession` | internal/scanner/scanner.go:153-162 | In any order: some known session in the process's place, or none exists. |
| `Scan.FindProcess` | internal/scanner/scanner.go:174-184 | In any order: some process in the session's place, and none is found exactly when none exists. |
| `Scan.MatchProcesses` | internal/scanner/scanner.go:139-163 | Phase 3 visits every process once, in any order, with any choice among the sessions that fit; every pid is seen, and records, rows and notifications are those of these updates. |
| `Scan.JudgeSessions` | internal/scanner/scanner.go:165-189 | Phase 4 visits every known pid once, in any order, with any choice among the processes that fit, and updates, marks or skips its session, in record, row and notifications. |
| `Scan.ScanOnce` | internal/scanner/scanner.go:121-193 | A whole scan takes one of the possible walks; records, rows and notifications are those of its updates and marks, then of one idle check of each session; nothing changes if the process table cannot be read. |
| `Scan.ScanActsPerSession` | internal/scanner/scanner.go:121-193 | After a scan record, row and announcements of each session are those of its own verdict and idle check. |
| `ScanOrder.ScanVerdict` | internal/scanner/scanner.go:139-189 | In every order a known session is marked, and then once, exactly when no process has its pid, as the scan compares pids, or its place, and else only updated; others are left alone. |
| `ScanOrder.ScanTouches` | internal/scanner/scanner.go:139-189 | A walk gives a known session a verdict exactly when it matches a process to it or its pid is not taken for a process's. |
| `ScanOrder.FoldsCases` | internal/scanner/scanner.go:154-178 | Agent names match when they differ at most in the case of letters. |
| `ScanOrder.ToInt32Wraps` | internal/scanner/scanner.go:139-170 | The scan's conversion keeps the low 32 bits of a pid, read as a signed number. |
| `ScanOrder.VerdictInEveryOrderIff` | internal/scanner/scanner.go:139-189 | A known session gets a verdict in every order exactly when its pid is a process's, or is not taken for one, or a process without a known pid is in its place and in no other's. |
| `ScanOrder.NoVerdictInAnyOrderIff` | internal/scanner/scanner.go:139-189 | It gets none in any order exactly when its pid is not a process's but taken for one, and every process in its place has a known pid. |
| `ScanOrder.OrderDecidesIff` | internal/scanner/scanner.go:139-189 | In all other cases one order gives it a verdict and another does not. |
| `ScanOrder.KnownInEveryOrderIff` | internal/session/manager.go:954-967 | A session is among the known ones in every order exactly when it has a positive pid and no other session has it. |
| `ScanOrder.ConfusedSession` | internal/scanner/scanner.go:141-170 | A session with pid 2^32 + 5, alone with process 5, is always updated if the process is in its place, and else always passed over. |
| `ScanOrder.CrowdedSession` | internal/scanner/scanner.go:145-170 | With another session in that place too, it is always passed over if the other has pid 5, and else the order decides. |
| `ScanOrder.ScanEndState` | internal/scanner/scanner.go:139-192 | A session without a verdict ends as it was but for the idle check; a lost one disappeared, or stopped as before; any other not disappeared and with the pid of an observed agent. |
| `Recovery.ScanTranscriptFile` | internal/session/recovery.go:318-403 | The candidates of a file are the first qualifying entries of each session id, in order. |
| `Recovery.RecoveredRecord` | internal/session/recovery.go:97-147 | Without a process a recovered session has what its transcript told, an unknown status and nothing else. |
| `Recovery.RecoveredWithProcess` | internal/session/recovery.go:97-147 | A process found for it makes it active with the process's data. |
| `Recovery.Run` | internal/session/recovery.go:89-150 | Afterwards the manager shows the records that recovering the candidates one by one gives; the new ones have their rows, and the other rows are as they were. |
| `Recovery.FirstCandidateWins` | internal/session/recovery.go:97-147 | Tracked sessions are untouched; of the others exactly those with a candidate appear, with the first one's data. |
| `Recovery.FirstEntryWins` | internal/session/recovery.go:89-150 | The first qualifying entry over all lines of all files decides: dropping repeats within a file changes nothing. |
| `Stream.NextKeepsInv` | internal/server/sse.go:68-142 | Every step of manager, hub and connection, the hub waiting with an event in hand included, keeps: the last value on its way for a field that is not stale is the server's, or else the client has it. |
| `Stream.ClientConverges` | internal/server/sse.go:258-335 | Whatever the interleaving, a drained client knows only visible sessions, all of them whose announcement was not dropped, and has the server's value of every field that is not stale. |
| `Stream.EveryRunCatchesUp` | internal/server/sse.go:68-142 | From any reachable state steps of hub and connection alone drain everything: the client then has every visible session as the server had it, but for what was dropped or left out. |
| `Stream.NothingLostOnTheWay` | internal/server/sse.go:68-142 | Whatever the interleaving, what a connected client holds and is about to get is what it held and was about to get, followed by the visible events since that found room in the channel, in order. |
| `Stream.ServerOnItsOwn` | internal/server/sse.go:112-142 | The records are those of the manager's own steps, whatever hub and connection do. |
| `Stream.BuffersAreBounded` | internal/server/sse.go:20-50 | Channel and client queue never hold more than 256 events. |
| `Stream.SnapshotIsCurrent` | internal/server/sse.go:296-335 | A snapshot shows exactly the visible sessions as they are; afterwards only what was on its way can be behind. |
| `Stream.RegisterWaits` | internal/server/sse.go:68-99 | The hub registers nobody while it waits with an event in hand. |
| `Stream.SnapshotAndDeltasConverge` | internal/server/sse.go:258-335 | Without drops, and if every scan update is one whose notice is exact, a drained client holds exactly the visible sessions, although old deltas were applied on top of the newer snapshot. |
| `Stream.OnlyScanFieldsDiverge` | internal/session/manager.go:866-875 | Without drops, whatever the scan updates are, at most status, terminal and creation time can differ. |
| `Stream.ResurrectionIsNotSeen` | internal/session/manager.go:847-875 | A client watching a session come back still shows it disappeared when everything is delivered. |
| `Hub.Client.Send` | internal/server/sse.go:87-96 | A send needs an open channel and queues the message last. |
| `Hub.Client.Close` | internal/server/sse.go:76-82 | A close needs an open channel. |
| `Hub.Client.Receive` | internal/server/sse.go:273-283 | Messages are written in the order sent; a closed channel is drained first. |
| `Hub.Hub.Write` | internal/server/sse.go:258-335 | What a client was written is a beginning of what its user sees of its stretch of events, and all of it once the closed channel is drained. |
| `Hub.Hub.Register` | internal/server/sse.go:71-74 | A registered client gets the events handled from here on. |
| `Hub.Hub.Unregister` | internal/server/sse.go:75-82 | Only a client still registered is closed, so none is closed twice, and its stretch of events ends here. |
| `Hub.Hub.Broadcast` | internal/server/sse.go:83-99 | In any order every registered client, whose channel is open, gets its message; what was ever sent to a client stays exactly what its user sees of its stretch of events. |
| `Hub.DeltasFollowTheTree` | internal/server/sse.go:162-206 | On a consistent store a delta reaches a user exactly when the session's story occurs in the tree this user is sent, unless the user's row on its project is below level 10. |
| `Hub.NewSessionsFollowTheTree` | internal/server/sse.go:162-206 | So does the announcement of a new session. |
| `Hub.TreesGoToUsers` | internal/server/sse.go:162-206 | A tree message goes to every client with a user, and shows a project exactly when the user administers its workspace or has a row on it. |
| `Hub.OthersGetBytesOnly` | internal/server/sse.go:162-206 | Raw bytes go to every client; a client without a user gets nothing else, and an event of another kind reaches nobody. |
| `EventLog.NextKeepsInv` | internal/hook/eventwatcher.go:250-354 | Reading, saving, growth and crashes keep: the deliveries are the first events of the file, each counted at least once, and each torn delivery is repeated. |
| `EventLog.CrashTolerantDelivery` | internal/hook/eventwatcher.go:139-165 | Over any run the delivered events are the file's authenticated events in order, none skipped, with at most one immediate repeat per crash. |
| `EventLog.GrowthAndCrashes` | internal/hook/eventwatcher.go:139-165 | In the crash model whole lines can be appended at any time, and a crash goes back to the saved offset and loses nothing else. |
| `EventLog.CaughtUpDelivery` | internal/hook/eventwatcher.go:250-322 | Once caught up all are delivered, and the repeats are exactly the crashes between a delivery and its save. |
| `EventLog.NoRepeats` | internal/hook/eventwatcher.go:303-311 | Without such a crash the delivered log is the events themselves. |
| `EventLog.EventWatcher.HandleNewLines` | internal/hook/eventwatcher.go:250-322 | Ends at the end of the file whatever the lines are, handles exactly its authenticated events from the offset on, writes its offset after each line that is not blank and at the end, and takes only reading steps of the crash model, also in a program that others before it delivered for. |
| `EventLog.HandledAreAuthentic` | internal/hook/eventwatcher.go:272-311 | The events handled in a stretch are exactly those of its lines that, without the carriage returns and newlines at their end, parse to an event signed with the daemon's non-empty token, each once and in order. |
| `EventLog.SavedAfterLines` | internal/hook/eventwatcher.go:273-315 | The offset is saved after every line of the stretch that is not blank, and nowhere else. |
| `EventLog.Restart` | internal/hook/eventwatcher.go:139-165 | A program started after a crash in any reachable state is where the crash model is, and one read catches up: all programs together delivered the file's events in order, with one repeat for each torn delivery. |
| `EventLog.EventWatcher.ConsumeLine` | internal/hook/eventwatcher.go:273-315 | One line: delivered before it is saved if valid, saved if malformed or unauthorised, passed over if blank. |
| `EventLog.ChunkingIndependence` | internal/hook/eventwatcher.go:250-322 | Reading at any whole-line growth points handles the same events as one run over the final file. |
| `EventLog.TornLineIff` | internal/hook/eventwatcher.go:272-292 | A line read before its end was written delivers what it would whole exactly when its two pieces, judged as lines, amount to it. |
| `EventLog.TornLineIsLost` | internal/hook/eventwatcher.go:272-292 | A line of which one character was read early is delivered in no piece, though whole it is an event. |
| `Hierarchy.Store.DeleteWorkspace` | internal/hierarchy/store.go:193-211 | The six statements leave exactly the rows outside the workspace's subtree, and no foreign key dangles after any of them. |
| `Hierarchy.Store.DeleteProject` | internal/hierarchy/store.go:267-280 | The same for a project. |
| `Hierarchy.Store.DeleteTopic` | internal/hierarchy/store.go:357-368 | The same for a topic. |
| `Hierarchy.WorkspaceSubtree` | internal/hierarchy/store.go:193-211 | Which rows of each table stay, row by row. |
| `Hierarchy.ProjectSubtree` | internal/hierarchy/store.go:267-280 | The same for a project. |
| `Hierarchy.TopicSubtree` | internal/hierarchy/store.go:357-368 | The same for a topic: of topics and stories those of another topic stay, and everything else. |
| `Hierarchy.WorkspaceDeleteKeepsKeys` | internal/hierarchy/store.go:200-210 | The order of the statements keeps all foreign keys valid throughout. |
| `Hierarchy.ProjectDeleteKeepsKeys` | internal/hierarchy/store.go:267-280 | The same for a project. |
| `Hierarchy.ProjectsFirstLeavesPermissions` | internal/hierarchy/store.go:200-203 | With the projects deleted first, no project permission would be deleted at all. |
| `Hierarchy.DeleteOrderMatters` | internal/hierarchy/store.go:200-208 | Topics deleted before their stories, or projects before their topics, leave the foreign keys valid exactly when there were none. |
| `Access.GetAuthorizedWorkspaceIDs` | internal/hierarchy/permissions.go:117-155 | Lists exactly the workspaces with a row of the user's own or on one of their projects. |
| `Access.GetAuthorizedProjectIDs` | internal/hierarchy/permissions.go:158-191 | Lists exactly the projects of a workspace the user administers or has a row on. |
| `Access.WorkspaceCheckIff` | internal/hierarchy/permissions.go:76-86 | The point check on a workspace passes exactly with a row of the user's own on it of at least the level. |
| `Access.ProjectCheckIff` | internal/hierarchy/permissions.go:89-114 | On a project, exactly with a row on it of at least the level, or one of level 100 on its workspace. |
| `Access.SeenIff` | internal/hierarchy/permissions.go:158-191 | A project is seen exactly with any row on it, or one of level 100 on its workspace. |
| `Access.GetFullHierarchy` | internal/hierarchy/store.go:708-730 | The nested loops build the whole tree. |
| `Access.ScopedHierarchyForUser` | internal/server/scope.go:8-53 | The filtering loops build the part of the tree the user sees, as a function of the tables. |
| `Access.TreeShowsSeenProjects` | internal/server/scope.go:30-52 | A project is in the tree exactly when the user administers its workspace or has a row on it. |
| `Access.TreeAgreesWithCheckIff` | internal/hierarchy/permissions.go:89-114 | Tree and point check agree on a project exactly when the user has no row below viewer level there, short of administering the workspace. |
| `Access.TreeShowsWorkspaces` | internal/server/scope.go:47-50 | A workspace is in the tree exactly when the user's own row on it suffices or one of its projects is seen. |
| `Access.StoryInTreeIff` | internal/server/scope.go:55-72 | A story is in the tree exactly when its project is seen. |
| `Access.SessionAccessIffStoryInTree` | internal/server/scope.go:55-72 | Whether a session is accessible and whether the story it resolves to is in the user's tree agree exactly when the user has no too weak row on that story's project. |
| `Access.FilterSessionsForUser` | internal/server/scope.go:74-85 | Exactly the accessible sessions, in order. |
| `StoryRuns.RunTables.UpdateRunStatus` | internal/registry/store.go:541-573 | Start time or error and end time, by status; no other row. |
| `StoryRuns.RunTables.HasRunningRun` | internal/server/story_run_handlers.go:429-440 | Decides whether the story has a queued or running run. |
| `StoryRuns.RunTables.HandleCreateRun` | internal/server/story_run_handlers.go:87-334 | Answers the first failing check in the handler's order and changes nothing; when none fails, one new run and the summary are as the outcome says. |
| `StoryRuns.CreateRefusedForFirst` | internal/server/story_run_handlers.go:87-217 | The answer is the refusal of the first of fourteen checks on the tables and the request that fails, and none if all hold. |
| `StoryRuns.AnswerIsUnique` | internal/server/story_run_handlers.go:87-217 | Any list of checks has one such answer. |
| `StoryRuns.CreatedIff` | internal/server/story_run_handlers.go:87-217 | A run is added exactly when all fourteen hold; otherwise nothing changes. |
| `StoryRuns.RunRowWritten` | internal/server/story_run_handlers.go:214-334 | What the row of the new run holds, outcome by outcome. |
| `StoryRuns.SummaryWritten` | internal/server/story_run_handlers.go:214-334 | What the story's summary says of it, outcome by outcome; a failed registration leaves it. |
| `StoryRuns.RunTables.HandleCancelRun` | internal/server/story_run_handlers.go:367-424 | Answers the first failing check in the handler's order and changes nothing; otherwise the running run of this story is cancelled, and the summary with it. |
| `StoryRuns.CancelRefusedForFirst` | internal/server/story_run_handlers.go:367-424 | The same for cancelling, of six checks. |
| `StoryRuns.CancelledIff` | internal/server/story_run_handlers.go:367-424 | With all six this run and its story's summary are cancelled; otherwise nothing changes. |
| `StoryRuns.RunTables.HandleBindAgent` | internal/server/story_run_handlers.go:21-83 | Answers the first failing check in the handler's order, last the lock, and changes nothing; otherwise the story has the agent. |
| `StoryRuns.BindRefusedForFirst` | internal/server/story_run_handlers.go:21-83 | The same for binding an agent, of nine checks. |
| `StoryRuns.BoundIff` | internal/server/story_run_handlers.go:21-83 | With all nine the story has the agent; otherwise nothing changes. |
| `StoryRuns.RunTables.BindAgentToStory` | internal/hierarchy/store.go:501-524 | Locked exactly when the story has runs and another agent; otherwise the agent is set. |
| `StoryRuns.StorySteps` | internal/hierarchy/store.go:372-488 | Outside the three handlers a story begins without agent and summary, or goes; closing or opening one changes nothing else. |
| `StoryRuns.RunKeepsInv` | internal/server/story_run_handlers.go:21-440 | Over every run of handlers: only the newest run of a story can be active, all its runs carry its agent, ended runs have their end time, and a story's latest run exists. |
| `StoryRuns.EndedRunsStay` | internal/registry/store.go:541-573 | An ended run never changes again. |
| `StoryRuns.AgentIsLocked` | internal/hierarchy/store.go:501-524 | A story with runs keeps its agent as long as it is there. |
| `StoryRuns.MirroredAfterCreateIff` | internal/server/story_run_handlers.go:276-306 | After a new run the story's latest run id and status are its newest run's exactly when the session could be registered. |
| `StoryRuns.RunMirrors` | internal/hierarchy/store.go:527-534 | Without failed registrations every story mirrors its newest run, always. |
| `StoryRuns.FromEmptyTables` | internal/server/story_run_handlers.go:21-440 | From the empty tables on both hold over every run. |
| `Tokens.Browser.LogIn` | internal/server/handlers.go:258-272 | A new token and its cookie make the login that the runs below start from. |
| `Tokens.Store.ValidateToken` | internal/auth/store.go:127-152 | Accepts exactly a token of a user up to its expiry, deletes it after it, never renews. |
| `Tokens.Store.ValidateAndMaybeRenew` | internal/auth/store.go:161-196 | Accepts exactly a token of a user up to its expiry, and renews it for seven days when less than one is left and the write succeeds. |
| `Tokens.Browser.LogOut` | internal/server/handlers.go:274-287 | Revokes the token of the cookie, or else of the bearer header, and clears the cookie. |
| `Tokens.EndedUntilCreated` | internal/auth/store.go:198-203 | A token that was revoked, or presented after its expiry, is never accepted until it is created again, whatever else happens. |
| `Tokens.TokensAreSeparate` | internal/auth/store.go:89-203 | A token is affected by its own steps only, however those of others interleave. |
| `Tokens.RegisteredOwns` | internal/auth/store.go:127-152 | A token is accepted for the user registered for it. |
| `Tokens.LoginSurvivesOthers` | internal/auth/store.go:113-120 | Among any steps of other tokens, a user whose requests are at most a day apart is accepted until a day after the last. |
| `Tokens.Browser.Request` | internal/auth/middleware.go:38-80 | Lets through exactly an accepted token, the cookie's first and else the bearer header's, and sends the cookie again exactly when it was renewed; with a cookie the step is one of the login's. |
| `Tokens.ActiveUserStaysLoggedIn` | internal/auth/store.go:113-120 | Over any requests at most a day apart the token is never rejected, never lasts beyond seven days from the last request, and the cookie ends with it. |
| `Tokens.SafeGapIff` | internal/auth/store.go:161-196 | One day is exactly the longest pause that never costs a login. |

## Left out

- SQLite, JSON, HTTP, bcrypt, SHA-256, fsnotify, gopsutil, the SDK processes and git: rows, parsed payloads, requests, hashes, process tables and outcomes are given values; writes succeed.
- Session keys are taken as given, one per session; the hash that makes them is not modelled.
- What the extraction helpers find in a payload arrives with the event (`SessionTypes.Facts`); the ISO timestamps in the agent output, the random order of fields in a payload object and the compaction of stored JSON are not modelled.
- RegisterSDKSession on an existing session, whose delta leaves out event fields, and RegisterSDKSessionForStory, which writes only the row's story id.
- Shallow copies returned by GetSession and GetSnapshot share slices with the live record; snapshots and deltas are values here.
- Stream.ClientConverges: does not model the fields outside the delta's vocabulary (memory of the last hook, payload, story id, source) or a change of what the user may see during the connection.
- Hub.Client.Send: does not model the bound of the send channel, on which the hub waits; the hub and a leaving client can wait for each other, and no claim of progress is made. Stream models the bound.
- Stream.Start: does not model sessions recovered from transcripts, which are added before anyone connects and are not announced.
- Re-creation and truncation of the event log, read errors in its middle, a missing offset file and a torn write of the offset file.
- EventLog.CrashTolerantDelivery: does not model lines appended in pieces; `TornLineIff` says what happens then.
- ScanOrder.ScanVerdict: does not say which process updates a session last when several can; the order of a Go map decides.
- Scan.ScanOnce: does not model other operations between its phases; EqualFold is on ASCII letters, which decides it for the three agent names it is compared with.
- The detection of terminals and agent processes, and the search for a process at recovery, are results given to the model.
- Concurrent creation of runs: the check and the insert are one step here, as are all handlers. Nothing in the code moves a run to completed.
- Access.ScopedHierarchyForUser: does not model a missing hierarchy store, for which the tree is empty but every session is accessible, or errors of the database.
- Users, roles, capabilities, profiles, default agents and the creation of rows in the hierarchy: settled by reading one statement each.
- Tokens.LoginSurvivesOthers: does not model failed renewal writes, after which the old expiry stays, or clients that present the token without renewing it; `Tokens.Browser.Request` and `Tokens.Store.ValidateToken` do.
- CORS, cookie attributes, routes, logging and the agent registry snapshot.
