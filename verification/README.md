# Exeora gateway: a verified model

Exeora lets an agent work on a person's own machines. Between the two sits a
gateway: Durable Objects that hold the sockets of machines, callers, terminals
and panels, a database of projects and where they live, and an audit pipeline
that records every call. This project models the parts of it that carry state
across events, and the pure transformations that must not change a meaning, and
proves what they promise over every input and every run.

`dafny verify dfyconfig.toml` checks all of it.

## How it is organised

Each stateful part comes in three layers. A model gives its state as a value and
each event as a step. Theorems about the model are invariants of every step and
statements about every run. A class with mutable fields, written with the
source's branches and loops, is proved to perform exactly those steps, so that
the theorems are about it too.

| part | model | theorems | code |
|---|---|---|---|
| device relay | `RelayModel` | `RelaySafety`, `RelayTheorems`, `RelayFaults`, `RelayReconnects`, `RelayStrands`, `RelayLogs`, `RelayDelivers` | `DeviceRelay` |
| terminals | `TerminalModel`, `TerminalReplay`, `TerminalIsolate` | `TerminalSafety`, `TerminalTheorems`, `TerminalLifetimes`, `TerminalIsolateViews`, `TerminalIsolateTheorems`, `TerminalIsolateRuns` | `TerminalSessions` |
| workspace panels | `PanelModel` | `PanelSafety`, `PanelTheorems`, `PanelDelivers` | `WorkspacePanel` |
| where projects live | `LocationModel` | `LocationTheorems`, `LocationEffects` | `AccountTables` |
| erasure queue | `AuditDeletions` | the same | the same, over `LeasePages` |
| audit outbox and stream | `AuditOutbox` | the same | the same, over `LeasePages` |
| activity and usage | `WarehouseCalls`, `WarehouseUsage` | the same | methods there |
| canonical arguments, approvals | `CanonicalJson`, `Approvals` | `CanonicalJsonTheorems`, `Approvals` | functions |
| command policies | `CommandPolicies` | the same | `NarrowPolicy` there |
| schema rewriting | `SchemaExpansion` | the same | functions |
| names | `PlaceNames`, `WorkspaceSlugs` | the same | methods there |

## What is taken as given

- A Durable Object handler runs without interruption between awaits that are not
  on storage. The wait for a sleeping machine, the write of a dropped machine's
  presence and the storage write of a panel's connect are interleaving points:
  in the models anything may happen in between.
- The queue of unwatched output and the times of the last writes are module-level.
  `TerminalTheorems` and `TerminalSessions` are about a relay alone in its isolate;
  `TerminalIsolate` and what builds on it are about one that shares them with any
  number of others. Nothing is assumed there of what an executor says, except where
  `UnseatedIsUnspoken` asks that it speaks only of sessions its relay told it of.
- A socket has one terminal event, close or error, and leaves the set with it.
- One SQL statement, and one batch of statements, is atomic. A subquery that
  picks one of several equally ranked rows may pick any, but the same for every
  column it is read for.
- Clocks do not run backwards. Identifiers, tokens, generations and invocations
  that are drawn are new. A panel or terminal ticket may be drawn again; the
  theorems about tickets speak of what happens between two uses.
- SHA-256 has no collisions, and the codec brings an approval state back as it
  was minted or not at all.
- The records of one call agree on who made it, where, with which tool and when.
- The start day of a rollup stays the same over a run.
- Time, network and message contents are parameters: whether a send is
  delivered, how a wake ends, what a stream acknowledges, what a query returns
  first. A decoded frame is a value; a table is a map.

## Where the code does less than its prose

Each of these is a lemma with the run or the input that shows it, and beside it
the exact condition under which the promise holds.

- A second start frame of a caller whose machine went back to sleep can be
  answered by a failed wake, which writes no end line for the call already
  logged (`RelayLogs.WakeCanLoseALine`); a caller that leaves during the wake is
  still sent down (`RelayLogs.WakeCanSendForNobody`). `RelayLogs.LogLinesPair`
  says these are the only two ways, and `RelayLogs.OneStartPairs` that a caller
  that starts once only has the second.
- If the active executor leaves while a newcomer is attached that has not said
  hello, its calls are failed neither then nor by the hello
  (`RelayStrands.SwapCanStrand`, exact in `RelayStrands.StrandedExactly`);
  `RelayStrands.CallsInFlight` says what every other call in flight waits for.
- Relays of one isolate share one queue of unwatched output. Four things come of it:
  another relay can store this one's output as its own
  (`TerminalIsolateRuns.OthersAlarmTakesOutput`); this relay can store another's
  session over one of its own (`TerminalIsolateRuns.AFlushCanReplaceARow`) or at a
  target where it has none (`TerminalIsolateRuns.AFlushCanTakeATarget`); and a session
  that was taken can be spoken for from elsewhere
  (`TerminalIsolateRuns.OthersShellSpeaksHere`). A viewer that lands on a session of
  its own relay, of which nothing was lost and which was not spoiled, is replayed its
  exact output (`TerminalIsolateTheorems.SharedQueueKeepsTheTail`). When these things
  happen is exact in `LostExactly`, `OverwrittenExactly`, `StrangersAreSeatedExactly`,
  `SpokenForExactly` and `ToldExactly` there; what the next viewer then misses or is
  shown in `TakenIsMissed` and `WhatWasPutInIsShown`. Later ones may be right again
  (`ALongChunkHeals`). Alone in its isolate a relay stores no session but its own
  (`TerminalTheorems.FlushesStayHome`).
- A panel whose cancel table is full does not write a cancellation down
  (`PanelTheorems.FullTableForgets`, exact in
  `PanelTheorems.CancellationHoldsExactly`).
- `setDefaultLocation` with a stale idea of the default can move a workspace
  (`LocationTheorems.StaleDefaultMovesAWorkspace`, exact in
  `LocationTheorems.ChoosingADefault`).
- An outcome that arrives while a batch carries its row as incomplete can be
  lost (`AuditOutbox.ALateOutcomeCanBeLost`, exact in
  `AuditOutbox.OutcomesAreLostExactly`). The hour that caps the retry delay is
  never reached: the exponent stops at 1024 seconds.
- Overlapping rollups can move the checkpoint back
  (`WarehouseUsage.OverlapCanMoveTheCheckpointBack`, exact in
  `WarehouseUsage.MovesBackExactly`); every day it covers was still read.
- A start day moved past the target lets pruning go ahead while a backlog is counted
  behind an older checkpoint (`WarehouseUsage.AMovedStartHidesABacklog`, exact in
  `WarehouseUsage.BacklogIsWhatIsLeft`).
- A local policy's allow list is ignored unless the file also says `allow_list`
  (`CommandPolicies.AnAllowListAloneIsIgnored`, exact in
  `CommandPolicies.AnAllowListNeedsItsMode`).
- `expandTypeArrays` overwrites an `anyOf` beside a list of types
  (`SchemaExpansion.AnAnyOfBesideTypesIsLost`, exact in
  `SchemaExpansion.ExpandAlike`).
- The search for a free workspace slug sees only slugs that start with the
  wanted one, and cutting to length can lose that start
  (`WorkspaceSlugs.LongSlugsAreCut`, exact in `WorkspaceSlugs.CollidesExactly`).

## Model

| member | source | states |
|---|---|---|
| `RelayTheorems.AtMostOnce` | apps/gateway/src/relay-do.ts:421-464 | over every run a caller's request goes down to one executor at most once, and the caller is given at most one answer |
| `RelayTheorems.SettledForever` | apps/gateway/src/relay-do-callers.ts:221-239 | `settled` never goes back: from the moment a caller or an approval is settled its attachment is the same for the rest of the run |
| `RelayTheorems.RunLater` | apps/gateway/src/relay-do-callers.ts:206-239 | along a run the wire only grows and attachments only evolve: ids and roles stay, a dispatch and its deadline are not undone |
| `RelayTheorems.StepOutput` | apps/gateway/src/relay-do-caller-starts.ts:152-279 | a call goes down only from its own start, on an awake machine, before its deadline, for a caller neither settled, cancelled nor dispatched, to the executor routed to; a result or a decision answers only the caller of its id and role that still waits |
| `RelayTheorems.EveryEventJustified` | apps/gateway/src/relay-do.ts:149-237 | for every event of every run, the step that let it out and the reason that step had |
| `RelaySafety.NextKeeps` | apps/gateway/src/relay-do.ts:149-267 | every step keeps the books: calls, answers, log lines and attachments of every socket agree |
| `RelayTheorems.RunKeeps` | apps/gateway/src/relay-do.ts:110-267 | the books hold after every run |
| `RelayFaults.StepAccounts` | apps/gateway/src/relay-do-callers.ts:262-350 | every error a step gives has the code that belongs to its cause and the cause holds: expired, not connected, too old, unroutable, unsendable, wake failed, replaced, dropped, revoked, unreadable; a question lapses only by its deadline, a drop or a revocation; a call is shown ending under the target it was shown starting |
| `RelayFaults.EveryFaultHasItsCause` | apps/gateway/src/relay-do-caller-starts.ts:30-279 | the same for every error of every run, with the step that caused it |
| `RelayReconnects.HelloTakesOver` | apps/gateway/src/relay-do-hello.ts:39-89 | a valid hello leaves its socket the one routable executor attached, and the one calls go to |
| `RelayReconnects.RoutesToTheLastHello` | apps/gateway/src/relay-do-callers.ts:111-127 | over every run at most one attached executor is active, and it is the one that said hello last |
| `RelayReconnects.ReplacedIsNotRoutedTo` | apps/gateway/src/relay-do-callers.ts:129-169 | over every run an executor that was replaced stays replaced, is not routed to and is sent no call, until it says a supported hello itself |
| `RelayReconnects.HelloStrandsNobody` | apps/gateway/src/relay-do-callers.ts:129-169 | a hello settles exactly the dispatched callers, and exactly when it replaced another executor; every other caller is as it was |
| `RelayReconnects.DropStrandsNobody` | apps/gateway/src/relay-do-terminal-sessions.ts:309-324 | carrying out a drop settles every dispatched caller and leaves every other one untouched |
| `RelayReconnects.FailCallersDoes` | apps/gateway/src/relay-do-callers.ts:262-282 | `failCallers`, seen from any attached socket: which are marked, and that nothing else changes |
| `RelayReconnects.RevokeSettlesAll` | apps/gateway/src/relay-do.ts:403-417 | after a revocation no attached caller or approval is open |
| `RelayStrands.CallsInFlight` | apps/gateway/src/relay-do-callers.ts:198-282 | over every run, a caller whose call was sent down and that is still open waits for an executor that is attached and sent it, for a drop that is still to be carried out, or for one that left beside another routable executor, with no replacing hello and no drop since |
| `RelayStrands.StrandedBySwap` | apps/gateway/src/relay-do-callers.ts:198-204 | a caller that waits for nothing, its executor gone and no drop pending, was left behind exactly there, and nothing has settled calls since |
| `RelayStrands.StrandedExactly` | apps/gateway/src/relay-do-callers.ts:198-204 | over every run, a call in flight with no drop pending is stranded exactly when the executor it was sent to left, at a step that left another routable one behind |
| `RelayStrands.SwapCanStrand` | apps/gateway/src/relay-do-callers.ts:198-204 | a run that strands one: the active executor leaves beside a newcomer without hello, and the newcomer's hello does not fail its call either |
| `RelayLogs.LogLinesPair` | apps/gateway/src/relay-do-logs.ts:118-139 | every call shown starting is shown ending once its caller is answered or gone, except exactly when a failed wake answered it or it was sent after its caller had left |
| `RelayLogs.StartsAreSpent` | apps/gateway/src/relay-do.ts:445-463 | a start waits, is sent or fails with its wake, never two of these, over every run |
| `RelayLogs.OneStartPairs` | apps/gateway/src/relay-client.ts:95-228 | for a caller that sends one start, as the gateway's own do, lines pair except exactly when the call was sent after its caller had left |
| `RelayLogs.OpenCallsAreRunning` | apps/gateway/src/relay-do-logs.ts:97-114 | while its caller is attached and unanswered, a logged call has a start line and no end line |
| `RelayLogs.LogsAreShown` | apps/gateway/src/relay-do-caller-starts.ts:281-302 | a caller is logged under a target exactly when the wire shows it starting there |
| `RelayLogs.SyncListsWhatRuns` | apps/gateway/src/relay-do-logs.ts:83-116 | the list a new tab is given holds exactly the attached callers shown starting on its target and not yet ending (and not answered by a failed wake) |
| `RelayLogs.WakeCanLoseALine` | apps/gateway/src/relay-do.ts:445-449 | a run in which a second start's failed wake answers a logged call without an end line |
| `RelayLogs.WakeCanSendForNobody` | apps/gateway/src/relay-do.ts:450-463 | a run in which a caller that left during the wake is still sent down |
| `DeviceRelays.DeviceRelay.constructor` | apps/gateway/src/relay-do.ts:84-98 | a new relay is the empty state runs start from |
| `DeviceRelays.DeviceRelay.ExecutorSocket` | apps/gateway/src/relay-do-callers.ts:111-127 | the two passes over the sockets find the one routed to |
| `DeviceRelays.DeviceRelay.Connect` | apps/gateway/src/relay-do.ts:110-147 | accepting a socket is the connect step |
| `DeviceRelays.DeviceRelay.SettleCaller` | apps/gateway/src/relay-do-callers.ts:221-239 | marks, logs, answers and closes an open caller, and leaves a settled one alone |
| `DeviceRelays.DeviceRelay.FailRole` | apps/gateway/src/relay-do-callers.ts:262-282 | one of the loops of `failCallers` |
| `DeviceRelays.DeviceRelay.FailEveryCaller` | apps/gateway/src/relay-do-callers.ts:262-282 | all of `failCallers`, approvals and their terminals included |
| `DeviceRelays.DeviceRelay.ReplaceOtherExecutors` | apps/gateway/src/relay-do-callers.ts:129-169 | marks and closes every other executor, then settles what went down it |
| `DeviceRelays.DeviceRelay.HandleHello` | apps/gateway/src/relay-do-hello.ts:39-89 | is the hello step, an unsupported protocol included |
| `DeviceRelays.DeviceRelay.CallerFrame` | apps/gateway/src/relay-do.ts:421-445 | a cancel is done at once, a start waits for the machine |
| `DeviceRelays.DeviceRelay.DispatchCall` | apps/gateway/src/relay-do-caller-starts.ts:88-279 | the three dispatching handlers, guard by guard |
| `DeviceRelays.DeviceRelay.AskPerson` | apps/gateway/src/relay-do-caller-starts.ts:30-87 | the approval start handler |
| `DeviceRelays.DeviceRelay.ResumeCaller` | apps/gateway/src/relay-do.ts:446-464 | the rest of a start after the wake, with its re-read |
| `DeviceRelays.DeviceRelay.ExecutorResult` | apps/gateway/src/relay-do.ts:204-226 | a result frame, readable or not |
| `DeviceRelays.DeviceRelay.AnswerApproval` | apps/gateway/src/relay-do-callers.ts:284-300 | settles the question it names; true exactly when it was open, dispatched and in time |
| `DeviceRelays.DeviceRelay.WebSocketGone` | apps/gateway/src/relay-do.ts:239-267 | the terminal event of any socket |
| `DeviceRelays.DeviceRelay.FinishDrop` | apps/gateway/src/relay-do-terminal-sessions.ts:309-324 | the failing of callers after presence was written |
| `DeviceRelays.DeviceRelay.RevokeThisDevice` | apps/gateway/src/relay-do.ts:403-417 | is the revoke step |
| `RelayDelivers.ResultReachesItsCaller` | apps/gateway/src/relay-do.ts:204-226 | over every run, a readable result from an attached executor is the answer of the first attached caller of its role and id that still waits, by role, and settles and closes it; its log line ends |
| `RelayDelivers.UnreadableReachesItsCaller` | apps/gateway/src/relay-do-callers.ts:320-350 | one that cannot be read is reported to the same caller as an internal error |
| `RelayDelivers.StrayResults` | apps/gateway/src/relay-do.ts:204-226 | a result nobody waits for, or from no attached executor, changes nothing |
| `RelayDelivers.DecisionReachesItsApproval` | apps/gateway/src/relay-do-callers.ts:284-300 | a decision before the deadline is the answer of the question it names, one from the deadline on is none, and the machine is told the question is over |
| `RelayDelivers.StrayDecisions` | apps/gateway/src/relay-do-callers.ts:284-300 | a decision on a question that is not open or was not shown changes nothing |
| `RelayDelivers.StartIsQueued` | apps/gateway/src/relay-do.ts:421-449 | a start of an attached open caller waits for the machine, and changes nothing else |
| `RelayDelivers.StartIsDecided` | apps/gateway/src/relay-do-caller-starts.ts:88-279 | once the machine is awake, a start that no guard refuses is sent to the executor routed to and logged; one that is refused is answered with the code of the first guard that does, in the code's order |
| `RelayDelivers.FailedWakeIsTold` | apps/gateway/src/relay-do.ts:445-449 | a start whose machine could not be woken is answered so, with the code of whether it is still waking |
| `RelayDelivers.QuestionIsAsked` | apps/gateway/src/relay-do-caller-starts.ts:30-87 | a question in time is shown until its deadline, and put to a machine that said it can ask |
| `RelayDelivers.CancelReachesTheMachine` | apps/gateway/src/relay-do-callers.ts:175-196 | a caller's cancellation goes to the executor routed to under the caller's own id, ends its log line, and settles and closes it |
| `RelayDelivers.LeavingReachesTheMachine` | apps/gateway/src/relay-do.ts:239-267 | and so does the leaving of one that still waits |
| `RelayDelivers.WithdrawnIsResolved` | apps/gateway/src/relay-do.ts:239-267 | a question that is cancelled or left is resolved on the machine |
| `RelayDelivers.SettledWasTold` | apps/gateway/src/relay-do-callers.ts:221-239 | over every run, whoever is settled and still attached was given an answer, or cancelled itself |
| `RelayDelivers.RevokeShutsDown` | apps/gateway/src/relay-do.ts:403-417 | a revocation shuts every attached executor down |
| `RelayDelivers.RevokeEndsTheRest` | apps/gateway/src/relay-do.ts:403-417 | closes every log that is watched, and resolves every question on the machine |
| `RelayDelivers.UnsupportedIsSentAway` | apps/gateway/src/relay-do-hello.ts:39-89 | a hello of another protocol is sent away, and nothing else changes |
| `RelayDelivers.HelloIsRemembered` | apps/gateway/src/relay-do-hello.ts:39-89 | a supported one is remembered with its device and what it announced, is greeted, and shuts every other executor down |
| `TerminalReplay.TailIsASuffix` | apps/gateway/src/relay-do-terminal-sessions.ts:113-123 | what should be replayed is a suffix of whole chunks, within 32 KiB or a single chunk, and not empty of a non-empty output |
| `TerminalReplay.TailIsLongest` | apps/gateway/src/relay-do-terminal-sessions.ts:113-123 | no longer suffix fits |
| `TerminalReplay.TrimIsTail` | apps/gateway/src/relay-do-terminal-sessions.ts:118-122 | the dropping loop computes that tail and its length |
| `TerminalReplay.AppendIsTail` | apps/gateway/src/relay-do-terminal-sessions.ts:113-123 | appending to the tail of an output gives the tail of the longer output |
| `TerminalReplay.AppendStaysBounded` | apps/gateway/src/relay-do-terminal-sessions.ts:113-123 | `replayBytes` stays the sum of the chunk lengths and within the bound; what is left is a suffix |
| `TerminalReplay.AppendAllSuffix` | apps/gateway/src/relay-do-terminal-sessions.ts:182-210 | chunks put away one by one leave a bounded suffix of row and chunks |
| `TerminalReplay.ReplayBuffer.AppendReplay` | apps/gateway/src/relay-do-terminal-sessions.ts:113-123 | the loop over the array; the new chunk is always kept |
| `TerminalSafety.EffectKeeps` | apps/gateway/src/relay-do-terminal-sessions.ts:182-256 | every step keeps sessions, viewers, queue, rows and the output history in order |
| `TerminalTheorems.BehaviorKeeps` | apps/gateway/src/relay-do-terminal-sessions.ts:113-335 | the invariant holds at every moment of every run |
| `TerminalTheorems.ReattachSeesTheTail` | apps/gateway/src/relay-do-terminal.ts:86-135 | a viewer is replayed exactly the tail of all its shell emitted, across any attach, detach, takeover, queueing and flush, unless a hibernation came while that session was watched or queued |
| `TerminalTheorems.SleptExactly` | apps/gateway/src/relay-do-terminal-sessions.ts:43-49 | what the model keeps of hibernations is exactly the sessions that were in memory at one |
| `TerminalTheorems.ReattachSeesNothingOutOfOrder` | apps/gateway/src/relay-do-terminal-sessions.ts:125-140 | whatever hibernations drop, a replay is an order-preserving, bounded subsequence of the output |
| `TerminalTheorems.AttachJoinsOrOpens` | apps/gateway/src/relay-do-terminal.ts:90-120 | a newcomer joins the session stored at its target and opens its own only where none is |
| `TerminalTheorems.NewestViewerWins` | apps/gateway/src/relay-do-terminal.ts:84-88 | at most one live viewer per target, and it shows the session stored there |
| `TerminalTheorems.DeadlinesAreCovered` | apps/gateway/src/relay-do-terminal-sessions.ts:274-301 | after every step an alarm is pending no later than every viewer, session, queue and ticket deadline, or a second after it was set |
| `TerminalTheorems.AlarmLeavesNothingOverdue` | apps/gateway/src/relay-do-terminal.ts:312-352 | right after an alarm no stored session is past 30 idle minutes or 8 hours, and no ticket past its time |
| `TerminalTheorems.TicketsAreSpentOnce` | apps/gateway/src/relay-do-terminal.ts:278-310 | two grants of one token have an issue of it between them |
| `TerminalTheorems.TicketsDoNotReturn` | apps/gateway/src/relay-do-terminal.ts:278-310 | a token that is gone only comes back by being issued |
| `TerminalTheorems.FlushesStayHome` | apps/gateway/src/relay-do-terminal-sessions.ts:241-256 | over every run of a relay alone in its isolate a flush stores no session that was not stored |
| `TerminalIsolateTheorems.MoveKeepsIsolate` | apps/gateway/src/relay-do-terminal-sessions.ts:43-49 | with any number of other relays on the same queue, and whatever any executor says, every step of any of them keeps this relay's own sessions, viewers, entries and rows in order, but for the sessions it is said to spoil |
| `TerminalIsolateViews.ViewAct` | apps/gateway/src/relay-do-terminal-sessions.ts:162-256 | what a step of this relay does to some of its sessions is what it would do if they were all there is, unless it writes another session over one of them |
| `TerminalIsolateTheorems.LostExactly` | apps/gateway/src/relay-do-terminal-sessions.ts:95-107 | something of a session is lost exactly when another relay drained, cleared or forgot its entry, or memory was dropped while it held something of it |
| `TerminalIsolateTheorems.SpoiledExactly` | apps/gateway/src/relay-do-terminal-sessions.ts:212-256 | a session is spoiled exactly when another one was written over its row, or another relay's executor put output into its entry |
| `TerminalIsolateTheorems.OverwrittenExactly` | apps/gateway/src/relay-do-terminal-sessions.ts:241-256 | of all steps of this relay, exactly a drain whose last entry for the target is another session's writes over a session: the alarm's, or that of output written through |
| `TerminalIsolateTheorems.StrangersAreSeatedExactly` | apps/gateway/src/relay-do-terminal-sessions.ts:241-256 | an alarm leaves another relay's session at a target that held none exactly when such an entry is the last one for it |
| `TerminalIsolateTheorems.SpokenForExactly` | apps/gateway/src/relay-do-terminal-sessions.ts:212-239 | another relay puts output into a session's entry exactly when its executor speaks of that session, which it holds a row or the entry of and nobody watches there, and the output stays queued and changes the entry |
| `TerminalIsolateTheorems.ToldExactly` | apps/gateway/src/relay-do-terminal.ts:133-149 | a relay told its executor of a session exactly when it seated a viewer at it |
| `TerminalIsolateTheorems.UnseatedIsUnspoken` | apps/gateway/src/relay-do-terminal.ts:90-149 | if executors speak only of what they were told, nothing is put into a session from elsewhere until another relay has seated a viewer at it |
| `TerminalIsolateTheorems.SharedQueueKeepsTheTail` | apps/gateway/src/relay-do-terminal.ts:86-135 | over every run of relays that share a queue, a viewer that lands on one of this relay's sessions is replayed exactly the tail of its output, provided nothing of that session was lost and it was not spoiled |
| `TerminalIsolateTheorems.SharedQueueKeepsTheOrder` | apps/gateway/src/relay-do-terminal-sessions.ts:125-140 | whatever was lost of a session that was not spoiled, its viewers are replayed an order-preserving, bounded subsequence of its output |
| `TerminalIsolateTheorems.TakenIsMissed` | apps/gateway/src/relay-do-terminal-sessions.ts:241-256 | when another relay took a session's entry, the next viewer is replayed the row without it, which is the tail exactly when the entry held no more than the row |
| `TerminalIsolateTheorems.WhatWasPutInIsShown` | apps/gateway/src/relay-do-terminal-sessions.ts:212-239 | when output was put into the entry of a session nobody watched, the next viewer is replayed that entry, which is the tail exactly when it is what was held before |
| `TerminalIsolateTheorems.ALongChunkHeals` | apps/gateway/src/relay-do-terminal-sessions.ts:113-123 | one chunk longer than the bound makes the replay the tail again, whatever was missed before |
| `TerminalIsolate.LastEntryIsStored` | apps/gateway/src/relay-do-terminal-sessions.ts:241-256 | draining leaves at a target the entry for it that was drained last, whoever it is of, and otherwise the row as it was |
| `TerminalIsolateRuns.OthersAlarmTakesOutput` | apps/gateway/src/relay-do-terminal-sessions.ts:241-245 | a run in which another relay's alarm stores this one's queued chunk as its own and the next viewer here does not see it |
| `TerminalIsolateRuns.AFlushCanReplaceARow` | apps/gateway/src/relay-do-terminal-sessions.ts:247-256 | a run in which this relay's alarm stores another one's session over its own row and the next viewer here is shown that |
| `TerminalIsolateRuns.AFlushCanTakeATarget` | apps/gateway/src/relay-do-terminal-sessions.ts:247-256 | a run in which it stores that session where this relay has none, and the next viewer here is seated at it |
| `TerminalIsolateRuns.OthersShellSpeaksHere` | apps/gateway/src/relay-do-terminal.ts:90-149 | a run in which another relay takes a session, seats a viewer at it and its executor, told of that id, speaks: the next viewer here is shown that output amid its own |
| `TerminalLifetimes.OnlyUseCounts` | apps/gateway/src/relay-do-terminal-sessions.ts:212-272 | over every run, a session begins when its first viewer sits down and is used when a viewer sits down or types or its shell prints; nothing else but a hibernation moves its last use |
| `TerminalLifetimes.AlarmSparesExactly` | apps/gateway/src/relay-do-terminal.ts:312-352 | over every run, an alarm leaves a stored session stored, and its viewer live, exactly when less than 30 minutes passed since the latest of its row's, queued entry's and viewer's activity and less than 8 hours since its start |
| `TerminalLifetimes.UsedOnce` | apps/gateway/src/relay-do-terminal-sessions.ts:263-272 | every stored session has such a latest activity |
| `TerminalLifetimes.AlarmSparesTickets` | apps/gateway/src/relay-do-terminal.ts:312-352 | an alarm drops exactly the tickets whose time is over |
| `TerminalLifetimes.TicketsAreGood` | apps/gateway/src/relay-do-terminal.ts:244-310 | over every run, a ticket that was issued and not asked for since is granted exactly for its own scope, within 30 seconds |
| `TerminalLifetimes.AlarmIsInTime` | apps/gateway/src/relay-do-terminal-sessions.ts:274-301 | over every run, an alarm is pending by 30 minutes after each session's last use, 8 hours after its start, 5 seconds after the last write of what is queued and the end of every ticket, or within a second of when it was set |
| `TerminalLifetimes.OutputIsKept` | apps/gateway/src/relay-do-terminal-sessions.ts:212-256 | over every run, output goes to the buffer of whoever watches its session; else into the row, when that was not written in the last five seconds; else into the queue; and nowhere besides |
| `TerminalLifetimes.StrayOutput` | apps/gateway/src/relay-do-terminal-sessions.ts:212-239 | output of a session that is not stored changes nothing |
| `TerminalSessions.Sessions.constructor` | apps/gateway/src/relay-do-terminal-sessions.ts:17-50 | no viewer, no session, no ticket |
| `TerminalSessions.Sessions.LiveTerminalForSession` | apps/gateway/src/relay-do-terminal-sessions.ts:172-180 | the first attached unsettled viewer of a session is the only one |
| `TerminalSessions.Sessions.LiveTerminalForTarget` | apps/gateway/src/relay-do-terminal-sessions.ts:162-170 | the same by target |
| `TerminalSessions.Sessions.StoredTerminalById` | apps/gateway/src/relay-do-terminal-sessions.ts:81-87 | finds the one row of a session |
| `TerminalSessions.Sessions.LastTerminalActivity` | apps/gateway/src/relay-do-terminal-sessions.ts:263-272 | the later of the row's and the viewer's activity |
| `TerminalSessions.Sessions.ScheduleWorkspaceAlarm` | apps/gateway/src/relay-do-terminal-sessions.ts:274-301 | sets the alarm to the earliest of all deadlines, but not within a second |
| `TerminalSessions.Sessions.FlushDetachedSession` | apps/gateway/src/relay-do-terminal-sessions.ts:247-256 | writes one queued session |
| `TerminalSessions.Sessions.FlushAllDetached` | apps/gateway/src/relay-do-terminal-sessions.ts:241-245 | one by one, every queued session reaches its own row |
| `TerminalSessions.Sessions.TouchDetachedSession` | apps/gateway/src/relay-do-terminal-sessions.ts:212-239 | queues a chunk or writes it through, and arms the window |
| `TerminalSessions.Sessions.PersistDetachedTerminal` | apps/gateway/src/relay-do-terminal-sessions.ts:182-210 | what a viewer that leaves puts into its row |
| `TerminalSessions.Sessions.DetachViewer` | apps/gateway/src/relay-do-terminal.ts:355-371 | sends the previous viewer away and keeps its output |
| `TerminalSessions.Sessions.AcceptTerminalSocket` | apps/gateway/src/relay-do-terminal.ts:84-155 | is the attach move; exactly the replay is sent, and only on reattach |
| `TerminalSessions.Sessions.ForwardOutput` | apps/gateway/src/relay-do-terminal.ts:158-189 | is the output move, watched or not |
| `TerminalSessions.Sessions.ForwardExit` | apps/gateway/src/relay-do-terminal.ts:158-189 | is the exit move: viewer, queue and row go |
| `TerminalSessions.Sessions.ForgetStoredTerminal` | apps/gateway/src/relay-do-terminal-sessions.ts:95-103 | row, queue and touch of a session go |
| `TerminalSessions.Sessions.ViewerGone` | apps/gateway/src/relay-do.ts:239-267 | is the leave move, with its different schedules for close and error |
| `TerminalSessions.Sessions.IssueTicket` | apps/gateway/src/relay-do-terminal.ts:244-276 | is the issue move |
| `TerminalSessions.Sessions.ConsumeTicket` | apps/gateway/src/relay-do-terminal.ts:278-310 | grants exactly a live ticket of the scope, and removes it whatever the answer |
| `TerminalSessions.Sessions.CloseTerminalTarget` | apps/gateway/src/relay-do-terminal.ts:374-397 | true exactly when there was a shell, and none is left |
| `TerminalSessions.Sessions.ViewerFrame` | apps/gateway/src/relay-do-terminal.ts:191-236 | is the move of a frame that counts as activity, or closes |
| `TerminalSessions.Sessions.ExpireWorkspaceSessions` | apps/gateway/src/relay-do-terminal.ts:312-352 | is the alarm move: flush, drop the overdue one by one, schedule |
| `TerminalSessions.Sessions.ResetExecutorTerminals` | apps/gateway/src/relay-do-terminal-sessions.ts:331-335 | is the move of another executor's hello |
| `PanelSafety.MoveKeeps` | apps/gateway/src/panel-relay-do.ts:145-379 | every step keeps sockets, generations, pending commands and answers in order |
| `PanelTheorems.BehaviorKeeps` | apps/gateway/src/panel-relay-do.ts:54-379 | the invariant holds at every moment of every run |
| `PanelTheorems.OneSocketIsActive` | apps/gateway/src/panel-relay-do.ts:145-183 | however connects interleave, at most one attached socket carries the active generation |
| `PanelTheorems.PendingBelongsToTheActive` | apps/gateway/src/panel-relay-do.ts:185-249 | at most eight pending, each on the active socket and generation |
| `PanelTheorems.ResolvesExactlyOnce` | apps/gateway/src/panel-relay-do.ts:324-343 | every invocation is answered once or awaited once, never both |
| `PanelTheorems.ResultsAreOwnReplies` | apps/gateway/src/panel-relay-do.ts:290-322 | a result comes only from a reply of the socket, generation and id the command was sent under, in time |
| `PanelTheorems.NothingIsLeftRunning` | apps/gateway/src/panel-relay-do.ts:324-348 | every command sent is pending, answered, lost with the object, or called off on its socket |
| `PanelTheorems.OthersCannotSettle` | apps/gateway/src/panel-relay-do.ts:273-322 | nothing another socket sends, nor its end, touches a pending command |
| `PanelTheorems.ReplacedForGood` | apps/gateway/src/panel-relay-do.ts:158-183 | a generation that was replaced never becomes active again |
| `PanelTheorems.TicketsAreFew` | apps/gateway/src/panel-relay-do.ts:98-121 | at most sixteen tickets are kept |
| `PanelTheorems.TicketsAreMinted` | apps/gateway/src/panel-relay-do.ts:98-121 | every ticket kept was minted at a step of the run with its origin, kind and minute |
| `PanelTheorems.TicketsAreSpentOnce` | apps/gateway/src/panel-relay-do.ts:123-143 | a ticket lets one connect or pairing in, within its minute; before it can again it must be minted again |
| `PanelTheorems.CancelledCommandsAreNotSent` | apps/gateway/src/panel-relay-do.ts:251-263 | a cancellation written down refuses its id for twelve seconds, whatever happens in between |
| `PanelTheorems.CancellationHoldsExactly` | apps/gateway/src/panel-relay-do.ts:251-263 | over every run, a command under an id cancelled less than twelve seconds ago is refused as cancelled exactly when the table had room at the cancel or held an unexpired entry for it |
| `PanelTheorems.FullTableForgets` | apps/gateway/src/panel-relay-do.ts:255-258 | a run of thirty-three cancellations and a command under the last one's id, which is sent |
| `PanelTheorems.ExpiryIsScheduled` | apps/gateway/src/panel-relay-do.ts:362-379 | while a panel is registered an alarm is pending, at most a ticket's life after the registration ends |
| `PanelDelivers.ReplyIsTheAnswer` | apps/gateway/src/panel-relay-do.ts:299-322 | over every run, the reply to a pending command from its socket under its id and generation is its answer before the deadline, and a timeout that calls it off from then on |
| `PanelDelivers.StrayReplies` | apps/gateway/src/panel-relay-do.ts:299-309 | a reply that is not the own one of a pending command changes nothing |
| `PanelDelivers.TimersGiveUp` | apps/gateway/src/panel-relay-do.ts:207-219 | a pending command's timer times it out and calls it off |
| `PanelDelivers.CommandIsDecided` | apps/gateway/src/panel-relay-do.ts:185-249 | a command that nothing refuses is pending for twelve seconds on the ready socket of the active generation and is sent there; one that is refused is answered with the first reason, in the code's order |
| `PanelDelivers.CancelCallsOff` | apps/gateway/src/panel-relay-do.ts:251-264 | the owner's cancellation of a pending command is its answer and is sent on; anybody else's changes nothing |
| `PanelDelivers.LosingASocketFailsItsCommands` | apps/gateway/src/panel-relay-do.ts:345-360 | a socket that closes, fails or breaks the protocol fails all that waits on it, in order, calling it off, and nothing that waits on another |
| `PanelDelivers.TheLostAreOut` | apps/gateway/src/panel-relay-do.ts:349-360 | such a socket is gone, or is not ready until it says so again; no other one changes |
| `PanelDelivers.EverythingIsGivenUp` | apps/gateway/src/panel-relay-do.ts:158-183 | over every run, a new connect and an alarm past the registration give up all that waits, calling it off; a restart loses it |
| `PanelDelivers.ReadyIsNoted` | apps/gateway/src/panel-relay-do.ts:281-288 | a panel that says it is ready is, and no command is sent to it until it does |
| `PanelDelivers.TicketsAreGiven` | apps/gateway/src/panel-relay-do.ts:89-121 | the owner gets a ticket for a minute unless sixteen are out, and nobody else does |
| `PanelDelivers.PairingIsExchanged` | apps/gateway/src/panel-relay-do.ts:133-143 | a pairing ticket in time is exchanged for a socket ticket; either way it is spent |
| `PanelDelivers.TicketsLetIn` | apps/gateway/src/panel-relay-do.ts:145-183 | a socket ticket in time makes its generation the active and stored one and leaves no other socket ready; any other lets nobody in; either way it is spent |
| `PanelDelivers.TheLetInAreSeated` | apps/gateway/src/panel-relay-do.ts:172-183 | the socket that was let in carries its generation and is not ready |
| `PanelDelivers.TheFirstOwns` | apps/gateway/src/panel-relay-do.ts:66-72 | the first to register owns the panel for a day |
| `PanelDelivers.AlarmsTidy` | apps/gateway/src/panel-relay-do.ts:362-379 | an alarm drops exactly the tickets that ran out and is set to the first end of what is left; past the registration everything goes |
| `WorkspacePanel.WorkspacePanelRelay.constructor` | apps/gateway/src/panel-relay-do.ts:54-64 | the empty relay |
| `WorkspacePanel.WorkspacePanelRelay.Finish` | apps/gateway/src/panel-relay-do.ts:324-343 | removes, resolves once, and calls off when asked |
| `WorkspacePanel.WorkspacePanelRelay.FailSocket` | apps/gateway/src/panel-relay-do.ts:345-348 | fails exactly the commands of one socket |
| `WorkspacePanel.WorkspacePanelRelay.RegisterPanel` | apps/gateway/src/panel-relay-do.ts:66-72 | is the register move; true exactly the first time |
| `WorkspacePanel.WorkspacePanelRelay.MintTicket` | apps/gateway/src/panel-relay-do.ts:98-121 | sweeps the expired, refuses a seventeenth |
| `WorkspacePanel.WorkspacePanelRelay.ConsumeTicket` | apps/gateway/src/panel-relay-do.ts:123-131 | deletes, and grants only in time, for the origin and the kind |
| `WorkspacePanel.WorkspacePanelRelay.IssueTicketFor` | apps/gateway/src/panel-relay-do.ts:89-96 | is the issue move |
| `WorkspacePanel.WorkspacePanelRelay.ExchangePairingTicket` | apps/gateway/src/panel-relay-do.ts:134-143 | is the pairing move |
| `WorkspacePanel.WorkspacePanelRelay.BeginFetch` | apps/gateway/src/panel-relay-do.ts:145-176 | a granted connect leaves nothing pending and its generation active |
| `WorkspacePanel.WorkspacePanelRelay.FinishFetch` | apps/gateway/src/panel-relay-do.ts:176-183 | the socket takes the generation drawn for it, active or not |
| `WorkspacePanel.WorkspacePanelRelay.FindTarget` | apps/gateway/src/panel-relay-do.ts:203-212 | finds the one ready socket of the active generation |
| `WorkspacePanel.WorkspacePanelRelay.RunCommandFor` | apps/gateway/src/panel-relay-do.ts:185-249 | is the command move, refusals in their order |
| `WorkspacePanel.WorkspacePanelRelay.CancelCommand` | apps/gateway/src/panel-relay-do.ts:251-263 | is the cancel move |
| `WorkspacePanel.WorkspacePanelRelay.SocketReady` | apps/gateway/src/panel-relay-do.ts:273-300 | is the ready move |
| `WorkspacePanel.WorkspacePanelRelay.SocketReply` | apps/gateway/src/panel-relay-do.ts:300-322 | is the reply move |
| `WorkspacePanel.WorkspacePanelRelay.SocketClosed` | apps/gateway/src/panel-relay-do.ts:349-354 | is the close move |
| `WorkspacePanel.WorkspacePanelRelay.AlarmFired` | apps/gateway/src/panel-relay-do.ts:362-379 | is the alarm move |
| `LocationTheorems.StepFine` | apps/gateway/src/locations-default.ts:19-128 | every statement keeps the tables sound and moves no surviving workspace to another machine; a default move may come from a stale idea of the default as long as it is harmless |
| `LocationTheorems.RunSound` | apps/gateway/src/locations-default.ts:19-128 | soundness over every run: among it, a project that lives nowhere has no workspace without a machine |
| `LocationTheorems.WorkspacesStay` | apps/gateway/src/locations-default.ts:110-128 | over every run of registrations, default moves, machine and location removals and Cloud steps, the machine that serves a workspace is the same as long as it is there |
| `LocationTheorems.OneDefault` | apps/gateway/src/locations.ts:155-190 | over every run, two places of one project that are marked the default are the same place |
| `LocationTheorems.SomeDefault` | apps/gateway/src/locations.ts:131-190 | and a listed project has one exactly when it lives nowhere and Cloud is its place with no machine, or it is on a machine that has its row or can be given it, which Cloud's machine cannot where another row is Cloud's |
| `LocationTheorems.ChoosingADefault` | apps/gateway/src/locations.ts:334-353 | a default move leaves every workspace where it is exactly when the caller's idea of the default was right, nothing followed it, or nothing changed |
| `LocationTheorems.StaleDefaultMovesAWorkspace` | apps/gateway/src/locations.ts:334-353 | tables on which a stale caller moves a workspace to a machine that never held it |
| `LocationTheorems.RemovalConservesProjects` | apps/gateway/src/locations-default.ts:19-60 | exactly the projects go that were on the machine and were marked, or had no repository, no Cloud and no other standing place; each other one is where it was, at a best place, or nowhere |
| `LocationTheorems.RemovalInventsNothing` | apps/gateway/src/api/ops.ts:122-138 | a removal adds nothing |
| `LocationTheorems.RemovalForgetsTheMachine` | apps/gateway/src/api/ops.ts:122-138 | no project, location or workspace left names the machine |
| `LocationTheorems.RemovalKeepsPlaces` | apps/gateway/src/locations-default.ts:51-59 | a place goes with its project or the machine; Cloud stays, without the machine |
| `LocationTheorems.RemovalKeepsWorkspaces` | apps/gateway/src/locations-default.ts:110-128 | a workspace goes exactly with its project or with the machine that serves it |
| `LocationTheorems.BestExists` | apps/gateway/src/locations-default.ts:24-32 | among any places there is one that nothing beats by ready, local, oldest |
| `LocationTheorems.RemovalSucceeds` | apps/gateway/src/api/ops.ts:122-138 | from sound tables any machine can be removed |
| `LocationEffects.RemovalLands` | apps/gateway/src/locations-default.ts:19-109 | over every run, where each project is after a machine is removed, in the columns: untouched; or at the first of its standing places elsewhere by ready, own before Cloud, oldest, with that path; or nowhere; or gone |
| `LocationEffects.PutLeaves` | apps/gateway/src/locations.ts:256-323 | what putting a machine leaves: its one row with path and readiness, the project on it when it was nowhere and not on Cloud, and every other row as it was |
| `LocationEffects.TakeOffLeaves` | apps/gateway/src/api/locations.ts:232-258 | taking a project off a machine drops that place, the workspaces there and those that follow the default when it goes, and with the last machine sends a project worth keeping nowhere |
| `LocationEffects.CloudGoes` | apps/gateway/src/cloud/teardown.ts:126-180 | the end of Cloud's removal takes the whole project with all it has, or only Cloud as its place, and nothing of another project |
| `LocationEffects.RootIsGiven` | apps/gateway/src/cloud/location.ts:137-170 | Cloud's place that had no machine, and a project that lived nowhere, are on the new one; nothing changes when Cloud is leaving |
| `LocationEffects.DefaultIsChosen` | apps/gateway/src/locations.ts:334-353 | a chosen default puts the project on its machine with its path and ties every workspace that followed the default it leaves to that machine; every other row stays |
| `LocationEffects.FillLeaves` | apps/gateway/src/locations.ts:234-249 | a machine without a row of its project is given one with the project's path, unless Cloud would be twice a place of it |
| `LocationEffects.RevokedStays` | apps/gateway/src/locations-default.ts:19-35 | over every run a revoked machine stays revoked until it is removed, and no project moves to it |
| `LocationEffects.RepositoryStays` | apps/gateway/src/project-register.ts:133-153 | over every run a project's repository is what it was last healed to, wherever the project moves |
| `AccountTables.Account.PinLegacyWorkspaces` | apps/gateway/src/locations-default.ts:117-128 | gives every workspace that follows the default the machine it is on |
| `AccountTables.Account.BestPlace` | apps/gateway/src/locations-default.ts:24-32 | the ordered subquery picks a best standing place on another machine, if there is any |
| `AccountTables.Account.MoveDefaults` | apps/gateway/src/locations-default.ts:36-49 | every project that can move does, to a best place; no other one |
| `AccountTables.Account.KeepRepositories` | apps/gateway/src/locations-default.ts:75-109 | sends what is worth keeping nowhere, without the workspaces that followed |
| `AccountTables.Account.ReleaseCloud` | apps/gateway/src/locations-default.ts:51-59 | Cloud places of projects that moved on give up the machine |
| `AccountTables.Account.MoveDefaultLocation` | apps/gateway/src/locations-default.ts:19-60 | the statements in their order are one leaving of the machine |
| `AccountTables.Account.PermanentlyDeleteDevice` | apps/gateway/src/api/ops.ts:122-138 | nothing names the machine, no workspace moved, and exactly the projects that outlive it are left |
| `AccountTables.Account.SetDefaultLocation` | apps/gateway/src/locations.ts:334-353 | what is answered, where the project is, and exactly when every workspace stays |
| `AccountTables.Account.PutLocalLocation` | apps/gateway/src/locations.ts:256-323 | the three statements keep the tables sound and every workspace in place |
| `AccountTables.Account.CreateProject` | apps/gateway/src/project-register.ts:231-285 | registers a new project with its place, or refuses by plan or revocation and changes nothing; no workspace moves |
| `AccountTables.Account.Join` | apps/gateway/src/project-register.ts:154-229 | adds the machine to a project that exists and takes the default when it may, with the idea of it that was read before the place was put; with no other statement in between no workspace moves |
| `AccountTables.Account.RegisterProject` | apps/gateway/src/project-register.ts:48-131 | which project a registration lands on, what is answered, and that, with no other statement in between, no workspace of any project moves; when one is, `LocationTheorems.ChoosingADefault` says exactly when |
| `CanonicalJson.StringifyPrints` | apps/gateway/src/approval.ts:78-88 | sorting printed members is printing sorted ones: the code prints the canonical value |
| `CanonicalJsonTheorems.PrintParses` | apps/gateway/src/approval.ts:78-88 | a canonical value is read back from any text that starts with it |
| `CanonicalJsonTheorems.EscapedParses` | apps/gateway/src/approval.ts:78-88 | a string is read back from its escaped text, surrogates and controls included |
| `CanonicalJsonTheorems.SortedUnique` | apps/gateway/src/approval.ts:83-87 | sorted members are unique as a list |
| `CanonicalJsonTheorems.CanonicalForm` | apps/gateway/src/approval.ts:71-88 | two values print the same exactly when they are the same JSON value, whatever their objects' order |
| `CanonicalJsonTheorems.StringifyEncodes` | apps/gateway/src/approval.ts:71-76 | the text has no lone surrogate, so encoding it to be hashed loses nothing |
| `Approvals.ApprovesWhatWasAsked` | apps/gateway/src/approval.ts:142-213 | a minted state approves exactly the tool and the arguments asked about, on a plain yes, for its own project |
| `Approvals.ApprovedOnItsProject` | apps/gateway/src/approval.ts:216-224 | and `isApproved` exactly on that project |
| `AuditDeletions.StepKeeps` | apps/gateway/src/audit-deletions.ts:171-249 | every step keeps what is known of a target: its passes, leases and commits |
| `AuditDeletions.CompletedAfterTwoPasses` | apps/gateway/src/audit-deletions.ts:171-249 | a target is closed only after two claims under each of which every table was committed, the second's commits all a day after the first counted |
| `AuditDeletions.CompletionIsForGood` | apps/gateway/src/audit-deletions.ts:215-249 | a closed target never changes again |
| `AuditDeletions.OnlyTheLatestLeaseSettles` | apps/gateway/src/audit-deletions.ts:215-249 | a report changes a target exactly when it is open and the reporter holds its latest lease; it works once |
| `AuditDeletions.LeasesDoNotOverlap` | apps/gateway/src/audit-deletions.ts:171-213 | between two claims within ten minutes the first was reported |
| `AuditDeletions.PageMeans` | apps/gateway/src/audit-deletions.ts:171-200 | a claim's page, column by column: open, due, unleased targets, oldest request first, a hundred at most, full when one is left out |
| `AuditDeletions.ClaimsAreExact` | apps/gateway/src/audit-deletions.ts:171-213 | over every run a claim leases its page for ten minutes and counts the attempt, and changes nothing else |
| `AuditDeletions.ReportsAreExact` | apps/gateway/src/audit-deletions.ts:215-253 | over every run a report under the latest lease of an open target makes it due in five minutes after a failure, in a day after the first success, and closes it after the second; any other report changes nothing |
| `AuditDeletions.RequestedIsKept` | apps/gateway/src/audit-deletions.ts:50-60 | a target that was asked for is in the queue from then on, once |
| `AuditDeletions.RequestedIsTaken` | apps/gateway/src/audit-deletions.ts:50-60 | and is taken by the next claim, unless a hundred older ones fill it |
| `AuditDeletions.ReportedIsTaken` | apps/gateway/src/audit-deletions.ts:171-253 | over every run, after a report a target is not taken before its five minutes or its day is over, is from then on, and never once it is closed |
| `AuditDeletions.DeletionQueue.ClaimPage` | apps/gateway/src/audit-deletions.ts:171-213 | leases the oldest claimable hundred |
| `AuditDeletions.DeletionQueue.SettleOne` | apps/gateway/src/audit-deletions.ts:215-249 | true exactly when something changed |
| `AuditDeletions.EraseTarget` | scripts/audit-maintenance/main.py:121-161 | success is reported exactly when every table was committed, and what it did are steps of the queue: one erase a table in order, then a report |
| `AuditDeletions.DoneMeansErased` | scripts/audit-maintenance/main.py:121-161 | over every run a job may report a claim done exactly when it erased every table under it |
| `LeasePages.SelectFirst` | apps/gateway/src/audit-deletions.ts:171-200 | `ORDER BY … LIMIT`, as a loop |
| `LeasePages.OnePage` | apps/gateway/src/audit-deletions.ts:171-200 | there is one such page |
| `AuditOutbox.StepKeeps` | apps/gateway/src/audit.ts:71-235 | every step keeps rows, leases, batches and acknowledgements in order |
| `AuditOutbox.BegunCallsAreOnRecord` | apps/gateway/src/audit.ts:71-115 | a call that may be dispatched has, from then on, a record in the stream or the outbox |
| `AuditOutbox.NothingKeptNothingBegun` | apps/gateway/src/audit.ts:71-115 | a call begins exactly when one of the two kept its record |
| `AuditOutbox.AcceptedWasAcknowledged` | apps/gateway/src/audit.ts:154-209 | a row is marked accepted only after the stream acknowledged an event of its id |
| `AuditOutbox.RowsGoADayAfterAcceptance` | apps/gateway/src/audit.ts:212-235 | a row goes only more than 24 hours after it was accepted |
| `AuditOutbox.GivingUpTouchesOnlyItsOwn` | apps/gateway/src/audit.ts:190-209 | a failing flusher reschedules exactly the rows it still leases, after at most 1024 seconds |
| `AuditOutbox.OutcomesAreDelivered` | apps/gateway/src/audit.ts:118-209 | an outcome written while no batch carried its row is delivered or still to be delivered, whatever fails, expires or overlaps |
| `AuditOutbox.OutcomesAreLostExactly` | apps/gateway/src/audit.ts:118-209 | an outcome written to the outbox is safe in every continuation exactly when the stream has it, or its row is unsettled and no batch carries it as something else |
| `AuditOutbox.StreamedOutcomesAreKept` | apps/gateway/src/audit-stream.ts:32-77 | the outcome of a streamed call is taken by the stream or kept in the outbox |
| `AuditOutbox.ALateOutcomeCanBeLost` | apps/gateway/src/audit.ts:118-209 | a run that loses one: swept as incomplete, leased, finished, acknowledged, accepted |
| `AuditOutbox.PageMeans` | apps/gateway/src/audit.ts:154-185 | a batch, column by column: unsettled, due, unleased rows with an outcome, first ready first, 25 at most, full when one is left out |
| `AuditOutbox.TakenIsLeased` | apps/gateway/src/audit.ts:154-185 | a claim leases its rows for a minute, counts the attempt and carries what they say |
| `AuditOutbox.FinishedIsTaken` | apps/gateway/src/audit.ts:118-185 | over every run, an outcome written to an unsettled row nobody holds is in the next batch, as it is |
| `AuditOutbox.StreamedIsTaken` | apps/gateway/src/audit-stream.ts:32-77 | so is the outcome of a streamed call that was not acknowledged, from two seconds on, with the call's own start |
| `AuditOutbox.RetryDoubles` | apps/gateway/src/audit.ts:332-334 | the wait after a failed batch is a second, doubled with each attempt, 1024 seconds from the tenth on |
| `AuditOutbox.FailedIsTakenAgain` | apps/gateway/src/audit.ts:185-209 | over every run, a row whose batch failed is not taken before its wait is over, and is from then on |
| `AuditOutbox.AcceptedIsSettled` | apps/gateway/src/audit.ts:185-235 | over every run, a row whose batch was acknowledged while it was held is accepted, never sent again, and deleted by the first purge more than a day past that |
| `AuditOutbox.SilentIsClosed` | apps/gateway/src/audit.ts:212-225 | the recovery closes exactly the rows without an outcome that are fifteen minutes old |
| `AuditOutbox.IntentIsClosed` | apps/gateway/src/audit.ts:71-115 | over every run, an intent in the outbox that no outcome followed is closed as incomplete by the first recovery from fifteen minutes on, and not before |
| `AuditOutbox.Outbox.BeginAudit` | apps/gateway/src/audit.ts:71-115 | stream first, outbox next, no call when neither |
| `AuditOutbox.Outbox.FinishStreamIntent` | apps/gateway/src/audit-stream.ts:32-77 | is the step of finishing a streamed call |
| `AuditOutbox.Outbox.FinishRow` | apps/gateway/src/audit.ts:118-147 | is the step of finishing a row |
| `AuditOutbox.Outbox.ClaimBatch` | apps/gateway/src/audit.ts:154-185 | leases the 25 rows that were ready first |
| `AuditOutbox.Outbox.Deliver` | apps/gateway/src/audit.ts:185-209 | accepts what the stream acknowledged, reschedules the rest |
| `AuditOutbox.Outbox.RecoverStale` | apps/gateway/src/audit.ts:212-225 | closes as incomplete what has no outcome after fifteen minutes |
| `AuditOutbox.Outbox.PurgeAccepted` | apps/gateway/src/audit.ts:225-235 | deletes only what was accepted long enough ago |
| `WarehouseCalls.BestIsBest` | apps/gateway/src/warehouse-calls.ts:95-122 | the row chosen of a call is one of its records, and none ranks before it |
| `WarehouseCalls.ResolutionIgnoresOrder` | apps/gateway/src/warehouse-calls.ts:95-122 | which row is shown does not depend on order or repetition of records |
| `WarehouseCalls.FinishedWins` | apps/gateway/src/warehouse-calls.ts:105-115 | a finished record wins over every incomplete one |
| `WarehouseCalls.PushdownIsSafe` | apps/gateway/src/warehouse-calls.ts:95-143 | narrowing the scan before ranking selects what ranking first and narrowing after does |
| `WarehouseCalls.PagesAreSlices` | apps/gateway/src/warehouse-calls.ts:120-143 | the page behind a cursor is the slice of the whole list after it |
| `WarehouseCalls.OldCursorsReadNothing` | apps/gateway/src/warehouse-calls.ts:87-95 | a cursor older than the window reads nothing, and there is nothing to miss |
| `WarehouseCalls.PagesMakeTheWhole` | apps/gateway/src/warehouse-calls.ts:87-143 | pages of one archive at one time, read one behind the other, are the whole list, no gap and no repeat |
| `WarehouseCalls.PagesNeverRepeat` | apps/gateway/src/warehouse-calls.ts:66-143 | pages read at different times of an archive that grows hold no row twice and stay in order |
| `WarehouseCalls.PagesMissNothing` | apps/gateway/src/warehouse-calls.ts:66-143 | and a row that is meant at every one of those times is on one of them |
| `WarehouseCalls.SelectedExactly` | apps/gateway/src/warehouse-calls.ts:87-143 | a row is selected exactly when it is the record of its call that says most and meets the request field by field: user, project, workspace, client, status, start day, retention, cursor, finished or stale |
| `WarehouseCalls.PagesAreExact` | apps/gateway/src/warehouse-calls.ts:66-143 | a page holds only such rows, newest first; one is missing only from a full page of newer ones, and the page names its last row exactly then |
| `WarehouseCalls.Resolve` | apps/gateway/src/warehouse-calls.ts:105-120 | ranks in one pass, in any order |
| `WarehouseCalls.QueryCalls` | apps/gateway/src/warehouse-calls.ts:87-143 | scan, rank, filter, order and page answer the query |
| `WarehouseUsage.DaysToProcess` | apps/gateway/src/warehouse-usage.ts:245-270 | a gapless catch-up of at most 31 days, then the last three days again, sorted |
| `WarehouseUsage.PlansSkipNothing` | apps/gateway/src/warehouse-usage.ts:245-270 | a plan is increasing, at most 31 long, and skips no day behind the checkpoint |
| `WarehouseUsage.QueryDay` | apps/gateway/src/warehouse-usage.ts:169-194 | page by page reads the whole grouped day, or refuses |
| `WarehouseUsage.TheCheckpointHasNoGaps` | apps/gateway/src/warehouse-usage.ts:77-137 | every day from the start to the checkpoint was fully read, whatever crashed, was capped, replayed or overlapped |
| `WarehouseUsage.PruningLosesNothing` | apps/gateway/src/warehouse-usage.ts:140-167 | pruning is allowed only when no day up to the target is unread |
| `WarehouseUsage.BacklogIsWhatIsLeft` | apps/gateway/src/warehouse-usage.ts:140-167 | the backlog counts what is left, and is zero exactly when pruning is allowed, but for a start day moved past the target with an older checkpoint |
| `WarehouseUsage.AMovedStartHidesABacklog` | apps/gateway/src/warehouse-usage.ts:140-167 | such a start day and checkpoint |
| `WarehouseUsage.OverlapCanMoveTheCheckpointBack` | apps/gateway/src/warehouse-usage.ts:69-137 | a run of two overlapping rollups that moves the checkpoint back; what it says stays true |
| `WarehouseUsage.MovesBackExactly` | apps/gateway/src/warehouse-usage.ts:110-137 | over every run, a write moves the checkpoint back exactly when another rollup wrote a later day than the writer knows of since the writer's own start or last write |
| `WarehouseUsage.CountersOnlyGrow` | apps/gateway/src/warehouse-usage.ts:88-125 | no counter goes down |
| `WarehouseUsage.CountersHoldWhatWasRead` | apps/gateway/src/warehouse-usage.ts:88-125 | every counter is at least what was ever read of its user and day |
| `WarehouseUsage.CountersWereRead` | apps/gateway/src/warehouse-usage.ts:88-125 | over every run, each of the three counters is that counter of something read of its user and day: with the row above, their maximum |
| `WarehouseUsage.WritingAgainAddsNothing` | apps/gateway/src/warehouse-usage.ts:88-125 | over every run, writing again what was written of a day leaves every counter as it is |
| `WarehouseUsage.ReadMeansWritten` | apps/gateway/src/warehouse-usage.ts:77-137 | over every run, what counts as read is exactly what some step wrote: its day, and every count of a user that still existed |
| `WarehouseUsage.AWriteMovesOn` | apps/gateway/src/warehouse-usage.ts:110-137 | a write puts the later of its day and what its rollup had seen into the checkpoint, and the rollup goes on to the next day |
| `CommandPolicies.NarrowingNeverWidens` | crates/exeora-cli/src/policy.rs:118-171 | what the narrowed policy allows the account allows: tools, commands, tools of other servers; approval is never dropped |
| `CommandPolicies.NarrowingRespectsTheFile` | crates/exeora-cli/src/policy.rs:118-242 | what it allows also meets the file's tool list, deny rules, read-only mode, stated allow list and, where commands are read, its refusal of shell syntax |
| `CommandPolicies.ChainsOnlyNarrow` | crates/exeora-cli/src/policy.rs:118-171 | the same along any chain of files, for tools and commands |
| `CommandPolicies.ChainsKeepTheRest` | crates/exeora-cli/src/policy.rs:118-171 | along any chain, a tool of another server is allowed exactly when the account allows it and every file in read-only mode is told it only reads; approval is asked exactly when the account or some file asks for it |
| `CommandPolicies.ChainsKeepTheShell` | crates/exeora-cli/src/policy.rs:139-225 | along any chain, once the account or any part of it reads commands and the account or any file of it refuses shell syntax, a command allowed at the end is plain |
| `CommandPolicies.NarrowingTwiceIsOnce` | crates/exeora-cli/src/policy.rs:118-171 | the same file again changes nothing |
| `CommandPolicies.NoFileWidens` | crates/exeora-cli/src/policy.rs:76-116 | nor does a missing, unreadable or malformed file; an unreadable one leaves exactly the account's reading tools |
| `CommandPolicies.AnAllowListNeedsItsMode` | crates/exeora-cli/src/policy.rs:118-150 | an allow list is as if it were not there unless the file's mode is `allow_list` |
| `CommandPolicies.AnAllowListAloneIsIgnored` | crates/exeora-cli/src/policy.rs:118-150 | such a file lets a command through that its list does not have |
| `CommandPolicies.NarrowPolicy` | crates/exeora-cli/src/policy.rs:118-171 | the loops over lists compute the narrowed policy |
| `CommandPolicies.ChainsAreExact` | crates/exeora-cli/src/policy.rs:118-225 | along any chain of files, a tool may be used at the end exactly when the account and every file offer it, none keeps it to reading, and its command is on no deny list, on every allow list in force, and plain where commands are read and somebody refuses shell syntax |
| `CommandPolicies.NarrowingIsExact` | crates/exeora-cli/src/policy.rs:118-225 | the same for one file, field by field |
| `CommandPolicies.NoFileChangesNothing` | crates/exeora-cli/src/policy.rs:76-106 | without a file it is exactly the account's policy, or everything where there is none |
| `CommandPolicies.RulesMean` | crates/exeora-cli/src/policy.rs:244-262 | what a rule matches, by its words: nothing without any, every call of a program it names alone, what begins so before a trailing star, and else the same words |
| `CommandPolicies.WordsComeBack` | crates/exeora-cli/src/policy.rs:244-262 | words joined by spaces are split into the same words |
| `SchemaExpansion.TypesAsChoices` | scripts/rust-json-schema.ts:13-16 | a list of types accepts what the `anyOf` of its types does |
| `SchemaExpansion.ExpandAlike` | scripts/rust-json-schema.ts:10-53 | the rewritten schema accepts exactly what the schema without its shadowed `anyOf`s accepts, at every depth |
| `SchemaExpansion.ExpansionPreservesAcceptance` | scripts/rust-json-schema.ts:10-53 | so exactly what the schema accepts, when no `anyOf` stands beside a list of types |
| `SchemaExpansion.SeparateIsUnshadowed` | scripts/rust-json-schema.ts:13-16 | that condition, node by node, is that nothing is shadowed |
| `SchemaExpansion.AnAnyOfBesideTypesIsLost` | scripts/rust-json-schema.ts:13-16 | a schema whose `anyOf` is overwritten accepts what it refused |
| `SchemaExpansion.ExpansionLeavesNoLists` | scripts/rust-json-schema.ts:18-52 | no list of types is left anywhere it visits |
| `SchemaExpansion.ExpandingTwiceIsOnce` | scripts/rust-json-schema.ts:10-53 | rewriting twice is rewriting once |
| `SchemaExpansion.ExpansionKeepsData` | scripts/rust-json-schema.ts:18-52 | defaults, examples and checks are copied, node by node, and none is added |
| `PlaceNames.LocationSlugIsASlug` | apps/gateway/src/locations.ts:66-79 | a machine's slug is a slug of at most 60, never `cloud` and never `main` |
| `PlaceNames.LocationSlugSpells` | apps/gateway/src/locations.ts:66-79 | it is the words of the machine's name with a hyphen between any two, cut at 60; a name that spells nothing, `cloud` or `main` has `-machine` behind it |
| `PlaceNames.NamePlaces` | apps/gateway/src/locations.ts:155-166 | all slugs of a project differ; Cloud's is `cloud`, no machine's is, none is `main`; each is the wanted name or has the least number behind it that is free |
| `PlaceNames.SlugsLeadBack` | apps/gateway/src/locations.ts:363-378 | `findLocation` of a place's slug is that place |
| `PlaceNames.PlacesAreFound` | apps/gateway/src/locations.ts:363-378 | nothing said finds the default; else the one place of that slug, of that name where no slug fits, of that id or machine where no name does, and Cloud by what it is called |
| `PlaceNames.SelectorsRoundTrip` | apps/gateway/src/location-roots.ts:22-31 | `rootLocation(rootSelector(s))` is `s`, and only spellings of that selector give it |
| `WorkspaceSlugs.ChoicesAreDecided` | apps/gateway/src/workspace-slugs.ts:30-80 | the whole decision for any request and rows in any order: the wanted slug while free, the one given before, a conflict on the same machine, the suffixed slug, a conflict there, the first free number, or a conflict |
| `WorkspaceSlugs.ChosenSlugsAreFree` | apps/gateway/src/workspace-slugs.ts:30-80 | a slug chosen for a short enough request is at most 60 long and held by no other workspace |
| `WorkspaceSlugs.AskingAgainGivesTheSame` | apps/gateway/src/workspace-slugs.ts:51-55 | asking again gives what was given |
| `WorkspaceSlugs.CollidesExactly` | apps/gateway/src/workspace-slugs.ts:30-80 | for any request, no project makes the choice collide exactly when cutting leaves the wanted slug in front |
| `WorkspaceSlugs.FittingIsInSight` | apps/gateway/src/workspace-slugs.ts:60-80 | short enough requests meet that |
| `WorkspaceSlugs.LongSlugsAreCut` | apps/gateway/src/workspace-slugs.ts:60-80 | a request of sixty letters does not |
| `WorkspaceSlugs.ChooseWorkspaceSlug` | apps/gateway/src/workspace-slugs.ts:21-80 | the counting loop makes the choice |

## Left out

- The relay's messages between people and machines as bytes: wire codecs, request parsing and size limits. An undecodable frame is a step of its own where the code reacts to one.
- The promises of `relay-client.ts`: each settles once by a flag, on the first of answer, abort, timer or close. Only its habit of sending one start is used, as a condition of `RelayLogs.OneStartPairs`.
- How a cloud machine is woken (`relay-do-cloud.ts`): the shared fetch and its deadline only decide which of three ways a wake ends, and any of the three may end any wait here.
- What else a hello and a drop do: tool catalogues, hook scripts, presence, metrics and the greeting's contents. The state those leave behind is not read by what is modelled.
- What a log line says of its call beyond caller and target; how its text is clipped.
- Attaching a terminal assumes an executor that can serve it, the checks of the request, and a session id that is new. `terminal.opened` and a resize are activity like a keystroke. What is sent down to the shell is not followed.
- Steps of relays that share an isolate interleaving at a storage access: a step of one is taken whole with respect to the others.
- Two statements of different registrations of one account interleaving within `Join` or `RegisterProject`; as single steps in any order they are in the runs of `LocationTheorems`.
- Two attaches of one terminal target overlapping at a storage read; the handler is taken as one step.
- The panel's HTTP side: how a panel id and a principal are authenticated. A send that throws while a command is called off has no effect on the state and is not told apart.
- Locations of more than one account, which never meet; a workspace that a machine reports as its own under another machine's row; the teardown of cloud machines after a removal.
- The retention window of each plan and the order in which pruning deletes; only the condition that allows it is modelled.
- How a rollup falls back to the checkpoint of an older configuration. A day's grouped rows do not change while their pages are read.
- The schema version of an audit event and its fields beyond the identity and the outcome.
- `minContains` and `maxContains`: `contains` asks for at least one item. `$ref`, annotations, `unevaluatedItems`, `unevaluatedProperties`, `contentSchema`, `additionalItems` and the list form of `items` in schemas. The rewrite is modelled on values, so that a schema object shared between two places of the tree, which the code would rewrite once, counts as two.
- Unicode folding of a machine's name, which is a parameter of its slug; trimming and lower-casing are those of ASCII.
- `render_policy_toml`, the config file and its lock, private files, and the git credential helper.
- OAuth, tokens, routing, rate limits, MCP registration, installers and the sites.
- TerminalSessions.Sessions.AcceptTerminalSocket: the refusals of a malformed request and of an incapable executor change nothing and are not modelled.
- DeviceRelays.DeviceRelay.Connect: an upgrade without an id is refused before there is a socket, and is not modelled.
