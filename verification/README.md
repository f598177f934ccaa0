# Muxterm models

Dafny models of the stateful parts of muxterm, and proofs of what they keep over every run.
`dafny verify dfyconfig.toml` checks the whole project. Nothing here runs the program.

| file | what it models |
|---|---|
| `Prelude.dfy` | options, results, sums over finite maps |
| `BrowserRegistry.dfy` | the Browser Assistant registry: each HTTP handler, run under the mutex, is one step |
| `BrowserInvariants.dfy` | what every handler keeps: lifecycle, one active command, quotas, the byte budget |
| `BrowserRuns.dfy` | whole runs of handlers: started once, answered once, stopped means never started |
| `BrowserReplies.dfy` | what each reply means: when it is given and what the registry then holds |
| `BrowserHandlers.dfy` | the handlers as a class with loops and early returns, each proved to take its step |
| `Automation.dfy` | the extension's async functions as programs, and the check that guards every effect |
| `AutomationRuns.dfy` | any interleaving of their tasks at awaits, with storage, pauses and failures |
| `AutomationEffects.dfy` | what a program that gets through has done: commands, results, records |
| `AutomationControl.dfy` | under which control record the worker acts, and what it writes |
| `AutomationLeftover.dfy` | why a record left by an earlier worker limits what a pause guarantees |
| `BrowserProtocol.dfy` | registry, worker, a network that loses messages, and worker restarts together |
| `ManagedTurns.dfy` | processes, the turn record, the journal and the writer lock, with a crash at any step |
| `SidecarHost.dfy` | request and reply correlation over a pipe, with restarts |
| `AntigravityBridge.dfy` | the turn state machine of the Antigravity bridge at its awaits |
| `VoiceSplice.dfy` | finding and replacing the `[voice]` section in arbitrary text |
| `RateLimiter.dfy` | the sliding-window limiter over slices compacted in place |
| `TokenStore.dfy` | the token store whose memory and file can part |
| `MachinePool.dfy` | name resolution and the concurrent connection cache |
| `TranscriptTail.dfy` | the bounded tail of a log against the whole log |
| `ConfigPatch.dfy` | applying and verifying a settings patch over a schema tree |
| `PageDeletion.dfy` | deleting a page with everything under it |

## How to read the models

A concurrent component is a state and a step relation; one step is a critical section, one
instruction between two awaits, or one operation on a channel, a file or a lock. Results about it
are statements over every run from its initial state. Where the source is an object with methods,
a class stands beside the relation. Its fields are those of the source and, where goroutines or
tasks share the object, where each of them stands. `Valid()` is the invariant that is proved of all
runs; each method takes exactly one step of the relation, requires and keeps `Valid()`, and states
what the step means for its caller. Code with a critical section inside a longer function is one
method for that section.

A loop of the source is a loop here, proved against a function or a relation that the lemmas are
about. Where other tasks may run between two rounds of a loop (the reader and the waiter of the
sidecar host, the consumer of the bridge, the closing of remote connections), the loop is proved
for the case that nothing else runs meanwhile, and the relation has every interleaving.

The world outside is left open: the network, the clock, random names, the file system, the SDKs
and the browser are parameters or choices of a step, and every choice is allowed unless the text
says otherwise. Random names never repeat and hashes never collide.

## What turned out not to hold

- A pause of the extension is not final against a control record that an earlier worker left in
  session storage: the new worker counts generations from zero again and can meet the record's
  number by pausing. The condition is exact: a record whose number is smaller than the present
  generation cannot break a pause, and one whose number is equal or greater can. The run that shows
  this needs the first storage read of the recovery stop and of each pause to stay pending while
  reads issued later complete; the record is removed only after such a read.
- Reading a managed turn's record takes any read error for a missing file, so a fault runs a
  command again. Admission reads and stores without a lock, so two overlapping invocations run it
  twice. Without either, at most once is proved. The command's help text promises it without
  these conditions.
- When the sidecar's waiter has finished, a request can still be in the hands of a reader that
  looked it up before the exit. Nothing else can be outstanding, and that send cannot block.
- The Antigravity bridge does not survive every `cancel()` that raises. If it raises in steer while
  the consumer still runs, the turn is declared uncertain and the consumer can end it a second time.
  If it raises in interrupt before the turn has ended, the turn is marked as stopped and its consumer
  no longer ends it: the bridge stays busy without a consumer and refuses every send, steer and
  interrupt for ever. The condition is exact over all runs: harmless if and only if the consumer
  (in steer) or the turn (in interrupt) had already ended.
- A revocation repeated after a failed save reports success while the file still holds the token.
  The exact condition is proved.
- A Codex transcript tail without item records falls back to message records even when the rest of
  the file has item records; then its turns are no part of the whole transcript. The exact condition
  is proved: they are its last turns if and only if the file has no item record, or the window has
  one, or the window has no message record either. The `only if` takes for granted that an item and
  a message do not decode to the same turn, or keeps the kind of record beside each turn.

## Model

| member | source | states |
|---|---|---|
| `BrowserInvariants.NextKeepsInv` | internal/server/browser_automation.go:62-266 | every handler keeps: at most 64 requests and 8 snapshot requests a connection, at most one active command and it belongs to the present control, payloads in line with the status, at most 16 MiB of results over all connections, at most 8 connections an owner and 128 in all |
| `BrowserInvariants.PruneKeeps` | internal/server/browser_assistant.go:98-122 | pruning keeps that invariant, drops exactly the lapsed codes and connections, leaves every unexpired request as it was, empties the expired ones and drops them five minutes later |
| `BrowserInvariants.StopSettles` | internal/server/browser_automation.go:30-39 | stopping a connection cancels exactly its active commands and clears their input, leaves no control, and leaves every settled request as it was |
| `BrowserInvariants.CreateCommandKeeps` | internal/server/browser_automation.go:146-182 | a new command, with or without an evicted one, stays within the quotas and is the only active one |
| `BrowserInvariants.PostResultKeeps` | internal/server/browser_automation.go:223-265 | a posted result keeps the lifecycle of every request and the global byte budget |
| `BrowserInvariants.HistoryNeverFull` | internal/server/browser_automation.go:162-172 | the reply "Browser history full" is unreachable |
| `BrowserInvariants.FullHistoryHasSettled` | internal/server/browser_automation.go:162-168 | a connection with 64 requests and no active command has a settled one to evict |
| `BrowserInvariants.RoomOrNothing` | internal/server/browser_automation.go:242-259 | eviction ends with room for the new result, or with nothing of this connection kept |
| `BrowserInvariants.NoNeedlessEviction` | internal/server/browser_automation.go:242-259 | a result that fits evicts nothing |
| `BrowserInvariants.EvictionDetermined` | internal/server/browser_automation.go:242-259 | with distinct expiries, evicting oldest first and stopping as soon as it fits has one outcome only |
| `BrowserRuns.NextMoves` | internal/server/browser_automation.go:185-265 | a request moves only pending to running to completed or failed, from active to cancelled when its control is stopped, from pending to approved or denied, and otherwise only to expired |
| `BrowserRuns.RunKeepsInv` | internal/server/browser_assistant.go:86-122 | over any run of handlers the invariant holds, names stay unique and no two connections share a request or a control |
| `BrowserRuns.RunNeverFull` | internal/server/browser_automation.go:162-172 | over any run no handler replies that the history is full |
| `BrowserRuns.StartedAtMostOnce` | internal/server/browser_automation.go:185-202 | over any run a command is started at most once |
| `BrowserRuns.AnsweredAtMostOnce` | internal/server/browser_automation.go:223-265 | over any run at most one result is accepted for a command |
| `BrowserRuns.StopRetires` | internal/server/browser_automation.go:30-39 | after a stop, by owner or extension, no connection has the old control any more |
| `BrowserRuns.StoppedNeverStarted` | internal/server/browser_automation.go:185-202 | a command whose control was stopped is never started afterwards |
| `BrowserReplies.NextMeans` | internal/server/browser_assistant.go:98-485 | for every handler: exactly when each reply is given, what the registry then holds for the request or connection named, and that nothing else changed |
| `BrowserReplies.PostResultSays` | internal/server/browser_automation.go:204-266 | an answered command is completed exactly when it shows no error and failed otherwise; its result is kept exactly when it fits beside what all others keep after the eviction, else the error says so; the extension's own error is shown; every other request is as it was or evicted |
| `BrowserReplies.CreateCommandSays` | internal/server/browser_automation.go:121-182 | a new command is recorded in the words of its request, pending for a minute, under the present control; every refusal has exactly its reason; the table loses nothing but, when full, one settled request that expires first |
| `BrowserReplies.PollSays` | internal/server/browser_assistant.go:337-356 | a poll returns exactly the pending requests and the present control, and only notes that the extension was seen |
| `BrowserReplies.ClaimSays` | internal/server/browser_assistant.go:287-325 | a claimed code makes one empty connection for the code's owner with the name and token given, and is used up |
| `BrowserReplies.CreatePairingSays` | internal/server/browser_assistant.go:251-277 | a new code is its owner's only one, valid for five minutes, and the codes of others stay |
| `BrowserReplies.SetControlSays` | internal/server/browser_automation.go:71-93 | a new control is the one asked for, every refusal has exactly its reason, and in each case every active command is cancelled |
| `BrowserReplies.StartSays` | internal/server/browser_automation.go:185-202 | a start is given exactly to a pending command of the present control, which is otherwise as it was |
| `BrowserReplies.AskSnapshotSays` | internal/server/browser_assistant.go:397-434 | a snapshot request is recorded in the words of its request, pending for two minutes, and refused exactly for its reasons |
| `BrowserReplies.AnswerSnapshotSays` | internal/server/browser_assistant.go:461-485 | an answered request is approved with its snapshot or denied without one, exactly as the extension said |
| `BrowserHandlers.OldestSettled` | internal/server/browser_automation.go:163-168 | the scan finds a settled request that no settled request precedes in expiry, and nothing only if none has settled |
| `BrowserHandlers.OldestWithResult` | internal/server/browser_automation.go:243-248 | the scan finds, among requests with a result, one that expires first |
| `BrowserHandlers.MakeRoom` | internal/server/browser_automation.go:242-259 | the eviction loop ends, evicts only oldest first and only while the result does not fit, and reports whether it fits at the end |
| `BrowserHandlers.CountBytes` | internal/server/browser_automation.go:236-241 | the loop counts the bytes of all results of a connection |
| `BrowserHandlers.BrowserAssistant.PruneAll` | internal/server/browser_assistant.go:98-122 | the loops over the maps drop and expire exactly what has run out |
| `BrowserHandlers.BrowserAssistant.PruneLoop` | internal/server/browser_assistant.go:111-120 | requests are expired at their time and dropped five minutes later |
| `BrowserHandlers.BrowserAssistant.StopConnection` | internal/server/browser_automation.go:30-39 | the loop cancels every active command and drops the control |
| `BrowserHandlers.BrowserAssistant.HandleControl` | internal/server/browser_automation.go:71-93 | takes the step the invariants are proved of, every early return included, and keeps the invariant |
| `BrowserHandlers.BrowserAssistant.HandleControlStop` | internal/server/browser_automation.go:100-115 | takes that handler's step, without pruning, and keeps the invariant |
| `BrowserHandlers.BrowserAssistant.HandleCommand` | internal/server/browser_automation.go:121-182 | takes that handler's step, one active command at a time and eviction of the oldest settled one from a full history; keeps the invariant and never replies that the history is full |
| `BrowserHandlers.BrowserAssistant.TrimHistory` | internal/server/browser_automation.go:162-174 | a full history loses its oldest settled request; there is no room exactly when it is full and none has settled |
| `BrowserHandlers.BrowserAssistant.EnterCommand` | internal/server/browser_automation.go:162-182 | the rest of that step: the new pending command bound to the present control, or the error with the eviction kept |
| `BrowserHandlers.BrowserAssistant.HandleCommandStart` | internal/server/browser_automation.go:185-202 | takes that handler's step, only a pending command of the present control starts, and keeps the invariant |
| `BrowserHandlers.BrowserAssistant.CountRetained` | internal/server/browser_automation.go:236-241 | the double loop counts the bytes retained by all connections |
| `BrowserHandlers.BrowserAssistant.HandleCommandResult` | internal/server/browser_automation.go:204-266 | takes that handler's step, with the eviction loop inside, keeps the invariant, the byte budget with it, and leaves the answered command as its reply means |
| `BrowserHandlers.BrowserAssistant.TakeResult` | internal/server/browser_automation.go:234-264 | the rest of that step: room is made, the command is completed exactly when no error is shown and failed otherwise, with the extension's error if it sent one, and a result that is not kept is an error |
| `BrowserHandlers.BrowserAssistant.HandlePoll` | internal/server/browser_assistant.go:337-356 | takes that handler's step, pending requests and the present control are returned, and keeps the invariant |
| `BrowserHandlers.BrowserAssistant.HandlePairing` | internal/server/browser_assistant.go:251-277 | takes that handler's step, one pairing an owner and at most 128 of others, and keeps the invariant |
| `BrowserHandlers.BrowserAssistant.HandleClaim` | internal/server/browser_assistant.go:287-325 | takes that handler's step, a code is used up by the one connection it makes, within both limits, and keeps the invariant |
| `BrowserHandlers.BrowserAssistant.HandleRevoke` | internal/server/browser_assistant.go:362-377 | succeeds exactly for the owner of the connection, which then is gone and no other; keeps the invariant |
| `BrowserHandlers.BrowserAssistant.HandleBridgeRevoke` | internal/server/browser_assistant.go:379-391 | takes that handler's step, only the connection whose token is shown goes, and keeps the invariant |
| `BrowserHandlers.BrowserAssistant.HandleSnapshotRequest` | internal/server/browser_assistant.go:397-434 | takes that handler's step, at most 8 requests in the table, and keeps the invariant |
| `BrowserHandlers.BrowserAssistant.HandleSnapshotResult` | internal/server/browser_assistant.go:461-485 | takes that handler's step, a snapshot only with approval, and keeps the invariant |
| `Automation.DispatchGuarded` | extensions/browser-assistant/automation.js:33-38 | a debugger command follows its generation check with no await between |
| `Automation.SwitchTabGuarded` | extensions/browser-assistant/automation.js:119-131 | a tab is attached only right after a generation check, and the attach is followed by the test for a pause that gives the tab up |
| `Automation.ExecuteGuarded` | extensions/browser-assistant/automation.js:112-189 | every path of execute, for every action, checks the authorised generation right before each guarded effect |
| `Automation.StartGuarded` | extensions/browser-assistant/automation.js:73-100 | every path of start does so too, failure paths included |
| `Automation.StartGivesUp` | extensions/browser-assistant/automation.js:73-100 | a start that is overtaken by a pause gives up its tab, and goes on to a pause when its record is already stored |
| `Automation.TickGuarded` | extensions/browser-assistant/automation.js:191-214 | a poll executes a job only right after the server granted it, and everything it calls is guarded |
| `AutomationRuns.StepKeeps` | extensions/browser-assistant/automation.js:26-60 | one step of any task keeps what every task knows, and issues a guarded effect only under its captured, authorised generation |
| `AutomationRuns.IssuedUnderCapturedGeneration` | extensions/browser-assistant/automation.js:33-38 | over any interleaving every debugger command, attach and tab creation is issued while the generation is the one its call captured |
| `AutomationRuns.NothingAfterPause` | extensions/browser-assistant/automation.js:50-71 | after a pause nothing of that kind is issued until a start, provided a record left by an earlier worker has a smaller generation than the present one |
| `AutomationRuns.PausedAttachDetaches` | extensions/browser-assistant/automation.js:119-131 | an attach that comes back after a pause is followed, in the same synchronous segment, by a request to detach |
| `AutomationEffects.PauseSilences` | extensions/browser-assistant/automation.js:50-60 | from the first instruction of a pause on nothing of that kind is issued until a start: the generation is new and no start made it |
| `AutomationEffects.PauseClears` | extensions/browser-assistant/automation.js:50-60 | a pause that comes to its end has removed the control record and cleared the badge |
| `AutomationEffects.StartGrants` | extensions/browser-assistant/automation.js:73-100 | a start that comes to its end has attached to the tab, had the server make a control, and stored the record of it |
| `AutomationEffects.ExecutionActs` | extensions/browser-assistant/automation.js:112-189 | over any interleaving, a job that was begun and comes to its end without an exception has issued at least the debugger commands, tab creation and attach of its action: click 2 and type 1 (3 more with a selector), inspect 3, key 2, screenshot, navigate and scroll 1, new tab a tab, new and select tab an attach unless the tab is the same |
| `AutomationEffects.ExecuteWay` | extensions/browser-assistant/automation.js:112-189 | with nothing in its way every supported action comes to its end with exactly those effects, and an unsupported one never does |
| `AutomationEffects.ExecutionAnswers` | extensions/browser-assistant/automation.js:206-209 | a poll that has executed a job and comes to its end without another exception has posted a result for that very job, whether the job succeeded or not |
| `AutomationEffects.CatchPauses` | extensions/browser-assistant/automation.js:210-213 | a poll that was thrown out, and gets through its catch block, has paused |
| `AutomationEffects.LostControlPauses` | extensions/browser-assistant/automation.js:197-200 | a poll that finds itself unpaired, or its control replaced at the server, and comes to its end, has paused |
| `AutomationControl.ActsUnderOwnControl` | extensions/browser-assistant/automation.js:33-38 | over any interleaving, a task asks for a debugger command or a new tab only if the record it last read is of the very control its job was sent for |
| `AutomationControl.WritesOwnRecord` | extensions/browser-assistant/automation.js:73-131 | a change of tab leaves a record of the job's own control, and a start one with an id the server gave out and the generation of that start |
| `AutomationLeftover.LeftoverBreaksPause` | extensions/browser-assistant/automation.js:191-203 | the proviso is needed for every left-over record and every present generation up to the record's: with no start at all a poll still issues a command later |
| `AutomationRuns.ExecKeepsGrant` | extensions/browser-assistant/automation.js:203-207 | an execution uses up the one grant its task holds |
| `BrowserProtocol.RunKeepsInv` | internal/server/browser_automation.go:185-266 | over registry, worker and network: a grant is in one place, with the server's reply or with the task that awaits it |
| `BrowserProtocol.ExecutedAtMostOnce` | extensions/browser-assistant/automation.js:191-214 | over every interleaving of polls, restarts, lost messages, pauses and re-authorisations no command is executed twice, each executed one was started by the server, once, and at most one result is accepted |
| `ManagedTurns.OneWriterPerSession` | internal/mcp/managed_turn.go:37-57 | at any moment at most one process of a session is between taking the writer lock and giving it back, crashes included |
| `ManagedTurns.RunKeepsLock` | internal/mcp/managed_turn.go:40-57 | a held lock belongs to a live process in its critical phase; a process carries only its own turn |
| `ManagedTurns.DuplicateNeverRuns` | cmd/muxterm/session_send_cmd.go:48-55 | an invocation that reads a record of its reference never runs the command, whatever follows |
| `ManagedTurns.WriteAhead` | internal/mcp/managed_turn.go:140-169 | in every run, a process about to run the command or running it has had a turn of its own key and prompt with status dispatching in the record, and has it in the journal |
| `ManagedTurns.RunKeepsOnce` | cmd/muxterm/session_send_cmd.go:44-88 | with admissions serialised a reference has one owner at a time, and reconciliation starts only when it has released or died |
| `ManagedTurns.RunsAtMostOnce` | cmd/muxterm/session_send_cmd.go:44-88 | with admissions serialised the command runs at most once, and admitted, rejected or failed mean that it never ran |
| `ManagedTurns.LaunchSeesIntent` | cmd/muxterm/session_send_cmd.go:62-76 | with admissions serialised the record still reads dispatching while the command runs |
| `ManagedTurns.StatusesReport` | cmd/muxterm/session_send_cmd.go:48-88 | over every run, a turn that is recorded, journaled or carried tells the truth: completed means the command ended well, uncertain that it ended badly or was found abandoned, failed that it could not be launched, rejected that the lock was refused, dispatching that it was taken |
| `ManagedTurns.OutcomeIsStored` | cmd/muxterm/session_send_cmd.go:57-88 | and the other way round: once a step has settled what becomes of a turn, whatever its process stores afterwards is the status that tells of it, completed for a command that ended well and uncertain for one that did not |
| `ManagedTurns.JournaledStays` | internal/mcp/managed_turn.go:140-169 | a turn that was journaled, whatever its status, stays in the journal for the rest of the run |
| `ManagedTurns.FinishSend` | cmd/muxterm/session_send_cmd.go:56-95 | from a missing record there is a run to the end of a successful send that runs the command once and leaves the record completed |
| `ManagedTurns.FaultRunsAgain` | internal/mcp/managed_turn.go:82-91 | a read that faults is taken for a missing record: after any finished run it runs a command again without any overlap |
| `ManagedTurns.OverlapRunsTwice` | internal/mcp/managed_turn.go:82-107 | after any finished run that left no record of a reference, two admissions that both read before either stores run its command twice, with no fault |
| `SidecarHost.RunKeepsInv` | internal/amplifierchat/host.go:217-352 | the right to send to a channel is in one place: the table, a reader, or the waiter; across restarts |
| `SidecarHost.OneFittingReply` | internal/amplifierchat/host.go:230-242 | a request's channel gets at most one value, a reply with its id or the exit of its own process, and the caller receives nothing else |
| `SidecarHost.SendsNeverBlock` | internal/amplifierchat/host.go:235-267 | whenever a reader or a waiter is about to send, the slot is free |
| `SidecarHost.SettledAfterWait` | internal/amplifierchat/host.go:257-273 | once a waiter is done each of its requests was answered or withdrawn or is in a reader's hand; for a caller still waiting, answered means that no reader has it, and then it can receive |
| `SidecarHost.ReaderMayHoldAfterWait` | internal/amplifierchat/host.go:231-239 | the third case happens: the waiter can finish between a reader's lookup and its send |
| `SidecarHost.Host.StartProcess` | internal/amplifierchat/host.go:167-181 | keeps the invariant; when a new process starts, every request in the table is one of the process before it |
| `SidecarHost.Host.RegisterRequest` | internal/amplifierchat/host.go:302-311 | refused exactly when closed; else a request nobody has answered waits in the table under an id never used before |
| `SidecarHost.Host.WithdrawRequest` | internal/amplifierchat/host.go:346-350 | keeps the invariant; the request is out of the table and its caller has left, and nobody has got anything |
| `SidecarHost.Host.ReceiveReply` | internal/amplifierchat/host.go:330-334 | the caller receives the one value its request ever got: a reply with its id, or the exit of its own process |
| `SidecarHost.Host.ReaderPops` | internal/amplifierchat/host.go:230-244 | a line is published exactly when no request waits under its id; nobody has got anything yet |
| `SidecarHost.Host.ReaderSends` | internal/amplifierchat/host.go:235-241 | the send never blocks; the request whose id the line had, which had got nothing, gets exactly that line, and no other request gets anything |
| `SidecarHost.Host.ReadOutput` | internal/amplifierchat/host.go:217-246 | the reader's loop: every request in the table gets the first line with its id and leaves the table, the others wait on and get nothing |
| `SidecarHost.Host.WaiterTakes` | internal/amplifierchat/host.go:259-263 | the host is closed and the table empty; what the waiter took are requests of its own process that had got nothing |
| `SidecarHost.Host.WaiterFails` | internal/amplifierchat/host.go:265-267 | the send never blocks; the request, which had got nothing, gets exactly the exit of this process, and no other request gets anything |
| `SidecarHost.Host.Wait` | internal/amplifierchat/host.go:257-267 | the waiter's loop: the host is closed, every request of the table gets the exit of its process and nothing else, no other request gets anything |
| `AntigravityBridge.LogIsTurns` | sdk-chat/antigravity-sdk-host.py:76-172 | if cancel() raises only where that is harmless, the log is turns one after another, each started, fed and ended by exactly one terminal event with its inputs in order; an open one exactly while busy |
| `AntigravityBridge.TurnsEnd` | sdk-chat/antigravity-sdk-host.py:76-105 | under the same proviso, whenever the bridge is idle every started turn has one terminal event with the inputs accepted since, and after it the log ends or the next turn starts |
| `AntigravityBridge.StartedEnds` | sdk-chat/antigravity-sdk-host.py:87-101 | what an accepted log means: a start is followed by one terminal event with the ids accepted between, and that by nothing but the next start |
| `AntigravityBridge.BusyMeansConsumer` | sdk-chat/antigravity-sdk-host.py:107-172 | under the same proviso, whenever the lock is free busy means that a consumer is active, and it is the only one running |
| `AntigravityBridge.EventsTell` | sdk-chat/antigravity-sdk-host.py:76-172 | over every run each event of the log was logged by a step that it tells of: completed by a consumer that ran out of chunks unasked, error by one that raised, cancelled by an interrupt or a cancelled consumer, uncertain by a steer that failed, each with the inputs of then |
| `AntigravityBridge.RaisingCancelExact` | sdk-chat/antigravity-sdk-host.py:134-168 | in every such run a raising cancel() is harmless for all that follows if and only if it raises in steer after the consumer has ended, or in interrupt after the turn has ended |
| `AntigravityBridge.StaysWedged` | sdk-chat/antigravity-sdk-host.py:107-168 | a bridge that is busy without a consumer stays so for ever: every send, steer and interrupt is refused and nothing is logged |
| `AntigravityBridge.SteerEndsTwice` | sdk-chat/antigravity-sdk-host.py:134-156 | from every state in which steer's cancel() raises while the consumer runs, that consumer can end the turn a second time |
| `AntigravityBridge.StopWedges` | sdk-chat/antigravity-sdk-host.py:158-172 | from every state in which interrupt's cancel() raises before the turn has ended, the consumer's normal end leaves the bridge wedged |
| `AntigravityBridge.FailingCancelEndsTwice` | sdk-chat/antigravity-sdk-host.py:134-156 | such a run: uncertain and then error for one turn |
| `AntigravityBridge.FailingStopWedges` | sdk-chat/antigravity-sdk-host.py:158-172 | such a run: a turn that is started and never ended, and a bridge that accepts nothing any more |
| `AntigravityBridge.Bridge.SendBegins` | sdk-chat/antigravity-sdk-host.py:107-112 | refused exactly while the log has an open turn or the content cannot be read; the invariant is kept |
| `AntigravityBridge.Bridge.SendResumes` | sdk-chat/antigravity-sdk-host.py:112-123 | an open turn with exactly this input and an active consumer, or no open turn and the log as it was; the invariant is kept |
| `AntigravityBridge.Bridge.SteerBegins` | sdk-chat/antigravity-sdk-host.py:125-136 | refused exactly when the log has no open turn or the content cannot be read; else the active consumer's turn is marked as steered; the invariant is kept |
| `AntigravityBridge.Bridge.SteerCancelled` | sdk-chat/antigravity-sdk-host.py:136-137 | the invariant is kept exactly when cancel() returned or the consumer had ended; if it returned steer waits for that consumer, else no turn is open |
| `AntigravityBridge.Bridge.SteerJoined` | sdk-chat/antigravity-sdk-host.py:137-140 | goes on to the SDK exactly when the ended consumer left the turn open; the log and the invariant are kept |
| `AntigravityBridge.Bridge.SteerResumes` | sdk-chat/antigravity-sdk-host.py:140-156 | the open turn has exactly this input more and an active consumer, or it was ended as uncertain; the invariant is kept |
| `AntigravityBridge.Bridge.StopBegins` | sdk-chat/antigravity-sdk-host.py:158-167 | refused exactly when the log has no open turn; else the active consumer's turn is marked as stopped; the invariant is kept |
| `AntigravityBridge.Bridge.StopCancelled` | sdk-chat/antigravity-sdk-host.py:167-168 | the invariant is kept exactly when cancel() returned or the turn had ended |
| `AntigravityBridge.Bridge.StopJoined` | sdk-chat/antigravity-sdk-host.py:168-172 | afterwards no turn is open; cancelled is logged exactly if the consumer had left it open; the invariant is kept |
| `AntigravityBridge.Bridge.ConsumeEnds` | sdk-chat/antigravity-sdk-host.py:87-105 | afterwards no consumer runs; the turn is left open exactly where somebody asked for that, else ended once by the event of its ending; the invariant is kept |
| `AntigravityBridge.Bridge.ConsumeAll` | sdk-chat/antigravity-sdk-host.py:76-105 | the consumer's loop: one event for each chunk with text or a tool call, then that end; the invariant is kept |
| `VoiceSplice.SpliceTwice` | internal/config/voice_write.go:56-78 | saving v1 and then v2 leaves the text that saving v2 alone leaves, for every text |
| `VoiceSplice.SpliceAccepted` | internal/config/voice_write.go:204-220 | a saved text is refused exactly when the text before was |
| `VoiceSplice.SaveTwice` | internal/config/voice_write.go:43-85 | the same for files that may not exist and saves that may be refused |
| `VoiceSplice.SavedIsFound` | internal/config/voice_write.go:61-78 | the section found in a saved text is exactly the one written, between the same lines as before |
| `VoiceSplice.OutsideUnchanged` | internal/config/voice_write.go:61-78 | everything outside the span is unchanged; the span runs from the first header to the last line with text before the next header, so blank lines before it stay |
| `VoiceSplice.SavedSays` | internal/config/voice_write.go:43-85 | the section found after a save gives every setting its own value once, quoted, an empty one not at all, and has no other line |
| `VoiceSplice.SayIsRead` | internal/config/voice_write.go:222-260 | read back with the quotes taken off, those lines are the settings that were saved |
| `VoiceSplice.SavesDiffer` | internal/config/voice_write.go:43-85 | saves of different settings never leave the same text |
| `VoiceSplice.NewSectionApart` | internal/config/voice_write.go:64-77 | a section that is new stands after all there was and one more blank line |
| `VoiceSplice.LaidIsSection` | internal/config/voice_write.go:130-158 | header, text and following header determine the section found |
| `VoiceSplice.HeaderMeans` | internal/config/voice_write.go:176-194 | a header of the section is exactly its name in single brackets, in quotes or not, with white space around either; a subtable or an array of tables is none |
| `VoiceSplice.JoinLines` | internal/config/voice_write.go:160-172 | line splitting loses nothing |
| `VoiceSplice.LinesJoin` | internal/config/voice_write.go:160-172 | whole lines are what splitting their text gives back |
| `VoiceSplice.SplitLinesKeepingEnds` | internal/config/voice_write.go:160-172 | the loop yields the lines, which join to the input |
| `VoiceSplice.FindVoiceSection` | internal/config/voice_write.go:130-158 | the scan with its offset and blank-run counters finds that span, or reports that there is none |
| `VoiceSplice.RefuseDottedVoiceKeys` | internal/config/voice_write.go:204-220 | the scan over the split text refuses exactly the texts specified |
| `VoiceSplice.RefusedMeans` | internal/config/voice_write.go:204-220 | refused means a top-level dotted key of the section with no table header before it |
| `VoiceSplice.RenderVoiceSection` | internal/config/voice_write.go:230-260 | the builder writes the header and then lines that give every setting its own value once and nothing else |
| `VoiceSplice.SettingLines` | internal/config/voice_write.go:230-260 | every line it writes is a whole line, not blank and no header |
| `VoiceSplice.WriteVoiceSection` | internal/config/voice_write.go:43-85 | refused exactly for a dotted key; else the section found in what is written says exactly what was to be saved; a missing file is created, a section found replaced, else one appended after the right separator |
| `RateLimiter.WindowCap` | internal/authserver/ratelimit.go:48-57 | any interval of one window length holds at most max grants to an address with no success between |
| `RateLimiter.GrantedExactly` | internal/authserver/ratelimit.go:48-57 | a reservation is granted exactly when fewer than max grants since the last success are still in the window |
| `RateLimiter.PruningForgetsNothing` | internal/authserver/ratelimit.go:67-80 | what pruning drops no later decision could count |
| `RateLimiter.Compact` | internal/authserver/ratelimit.go:69-74 | compaction in the slice's own array equals filtering |
| `RateLimiter.Limiter.PruneLocked` | internal/authserver/ratelimit.go:67-80 | exactly the expired times of this address go, no other address is touched |
| `RateLimiter.Limiter.Append` | internal/authserver/ratelimit.go:55 | appends in place or into a larger array, no other address is touched |
| `RateLimiter.Limiter.Decide` | internal/authserver/ratelimit.go:51-56 | granted exactly when the unexpired times are fewer than max, and then recorded at once |
| `RateLimiter.Limiter.Reserve` | internal/authserver/ratelimit.go:48-57 | the slices hold what the log of all calls says, decision by decision |
| `RateLimiter.Limiter.RecordSuccess` | internal/authserver/ratelimit.go:60-64 | clears one address |
| `TokenStore.CodeUsedOnce` | internal/authserver/tokenstore.go:151-169 | between two successful returns of a code some Create named it, over any run of calls, failed saves, damage and restarts (RFC 6749 section 4.1.2) |
| `TokenStore.SpentUntilIssued` | internal/authserver/tokenstore.go:64-132 | a code in neither memory nor file stays so until a Create names it |
| `TokenStore.FoundWasCreated` | internal/authserver/tokenstore.go:104-122 | whatever is found was created under that very code or token |
| `TokenStore.RevocationDurable` | internal/authserver/tokenstore.go:134-142 | a revocation that reports success is durable exactly when memory held the token or the file did not |
| `TokenStore.RevokedUntilCreated` | internal/authserver/tokenstore.go:134-182 | a token gone from memory and file is not found again until a Create names it |
| `TokenStore.InStepWithoutFailure` | internal/authserver/tokenstore.go:64-102 | as long as no save fails and nobody damages the file, memory and file agree, so that condition holds |
| `TokenStore.RestartInStep` | internal/authserver/tokenstore.go:64-85 | a restart makes memory and file agree |
| `TokenStore.RepeatedRevocation` | internal/authserver/tokenstore.go:134-142 | after a failed save the repeated revocation reports success and a restart revives the token |
| `TokenStore.Store.constructor` | internal/authserver/tokenstore.go:45-62 | a store opened on what any earlier calls left in the file is the one the run results are about, in step with the file |
| `TokenStore.Store.CreateToken` | internal/authserver/tokenstore.go:104-122 | a token whose creation succeeds is found by its access value and by its code after a restart too; memory and file agree |
| `TokenStore.Store.FindByCode` | internal/authserver/tokenstore.go:151-169 | a code that is found was issued under that name and is afterwards in neither memory nor file |
| `TokenStore.Store.DeleteByCode` | internal/authserver/tokenstore.go:124-132 | a removal that reports success has spent the code exactly when memory held it or the file did not |
| `TokenStore.Store.FindByAccess` | internal/authserver/tokenstore.go:171-182 | a token found was created under that access value; one that is not found is not in memory |
| `TokenStore.Store.DeleteByAccess` | internal/authserver/tokenstore.go:134-142 | a revocation that reports success is durable exactly when memory held the token or the file did not |
| `MachinePool.MatchIn` | internal/mcp/machines.go:151-169 | finds the host with that id, else the one host displayed by that name; finds nothing exactly when there is neither |
| `MachinePool.ScanIds` | internal/mcp/machines.go:152-156 | the first loop finds the first host with that id |
| `MachinePool.ScanNames` | internal/mcp/machines.go:157-164 | the second loop counts the hosts displayed by that name and keeps the last |
| `MachinePool.MatchMeans` | internal/mcp/machines.go:148-169 | what a match is, both ways |
| `MachinePool.AnswerIsResolvedHost` | internal/mcp/machines.go:126-146 | a call that answers gives a client labelled with the host its name matched in a list some discovery returned |
| `MachinePool.RunKeeps` | internal/mcp/machines.go:219-307 | over any interleaving of calls, deaths and shutdowns the cache stays keyed by host id, a resolved call carries a host its name matched, and no dialled connection is lost |
| `MachinePool.NothingLeaks` | internal/mcp/machines.go:239-307 | every cached client is under its own host's id; every dialled connection is cached, closed, dead, or held by a call or shutdown still at work |
| `MachinePool.OneLivePerHost` | internal/mcp/machines.go:244-255 | when all calls have returned, an open connection is the one cached for its host |
| `MachinePool.Machines.ResolveCached` | internal/mcp/machines.go:126-134 | the call is resolved exactly when there is a transport and the name matches in the cached list, and then to the host it matches; the invariant is kept |
| `MachinePool.Machines.ResolveFresh` | internal/mcp/machines.go:136-146 | the fresh list replaces the cache; the call fails exactly when the name matches nothing in it, else it carries the host it matches; the invariant is kept |
| `MachinePool.Machines.LookupClient` | internal/mcp/machines.go:225-237 | an answer is a live cached connection labelled with the host the name matched; a dead one has left the cache; dialling means that none was cached; the invariant is kept |
| `MachinePool.Machines.KeepOrDiscard` | internal/mcp/machines.go:244-255 | whatever this call will answer with is cached under its host's id and labelled with it, and a live connection cached meanwhile is not replaced; the invariant is kept |
| `MachinePool.Machines.TakeAll` | internal/mcp/machines.go:296-303 | the loop empties the map and takes exactly its connections for closing; the invariant is kept |
| `MachinePool.Machines.CloseTaken` | internal/mcp/machines.go:304-306 | the second loop closes exactly the connections taken; the invariant is kept |
| `TranscriptTail.Tail` | internal/mcp/transcript.go:296-322 | the last window bytes, and whether any were skipped |
| `TranscriptTail.TailLines` | internal/mcp/transcript.go:400-417 | the lines of the window without the leading fragment and the blank ones |
| `TranscriptTail.ReadTail` | internal/mcp/transcript.go:424-455 | the last n turns decoded in the window and the flag |
| `TranscriptTail.TailAgrees` | internal/mcp/transcript.go:400-455 | the turns are a suffix of decoding the whole file, at most n; all of it if not truncated; exactly the last n if n decode in the window |
| `TranscriptTail.WindowIsSuffix` | internal/mcp/transcript.go:296-417 | the lines of a window are the last lines of the file |
| `TranscriptTail.SplitAppend` | internal/mcp/transcript.go:406-409 | cutting a text splits one line at most |
| `TranscriptTail.ReadCodexTail` | internal/mcp/transcript.go:819-846 | item records, or message records if the window has no item record |
| `TranscriptTail.CodexAgrees` | internal/mcp/transcript.go:837-845 | these are the last turns of the whole file if it has no item record, the window has one, or the window has no record at all; and only then, as long as item and message records decode to different turns |
| `TranscriptTail.CodexAgreesByKind` | internal/mcp/transcript.go:837-845 | with the kind of record kept beside each turn that condition is exact for all decoders |
| `TranscriptTail.CodexMayDisagree` | internal/mcp/transcript.go:837-845 | for every window of at least two bytes and every n a file whose tail shows a message while the whole transcript is its one item |
| `ConfigPatch.AppliedVerifies` | internal/config/patch.go:33-54 | if a patch applies, verifying the result succeeds and applying it again changes nothing |
| `ConfigPatch.VerifyMeans` | internal/config/patch.go:50-54 | verification succeeds exactly when applying would change nothing; then every requested field, at every depth, holds the requested value |
| `ConfigPatch.WalkAt` | internal/config/patch.go:68-112 | a patch that applies sets every plain field it names to the decoded request and leaves every other as it was, at every depth, and names nothing under a read-only field |
| `ConfigPatch.WalkSameProblem` | internal/config/patch.go:68-112 | whether a patch is accepted and what is wrong with it does not depend on the configuration |
| `ConfigPatch.WalkAccepts` | internal/config/patch.go:68-112 | the walk succeeds on exactly the requests whose every key, at every depth, names a writable field and brings it data it can take; its problems are never those of the sections |
| `ConfigPatch.WalkTwice` | internal/config/patch.go:68-112 | a walk repeated changes nothing |
| `ConfigPatch.WalkCheckIsRest` | internal/config/patch.go:103-109 | the verifying walk accepts exactly what the applying walk leaves alone |
| `ConfigPatch.WalkSets` | internal/config/patch.go:84-109 | an entry alone decides the field it names |
| `ConfigPatch.WalkPatch` | internal/config/patch.go:68-112 | the one loop with its verify flag computes the applying walk or the verifying walk, with the first problem in key order |
| `ConfigPatch.ApplyPatch` | internal/config/patch.go:18-48 | success exactly when the request is an object, every entry is acceptable, and each of the two sections it names is valid afterwards; otherwise exactly the first problem of these, and the two section errors for nothing else |
| `ConfigPatch.FindField` | internal/config/patch.go:71-77 | the first field with that name in its tag |
| `PageDeletion.Closure` | internal/mcp/tools_chat_pages.go:87-96 | ends on any parent links and removes exactly the ids reached from the page |
| `PageDeletion.DeletePage` | internal/mcp/tools_chat_pages.go:74-103 | refuses an unknown page, else rebuilds the list without the reached ones; the capacity is not negative |
| `PageDeletion.KeptInOrder` | internal/mcp/tools_chat_pages.go:97-103 | the rest keeps its order and nothing else is dropped |
| `PageDeletion.NothingOrphaned` | internal/mcp/tools_chat_pages.go:87-103 | no page is left under a removed one, and a kept page keeps its parent |

## Left out

- HTTP, JSON decoding, authentication of owners, cross-site checks and rendering: a handler's step starts from the decoded request and the owner it resolved.
- Listing the connections of an owner and looking up one request are steps of the registry's relation without a method of their own; they only read after pruning.
- Registry records are values in maps and are put back after each change, where the source keeps pointers to them.
- Go's map iteration order and JavaScript's choice of the next task are arbitrary; the order in which equal expiries are evicted is left open.
- Ids, tokens and codes are fresh names; token hashes stand for the tokens. Strings are measured in characters, not bytes.
- Which debugger method a command calls, with which parameters, and what a result contains: a command is one kind of call.
- The extension's pages, badges and messages, and what Chrome answers, are outcomes of awaits; waiting for a tab to load is one await. A stored control has no origin or window, whose checks may fail at any time.
- NothingAfterPause: states a condition on records left by an earlier worker, because without it the claim is false.
- A tab left attached is not excluded: what is claimed is what is issued, and that a request to detach follows an attach that a pause overtook.
- RunsAtMostOnce: needs reads that find an existing record and admissions of one reference that do not overlap, because without either the claim is false.
- Contents of a damaged turn record, the cursor check's transcript, time stamps and error texts of turns; a reference stands for the file its hash names.
- Whether the operating system really started the native command: the step that hands it over counts as running it.
- The sidecar's standard error, readiness and event subscribers; a write's bytes and their order on the pipe; closing the host.
- SettledAfterWait: admits a reader still holding a request, because without it the claim is false.
- LogIsTurns: assumes that the SDK's `cancel()` raises only where that is harmless, because otherwise the claim is false, and that commands carry their input id; `close` is not modelled.
- Tool events of the bridge stand with its text events as one kind of event inside a turn.
- Text is a sequence of Unicode characters; a byte that is no character counts as one that is not white space. `strconv.Quote` is any function whose output has no newline. Temporary files, modes and renames of the configuration writer are not modelled.
- TOML beyond the line-based notion of a section: multi-line strings and a comment behind a header.
- InStepWithoutFailure: assumes that nothing but the store changes its file; `Damage` stands for every other change.
- Dialling, priming and attaching a remote client are one round trip each; client requests, list_machines and its probes, and the trimming of names are not modelled; a name for this machine never reaches the pool.
- A transcript file does not change while it is read; the daemon's route to a remote file is taken to return the same bytes. The per-record decoders, path building and the clipping of text are parameters or left out.
- A patch's objects are given in key order, as the walk visits them; JSON decoding into a field is any function of the field's kind and the data. What such a decoder makes of a string is taken to be its text.
- Storing the pages document and its version check on the server are not modelled.
- Small validators, desktop windows, transcription, tool registrations that only forward, and help texts: they would only add easy members.
