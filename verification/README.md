# SnowLuma: a verified model of its stateful core

SnowLuma connects QQ client processes to OneBot and MCP. This project models the parts of it
that keep invariants across interleaved callbacks, crashes, timers and arbitrary chunking, and
proves what they promise. Each stretch of code between two awaits is one atomic step; timers,
callbacks, file-system outcomes and crashes are arbitrary.

| file | models |
|---|---|
| TaskRuntime.dfy, TaskPhases.dfy, TaskClosing.dfy, TaskHistory.dfy | one runtime of the persistent task store: its events, and what each keeps |
| TaskSystem.dfy, TaskTheorems.dfy, TaskTransitions.dfy, TaskOutcomes.dfy, TaskRecovery.dfy, TaskEffects.dfy | any number of runtimes sharing a directory through lease files: what holds over every run, how records may change and why, that stale leases are recoverable, and that tasks and runtimes can always be brought to their end |
| HookSession.dfy | one QQ process: injection, pipe client, login, and the notices owed to observers |
| PipeFrames.dfy, RequestIds.dfy | the pipe's wire format and incremental reader; request ids and pending maps |
| AccountManager.dfy | generations of an account's OneBot instance |
| LogQuota.dfy, Downloads.dfy, Totals.dfy | the log byte budget, and the shared download directory quota |
| SingleFlight.dfy | the TTL cache with request deduplication |
| MediaMigration.dfy | the crash-resumable legacy media migration |
| EventBuffer.dfy | the bounded event buffer and its readers |
| Options.dfy, Words.dfy | small definitions the other files share |
| LogRings.dfy, LogSanitize.dfy | the in-memory log rings and their merge; the log line sanitizer |

`dafny verify dfyconfig.toml` checks everything. Components that change state in place are
classes with a `Valid()` invariant that every method keeps, and a method (`Drive`, `Feed`,
`Follow`, `MigrateUntilComplete`) that takes an arbitrary sequence of events. The persistent store is
a step function over values, so that runs of many processes can be quantified over.

## Model

| member | source | states |
|---|---|---|
| `TaskTheorems.MutualExclusion` | packages/mcp/src/tasks.ts:318-364 | In every run of any number of runtimes opening, scanning, recovering stale leases, closing and crashing in any order, on any number of hosts and with reused process ids, no two live runtimes are both past the lease scan with an unreleased lease. |
| `TaskTheorems.OnlyTheHolderWrites` | packages/mcp/src/tasks.ts:482-504 | In every run, a step that changes any task record is made by the runtime that holds the lease, which still holds it afterwards; nobody writes before the scan or after releasing. |
| `TaskTheorems.TerminalForever` | packages/mcp/src/tasks.ts:384-409 | Once a record on disk is terminal it is the same record after any continuation of the run: further operations, closes, crashes and reopens. |
| `TaskTheorems.CallbackAtMostOnce` | packages/mcp/src/tasks.ts:558-631 | Over all runtimes of a run, each task's callback was begun at most once. |
| `TaskTheorems.RecoveredIsTerminal` | packages/mcp/src/tasks.ts:384-409 | Whatever a runtime loaded on opening is terminal on disk, and stays so for the rest of every run. |
| `TaskTheorems.ReopenFinishesEverything` | packages/mcp/src/tasks.ts:384-409 | When an open completes, every record in the directory is terminal and all of them were loaded. |
| `TaskTheorems.InputHistory` | packages/mcp/src/tasks.ts:704-733 | Over all runtimes of every run, no task is ever asked for the same key twice. |
| `TaskTheorems.WaiterGetsItsAnswers` | packages/mcp/src/tasks.ts:796-823 | In every run a waiter is resolved with answers for exactly the keys of one request that was made. |
| `TaskTheorems.RunKeepsInv` | packages/mcp/src/tasks.ts:287-412 | The whole-system invariant (leases, memory, disk, identifiers) holds after every run from any directory with no runtime started. |
| `TaskTheorems.WriteIsASave` | packages/mcp/src/tasks.ts:442-504 | Inside one runtime the disk changes only when a queued save takes effect, by exactly the queued record, and never after the lease was released. |
| `TaskTheorems.ExecutedGrows` | packages/mcp/src/tasks.ts:599-631 | The list of begun callbacks grows only when a registered task of a runtime that was not asked to close begins, by that task, which is not in it yet. |
| `TaskTheorems.TasksCanComplete` | packages/mcp/src/tasks.ts:287-688 | From any empty directory there is a run that opens it, starts a task, runs its callback once and leaves its completed record on disk: the guarantees above are not vacuous. |
| `TaskSystem.StepKeepsLease` | packages/mcp/src/tasks.ts:318-364 | Every step of every runtime keeps the lease invariant: of two contenders past listing, at least one listed the other, and a peer that was checked off is dead or has given up. |
| `TaskSystem.OneHolder` | packages/mcp/src/tasks.ts:318-364 | The lease invariant excludes two holders. |
| `TaskSystem.StepKeepsInv` | packages/mcp/src/tasks.ts:287-412 | Every step keeps the whole-system invariant and spares every terminal record. |
| `TaskSystem.SpawnKeepsLease` | packages/mcp/src/tasks.ts:314-319 | A new runtime disturbs no lease. |
| `TaskSystem.PublishKeepsLease` | packages/mcp/src/tasks.ts:318-319 | Publishing before listing is what makes the peer of a later lister visible. |
| `TaskSystem.ListKeepsLease` | packages/mcp/src/tasks.ts:323-326 | A listing sees every contender that listed earlier. |
| `TaskSystem.ExamineKeepsLease` | packages/mcp/src/tasks.ts:328-347 | A lease that is gone is checked off; an unreadable or foreign one ends the open. |
| `TaskSystem.ProbeKeepsLease` | packages/mcp/src/tasks.ts:349-356 | Only an owner whose process is dead is taken for stale. |
| `TaskSystem.UnlinkKeepsLease` | packages/mcp/src/tasks.ts:358-363 | Removing a stale lease never removes that of a live contender. |
| `TaskSystem.FailKeepsLease` | packages/mcp/src/tasks.ts:412-422 | A failed open gives its lease up, whether or not the unlink worked. |
| `TaskSystem.LocalKeepsLease` | packages/mcp/src/tasks.ts:855-900 | Closing releases the lease once, and no local event takes it back. |
| `TaskSystem.RecoverWriteKeepsInv` | packages/mcp/src/tasks.ts:396-406 | Rewriting an interrupted record touches no terminal one and keeps memory, disk and recovery in step. |
| `TaskSystem.EndRecoveryKeepsInv` | packages/mcp/src/tasks.ts:384-412 | After recovery memory equals disk and everything in it is terminal. |
| `TaskSystem.LocalKeepsInv` | packages/mcp/src/tasks.ts:558-900 | A local event of the holder keeps every other runtime's knowledge true. |
| `TaskRuntime.ExecKeepsInv` | packages/mcp/src/tasks.ts:482-900 | Every event of one runtime keeps its invariants: what an operation checked before a save still holds after it, tasks run once, exchanges stay balanced. |
| `TaskRuntime.ExecKeepsDisk` | packages/mcp/src/tasks.ts:482-504 | Memory and disk agree up to the one save whose continuation is due. |
| `TaskRuntime.SaveSparesTerminal` | packages/mcp/src/tasks.ts:631-688 | No event replaces a terminal record. |
| `TaskRuntime.ReleasedNeverSaves` | packages/mcp/src/tasks.ts:855-900 | After the lease is released every closed guard holds and no event writes. |
| `TaskRuntime.ExecKeepsIds` | packages/mcp/src/tasks.ts:558-597 | Only a start brings in a task identifier. |
| `TaskRuntime.SettleKeepsInv` | packages/mcp/src/tasks.ts:631-688 | Settling queues a terminal record for an unfinished task only, and does nothing once closed; which record is stated by `TaskEffects.SettleTakesEffect`. |
| `TaskRuntime.UpdateKeepsInv` | packages/mcp/src/tasks.ts:740-816 | An accepted update splits the outstanding keys into answered and left ones. |
| `TaskRuntime.AnswerKeepsExchange` | packages/mcp/src/tasks.ts:796-823 | An answer keeps the exchange balanced, and the last one hands over every requested key. |
| `TaskRuntime.ContinueRequestKeepsInv` | packages/mcp/src/tasks.ts:690-738 | A saved request becomes the pending exchange of its task, with keys never used before. |
| `TaskRuntime.CloseNextKeepsInv` | packages/mcp/src/tasks.ts:874-890 | Closing records each unfinished task as interrupted and skips finished ones. |
| `TaskTransitions.CallbackBeginsSafely` | packages/mcp/src/tasks.ts:565-631 | In every run a callback begins only for a task whose working record is on disk, started by this very runtime, which holds the lease and was not asked to close; never for a recovered task nor for one any runtime ran before. |
| `TaskTransitions.InputExchange` | packages/mcp/src/tasks.ts:690-825 | In every run, while a record on disk asks for input: its persisted requests are exactly the outstanding ones, and outstanding and answered keys partition the requested ones, once the continuation of the last save has run; the task is in memory until the runtime closes or a save fails. |
| `TaskTransitions.RecordsAdvance` | packages/mcp/src/tasks.ts:482-900 | In every run, every step leaves each record alone or advances it along the task states: creation time kept, a failure of the execution only where no cancellation was asked for and a cancellation only where it was, input requests only shrinking while answered, new records only as freshly started work; none ever disappears. |
| `TaskTransitions.CancelledWasRequested` | packages/mcp/src/tasks.ts:645-658 | A record that ends as cancelled had its cancellation request on disk at an earlier point of the run. |
| `TaskTransitions.StepKeepsWriters` | packages/mcp/src/tasks.ts:384-409 | Whatever a runtime is about to write, as an operation or in recovery, advances what the disk says now. |
| `TaskTransitions.ExecKeepsPlan` | packages/mcp/src/tasks.ts:482-900 | Every event keeps queued writes in line with the records: a settling run's record is its own outcome, before close exactly the tasks whose records say so have been told to stop, and exactly their waiters are rejected. |
| `TaskTransitions.UpdateKeepsPlan` | packages/mcp/src/tasks.ts:796-816 | An accepted answer strictly shrinks the persisted requests and changes none of the others. |
| `TaskPhases.ExecKeepsPhases` | packages/mcp/src/tasks.ts:558-688 | Every event keeps: a task whose callback has not begun is recorded as working, one that has not settled is unfinished until close, and until close or a failed save every unfinished record has its task in memory. |
| `TaskPhases.ContinueKeepsPhases` | packages/mcp/src/tasks.ts:493-504 | The continuation of a save keeps that, for each operation. |
| `TaskClosing.ExecKeepsOwes` | packages/mcp/src/tasks.ts:558-900 | Every event keeps: a closed store with no failed save has every unfinished record still before it and writes only interrupted ones; registered tasks and the start being saved stay within the limit. |
| `TaskHistory.ExecKeepsHeard` | packages/mcp/src/tasks.ts:599-823 | Every event keeps: an outcome waiting to be recorded, an outstanding request and an answer each go back to an event this runtime heard. |
| `TaskHistory.AcceptedIsHeard` | packages/mcp/src/tasks.ts:761-790 | The answers an update takes are its own values for outstanding keys, each accepted by the schema of its request. |
| `TaskOutcomes.OutcomesAreReal` | packages/mcp/src/tasks.ts:599-688 | In every run, a step that changes a record has its cause earlier in the run: a completed record the callback's end with that very result, a failed one its end with that very error or, for the internal error, a run refused at its start whose callback was never called, a cancelled one its end with an error; a record is marked as interrupted only by a recovery or by the close of its own runtime. |
| `TaskOutcomes.NothingIsLost` | packages/mcp/src/tasks.ts:625-688 | In every run, when a run settles its outcome is on disk: the result, the very error code, or the cancellation if the task had been told to stop; unless the runtime is closed or a save has failed. |
| `TaskOutcomes.CloseLeavesNothing` | packages/mcp/src/tasks.ts:855-900 | In every run, a runtime that releases its lease with no save ever failed leaves every record on disk terminal and its lease file gone. |
| `TaskOutcomes.OnlyClosingWrites` | packages/mcp/src/tasks.ts:482-504 | In every run, a runtime that is closed or had a save fail writes interrupted records in its close and nothing else. |
| `TaskOutcomes.LimitIsKept` | packages/mcp/src/tasks.ts:574-576 | In every run no runtime has more tasks registered than its limit. |
| `TaskOutcomes.AnswersAreGiven` | packages/mcp/src/tasks.ts:761-823 | In every run, each answer handed to a callback is a value that some update of that task gave for that key, accepted by the schema of a request of that task for that key. |
| `TaskOutcomes.CancellationsAreHeard` | packages/mcp/src/tasks.ts:829-852 | In every run, a task whose record on disk asks for its cancellation has been told to stop and its waiter is rejected, once the continuation of the last save has run. |
| `TaskOutcomes.RunIsHeard` | packages/mcp/src/tasks.ts:599-823 | After every run, everything waiting in every runtime goes back to an event of that runtime in the run. |
| `TaskEffects.RunningTasksCanEnd` | packages/mcp/src/tasks.ts:599-688 | From every reachable state of an open runtime that is not closed and has no failed save, an executing task can be brought to its end with any outcome, and the disk then holds exactly that outcome: the result, or the error code, or cancelled where its record asked for that. |
| `TaskEffects.RuntimesCanClose` | packages/mcp/src/tasks.ts:855-900 | From every reachable state of an open runtime that is not closed there is a run of its own, starting nothing, that closes it: its lease is gone, and unless a save had failed before every record is terminal. |
| `TaskEffects.StartTakesEffect` | packages/mcp/src/tasks.ts:565-597 | A start below the limit, once saved and continued, has a working record stamped now on disk and in memory and is registered with nothing begun; nothing else changes. |
| `TaskEffects.SettleTakesEffect` | packages/mcp/src/tasks.ts:631-672 | Settling, once saved and continued, leaves on disk the result, the error code or the cancellation, stamped now, with the creation time kept; the run is settled and nothing else changes. |
| `TaskEffects.RequestTakesEffect` | packages/mcp/src/tasks.ts:690-738 | A request, once saved and continued, is on disk as asked and the task waits for exactly its keys, which are used from then on. |
| `TaskEffects.RequestIsRefused` | packages/mcp/src/tasks.ts:696-711 | Asking is refused to a task that was told to stop, is finished, waits already or repeats a key. |
| `TaskEffects.UpdateTakesEffect` | packages/mcp/src/tasks.ts:760-821 | Answers to some of the outstanding keys are kept, and the others stay asked as they were, on disk and in memory. |
| `TaskEffects.LastUpdateTakesEffect` | packages/mcp/src/tasks.ts:796-823 | The last answer puts the task back to work and hands all its answers over, unless the waiter was rejected. |
| `TaskEffects.UpdateIsRefused` | packages/mcp/src/tasks.ts:761-793 | Nothing is taken when no outstanding key is answered, or one of them by what its schema rejects. |
| `TaskEffects.CancelTakesEffect` | packages/mcp/src/tasks.ts:829-852 | A cancellation is on disk, then the task is told to stop and its waiter rejected; every other task is left alone. |
| `TaskEffects.CloseTakesEffect` | packages/mcp/src/tasks.ts:855-871 | A close tells every registered task to stop, rejects every waiter, and has every one of them to visit. |
| `TaskEffects.VisitTakesEffect` | packages/mcp/src/tasks.ts:874-890 | A close visits a task once: an unfinished one is recorded as interrupted with the internal error code, a finished one left alone. |
| `TaskEffects.ReleaseTakesEffect` | packages/mcp/src/tasks.ts:892-894 | With every task visited the lease is given up and memory emptied; a failed removal leaves the close to be tried again. |
| `TaskEffects.RunTakesEffect` | packages/mcp/src/tasks.ts:599-631 | A registered task's callback is called exactly when nobody asked to close, no save failed and it was not told to stop; a run refused otherwise ends with the internal error, or is left to the close. |
| `TaskEffects.FailureTakesEffect` | packages/mcp/src/tasks.ts:482-490 | A save that fails changes no record and breaks the store; a settling run is over, and a close goes on with its next task. |
| `TaskEffects.OperationsAreRefused` | packages/mcp/src/tasks.ts:565-852 | A start at the limit, an operation on a closed or broken store, a cancel of a finished or absent task and a close nobody asked for change nothing. |
| `TaskRecovery.StaleLeasesAreRecoverable` | packages/mcp/src/tasks.ts:321-364 | From every reachable state in which only such stale leases are left, the new runtime has a run of its own that opens the directory; it then holds the lease and every record is loaded and terminal. |
| `TaskRecovery.ScanFinishes` | packages/mcp/src/tasks.ts:323-364 | A scan that meets only stale leases comes to its end. |
| `TaskRecovery.RecoveryFinishes` | packages/mcp/src/tasks.ts:384-409 | A recovery comes to its end, whatever the records are. |
| `TaskRecovery.OpensExactlyWhenStale` | packages/mcp/src/tasks.ts:321-364 | The exact condition: in every reachable state a new runtime has a run of its own that opens the directory if and only if every lease left is of its own host, of a process that does not answer, and not of its own process id. |
| `TaskRecovery.OtherLeasesLock` | packages/mcp/src/tasks.ts:340-356 | With an unreadable lease, one of another host, one of a process that answers or one under its own process id in the directory, no run of the new runtime gets past its scan. |
| `TaskRecovery.RefusedLeavesNoLease` | packages/mcp/src/tasks.ts:412-422 | In every run, the lease of a refused open is left behind only if its removal failed. |
| `TaskRecovery.FailedOpen` | packages/mcp/src/tasks.ts:412-422 | A failed open removes its own lease, or leaves it where the removal failed too, and touches no other lease and no record. |
| `TaskRecovery.OwnProcessIdLocks` | packages/mcp/src/tasks.ts:321-322 | The promise that a dead owner's lease is recoverable fails on this input: a runtime that crashed right after publishing locks out every later one that is given the same process id, though no process answers. |
| `HookSession.Drive` | packages/bridge/src/hook-session.ts:197-331 | For every sequence of operations, suspensions, client events, timers and disposal, each event takes the session where it may from where the one before left it and tells exactly what it must: a login only of the account just reported, the logout owed when a login ends, nothing once disposal was asked for. The notices form login epochs each ended by one disconnect, an open epoch exists exactly while loggedIn, and with no operation in flight the status agrees with the flags. |
| `HookSession.StatusAgrees` | packages/bridge/src/hook-session.ts:544-567 | With no operation in flight: connected implies injected, a client exists exactly while connected, online means connected and logged in, a connected session has the derived status, and the status is never left at loading. A session that never reported a login is never disconnected. |
| `HookSession.LostPipeStatus` | packages/bridge/src/hook-status.ts:27-37 | A pipe lost from a connected session without failure leaves it disconnected if it was logged in and connecting if not, whether the pipe, the client or a refresh tells. |
| `HookSession.FirstLoadStatus` | packages/bridge/src/hook-status.ts:27-37 | A first load leaves connecting, loading while it injects, and error if the injection fails. |
| `HookSession.FailedHandshakeStatus` | packages/bridge/src/hook-session.ts:710-730 | A failed handshake leaves connecting, or disconnected if a login had come in, and error when the first connection timed out. |
| `HookSession.HandshakeStatus` | packages/bridge/src/hook-session.ts:694-701 | A handshake that succeeds is online with a real account and loaded without. |
| `HookSession.RealUins` | packages/common/src/uin.ts:9-11 | A real account number has five to ten decimal digits, and every such text is one. |
| `HookSession.NextKeepsInv` | packages/bridge/src/hook-session.ts:197-1012 | Every event keeps what a session promises, from any state that does: disciplined notices, flags and client in step, status in line with them. |
| `HookSession.NextTells` | packages/bridge/src/hook-session.ts:915-1012 | The trace grows by exactly what an event has to tell. |
| `HookSession.DisposedStays` | packages/bridge/src/hook-session.ts:313-331 | A disposed session stays disposed and tells nothing more. |
| `HookSession.ToldIsAllowed` | packages/bridge/src/hook-session.ts:915-1012 | What an event tells is at most one notice, and a login only of the real account just reported. |
| `HookSession.EveryEpochEndsOnce` | packages/bridge/src/hook-session.ts:915-1012 | In a disciplined notice trace the number of login epochs is the number of disconnects, plus one exactly when a login is open. |
| `HookSession.OneMore` | packages/bridge/src/hook-session.ts:915-1012 | A disconnect after an open login, or a login of another account, keeps the trace disciplined. |
| `HookSession.Handle` | packages/bridge/src/hook-session.ts:197-331 | Any event keeps the session invariant, takes it where it may and tells exactly what it must, nothing after disposal. |
| `HookSession.HandleClient` | packages/bridge/src/hook-session.ts:683-882 | A settled handshake, a report, a runtime error and disposal take the session exactly to its next state. |
| `HookSession.ResumeOperation` | packages/bridge/src/hook-session.ts:402-515 | Resuming a load or unload takes the session exactly to its next state. |
| `HookSession.StartOperation` | packages/bridge/src/hook-session.ts:197-254 | Starting any queued operation, pipe, close, watch and process events among them, takes the session exactly to its next state. |
| `HookSession.Session.ApplyStatus` | packages/bridge/src/hook-session.ts:544-567 | The status is error under a runtime or connection failure and otherwise the one derived from the flags. |
| `HookSession.Session.StartWatch` | packages/bridge/src/hook-session.ts:743-773 | A watch is armed only once, before the first connection, and not after an error or disposal. |
| `HookSession.Session.TearDownClient` | packages/bridge/src/hook-session.ts:884-913 | The client is closed and forgotten together, with its connection and login. |
| `HookSession.Session.Notify` | packages/bridge/src/hook-session.ts:981-1012 | A notice keeps the trace disciplined. |
| `HookSession.Session.ExpireConnection` | packages/bridge/src/hook-session.ts:782-803 | Only the current watch of an undisposed, unconnected session turns into a connection error. |
| `HookSession.Session.HandleLoginState` | packages/bridge/src/hook-session.ts:915-1012 | Login is exactly a reported state with a real account; a login notice is sent only when the account is new, a logout only when one was open, so repeated reports are silent. |
| `HookSession.Session.ReconcilePipeDown` | packages/bridge/src/hook-session.ts:595-642 | A live connection goes with exactly the logout it owes; a failure diagnostic is kept. |
| `HookSession.Session.AttemptConnect` | packages/bridge/src/hook-session.ts:646-684 | A handshake is on a fresh client or the current one, which is never a closed one. |
| `HookSession.Session.ReconcilePipeUp` | packages/bridge/src/hook-session.ts:569-593 | A live pipe means injected; a handshake starts unless already connected. |
| `HookSession.Session.FinishLoad` | packages/bridge/src/hook-session.ts:440-448 | After a load the status is the settled one, never loading. |
| `HookSession.Session.Load` | packages/bridge/src/hook-session.ts:402-438 | Injection is skipped where the component is already there; otherwise the session is loading until it ends. |
| `HookSession.Session.InjectDone` | packages/bridge/src/hook-session.ts:424-452 | A finished injection settles the status; a failed one is an error and polls once more. |
| `HookSession.Session.LoadTickDone` | packages/bridge/src/hook-session.ts:453-463 | A pipe that is up after a failed load is connected to. |
| `HookSession.Session.Unload` | packages/bridge/src/hook-session.ts:468-492 | Unloading sends exactly the logout owed and clears connection, watch and error. |
| `HookSession.Session.UnloadInjectorDone` | packages/bridge/src/hook-session.ts:484-512 | A failed native unload leaves the injection and reports an error. |
| `HookSession.Session.UnloadTickDone` | packages/bridge/src/hook-session.ts:494-512 | The status after unloading says whether the component is still resident. |
| `HookSession.Session.Refresh` | packages/bridge/src/hook-session.ts:517-542 | A refresh follows the polled pipe, up or down. |
| `HookSession.Session.PipeUp` | packages/bridge/src/hook-session.ts:215-236 | A disposed session ignores the pipe; any other connects or stays connected. |
| `HookSession.Session.PipeDown` | packages/bridge/src/hook-session.ts:238-254 | A lost pipe ends the connection and the login it carried, once. |
| `HookSession.Session.ClientClosed` | packages/bridge/src/hook-session.ts:857-881 | Only the current client's close counts. |
| `HookSession.Session.WatchExpires` | packages/bridge/src/hook-session.ts:743-803 | An expiry after connection, disposal or replacement changes nothing. |
| `HookSession.Session.ProcessGone` | packages/bridge/src/hook-session.ts:256-311 | A vanished process disposes the session and settles the logout it owes. |
| `HookSession.Session.HandshakeFailed` | packages/bridge/src/hook-session.ts:710-730 | A half-open client is dropped and a login it had reported is revoked with one notice. |
| `HookSession.Session.EndLogin` | packages/bridge/src/hook-session.ts:475-480 | The client is closed and exactly the logout it owes is reported. |
| `HookSession.Session.HandshakeSucceeded` | packages/bridge/src/hook-session.ts:694-701 | Both channels up, the login is the client's reported state. |
| `HookSession.Session.HandshakeDone` | packages/bridge/src/hook-session.ts:683-730 | Success connects and applies the client's login state; failure or runtime error tears down; after disposal nothing happens. |
| `HookSession.Session.LoginState` | packages/bridge/src/hook-session.ts:851-851 | A login report on the current client keeps the session invariant. |
| `HookSession.Session.RuntimeError` | packages/bridge/src/hook-session.ts:832-849 | A runtime error ends the login with one notice and outranks every other status. |
| `HookSession.Session.Dispose` | packages/bridge/src/hook-session.ts:313-331 | Disposal settles the logout owed, once, and leaves no client. |
| `PipeFrames.RoundTrip` | packages/bridge/src/qq-hook-client.ts:385-420 | For every list of frames the encoder accepts, decoding the concatenated bytes gives exactly their wire forms, nothing left over and no fault. |
| `PipeFrames.EncodesExactly` | packages/bridge/src/qq-hook-client.ts:385-420 | A frame is encoded exactly when command, message and body are within 4096, 65536 and 16777216 bytes, the operation is a 16-bit and the first value a 64-bit unsigned number. |
| `PipeFrames.FrameShape` | packages/bridge/src/qq-hook-client.ts:404-420 | An encoded frame is a header of forty bytes and then command, message and body. |
| `PipeFrames.FirstBytes` | packages/bridge/src/qq-hook-client.ts:408-411 | An encoded frame begins with the bytes of the magic and of version 1, low byte first, and the operation. |
| `PipeFrames.FeedEncoded` | packages/bridge/src/qq-hook-client.ts:385-545 | Encoded frames cut into chunks anywhere come out of the reader whole and in order. |
| `PipeFrames.Feed` | packages/bridge/src/qq-hook-client.ts:449-545 | For any byte stream and any chunking, the frames delivered, the first fault and the bytes retained depend on the concatenation alone. |
| `PipeFrames.DecodeSplits` | packages/bridge/src/qq-hook-client.ts:456-544 | Decoding a concatenation is decoding its first part and carrying the unfinished bytes into the second. |
| `PipeFrames.FrameRoundTrip` | packages/bridge/src/qq-hook-client.ts:385-420 | One encoded frame in front of any bytes decodes first, and the rest decodes as it would alone. |
| `PipeFrames.HeaderRoundTrip` | packages/bridge/src/qq-hook-client.ts:408-418 | Every header field is read back from where it was written, with 32-bit fields wrapped. |
| `PipeFrames.ValueOfLittle` | packages/bridge/src/qq-hook-client.ts:409-418 | Little-endian writing and reading are inverse within the width. |
| `PipeFrames.CompleteFrame` | packages/bridge/src/qq-hook-client.ts:503-543 | A whole frame at the front is the first one decoded. |
| `PipeFrames.IncompleteFrame` | packages/bridge/src/qq-hook-client.ts:469-486 | An incomplete frame yields nothing; a bad header yields its fault. |
| `PipeFrames.FrameReader.Push` | packages/bridge/src/qq-hook-client.ts:456-544 | A chunk yields the frames and fault of the buffered bytes followed by it, and buffers what they leave. |
| `PipeFrames.FrameReader.CheckHeader` | packages/bridge/src/qq-hook-client.ts:474-486 | Magic and version are checked first, then the three lengths. |
| `PipeFrames.ValidatePipeFrameLengths` | packages/bridge/src/qq-hook-client.ts:422-434 | The first part over its limit is the fault. |
| `PipeFrames.FrameReader.BufferedIsBounded` | packages/bridge/src/qq-hook-client.ts:422-434 | Between chunks less than a header and the three limits is buffered, and no complete frame. |
| `PipeFrames.FrameReader.Turn` | packages/bridge/src/qq-hook-client.ts:459-543 | One turn of the loop ends in a fault, a complete frame or the end of the chunk, as decoding says. |
| `PipeFrames.FrameReader.TakeHeader` | packages/bridge/src/qq-hook-client.ts:460-501 | Header bytes are collected across chunks and checked once complete. |
| `PipeFrames.FrameReader.TakePayload` | packages/bridge/src/qq-hook-client.ts:503-542 | Payload bytes are collected across chunks, and a complete frame leaves the reader empty. |
| `PipeFrames.FrameReader.CopyHeader` | packages/bridge/src/qq-hook-client.ts:461-467 | As many header bytes as are missing and present. |
| `PipeFrames.FrameReader.CopyPayload` | packages/bridge/src/qq-hook-client.ts:504-518 | As many payload bytes as are missing and present. |
| `RequestIds.WalkReaches` | packages/bridge/src/qq-hook-client.ts:1078-1084 | The wrapping successor visits every non-zero 32-bit identifier from every other. |
| `RequestIds.WalkCloses` | packages/bridge/src/qq-hook-client.ts:1078-1084 | Each step of the search is one nearer to any identifier not yet visited: the termination measure. |
| `RequestIds.Pending.SearchEnds` | packages/bridge/src/qq-hook-client.ts:1076-1084 | The wrapping search comes to a free identifier exactly when there is one; with none free it never ends. |
| `RequestIds.Pending.AllocateRequestId` | packages/bridge/src/qq-hook-client.ts:1073-1093 | Whenever some identifier is free the search ends at the first free one on the cycle, and the next search starts behind it. |
| `RequestIds.Pending.Register` | packages/bridge/src/qq-hook-client.ts:790-813 | A request waits under an identifier that was free in both maps, and no other entry changes. |
| `RequestIds.Pending.HandleFrame` | packages/bridge/src/qq-hook-client.ts:1351-1409 | An ack, reply or error settles only promises of the request registered under its identifier, each promise at most once; a runtime error fails every pending promise. |
| `RequestIds.Pending.RejectControlPending` | packages/bridge/src/qq-hook-client.ts:1018-1028 | Every pending promise fails, exactly once, and nothing stays pending. |
| `RequestIds.Pending.SettleAck` | packages/bridge/src/qq-hook-client.ts:1351-1361 | The ack waiting under an identifier is settled and removed. |
| `RequestIds.Pending.SettleReply` | packages/bridge/src/qq-hook-client.ts:1363-1378 | The reply waiting under an identifier is settled and removed. |
| `RequestIds.Pending.Abandon` | packages/bridge/src/qq-hook-client.ts:853-855 | Giving up deletes whatever waits under the identifier and settles nothing. |
| `AccountManager.Drive` | packages/onebot/src/manager.ts:281-800 | In every run of edges, callbacks, timers and settled promises, read off the manager's own log: it heard exactly these events; each generation begins right behind the ready migration that caused it, when all earlier ones of its account have ended; none begins after dispose was called; at no point are two generations of one account live. |
| `AccountManager.Handle` | packages/onebot/src/manager.ts:281-800 | An event reaches the generations exactly when it is current and effective, and its one effect is logged behind it; after disposal nothing is created; anything created found its account's earlier generations released. |
| `AccountManager.PendingStartsAreKept` | packages/onebot/src/manager.ts:621-747 | In whatever state, an account's pending start goes only by its own close or with the handoff it waits for. |
| `AccountManager.LastReleasePrepares` | packages/onebot/src/manager.ts:726-747 | While an account waits, the last release of its handoff leaves a migration for it; every other release leaves it waiting. |
| `AccountManager.OtherAccountsAreKept` | packages/onebot/src/manager.ts:381-747 | What happens to one account leaves the pending start, instances and migration of every other one alone. |
| `AccountManager.NextKeepsReleased` | packages/onebot/src/manager.ts:281-338 | Released stays released, and the manager is disposed exactly after dispose was called. |
| `AccountManager.HandleSession` | packages/onebot/src/manager.ts:281-651 | A start, a close, a ready migration and dispose take the manager exactly to its next state; only a ready migration that is current creates a generation. |
| `AccountManager.HandleMigration` | packages/onebot/src/manager.ts:423-516 | Progress, failure and retry take the manager exactly to its next state and create nothing. |
| `AccountManager.RunFacts` | packages/onebot/src/manager.ts:381-546 | In an orderly log generations of one account begin in turn, none after dispose, and never overlap at any point. |
| `AccountManager.NeverTwo` | packages/onebot/src/manager.ts:528-546 | An orderly log never has two generations of one account that began and did not end. |
| `AccountManager.LogGrows` | packages/onebot/src/manager.ts:528-546 | The log and the manager's own sets stay the same story. |
| `AccountManager.HandleRelease` | packages/onebot/src/manager.ts:670-800 | A settled dispose releases exactly its generation, when it succeeded or was forced. |
| `AccountManager.Manager.OnSessionStarted` | packages/onebot/src/manager.ts:381-399 | A start waits behind the account's retiring instances in one fresh handoff, or prepares the database at once; the whole new state is stated. |
| `AccountManager.Manager.PrepareDatabase` | packages/onebot/src/manager.ts:401-413 | One migration per account, and none once live or disposed. |
| `AccountManager.Manager.StartSession` | packages/onebot/src/manager.ts:528-583 | The one place where an instance is created: only with none live and all earlier ones released. |
| `AccountManager.Manager.OnReady` | packages/onebot/src/manager.ts:469-493 | A stale migration callback changes nothing; a current one starts the account or fails. |
| `AccountManager.Manager.OnProgress` | packages/onebot/src/manager.ts:495-516 | A stale progress report changes nothing. |
| `AccountManager.Manager.OnFailed` | packages/onebot/src/manager.ts:423-465 | A stale failure changes nothing; a current one fails the migration and may arm a retry. |
| `AccountManager.Manager.RetryFires` | packages/onebot/src/manager.ts:451-464 | A retry makes callbacks of the replaced task stale. |
| `AccountManager.Manager.OnSessionClosed` | packages/onebot/src/manager.ts:621-651 | A close cancels the account's migration and its own pending start only, and moves a live instance to retiring; the whole new state is stated. |
| `AccountManager.Manager.CloseSettles` | packages/onebot/src/manager.ts:653-668 | Only a successful dispose releases the instance. |
| `AccountManager.Manager.RetirementSucceeded` | packages/onebot/src/manager.ts:784-800 | A released generation no longer retires. |
| `AccountManager.Manager.HandoffAdvances` | packages/onebot/src/manager.ts:670-747 | A handoff starts its account only when every instance is released and it is still the pending one; superseded handoffs start nothing. |
| `AccountManager.Manager.FailHandoff` | packages/onebot/src/manager.ts:726-747 | A failed handoff frees the account for a later start, without disturbing a newer handoff. |
| `AccountManager.Manager.FinishHandoff` | packages/onebot/src/manager.ts:726-747 | The last release prepares the database only for the current handoff of an undisposed manager. |
| `AccountManager.Manager.Dispose` | packages/onebot/src/manager.ts:281-312 | Disposal leaves nothing live, and everything live retires. |
| `AccountManager.Manager.DisposeSettles` | packages/onebot/src/manager.ts:321-338 | Disposal releases exactly the instances whose dispose succeeded. |
| `LogQuota.Quota.EnsureCapacity` | packages/common/src/log-file-transport.ts:367-395 | Evicts the shortest oldest-first prefix of closed files that makes the bytes fit; failure means no closed file is left or the oldest one cannot be unlinked, and degrades. |
| `LogQuota.Quota.Reserve` | packages/common/src/log-file-transport.ts:217-248 | An accepted positive reservation leaves the total within the budget and not degraded, charged to its file; a refusal counts exactly one dropped line; files being written are untouched. |
| `LogQuota.Quota.Retry` | packages/common/src/log-file-transport.ts:327-348 | The quota recovers only with the total within budget, and an early unforced retry changes nothing. |
| `LogQuota.Quota.CleanupExpired` | packages/common/src/log-file-transport.ts:408-423 | Only expired closed files go, and all of them unless an unlink fails. |
| `LogQuota.Quota.DeleteManagedFile` | packages/common/src/log-file-transport.ts:425-436 | A deletion keeps the byte counter equal to the sum over tracked files. |
| `LogQuota.Quota.LoadManagedFiles` | packages/common/src/log-file-transport.ts:438-443 | Loading makes the counter the sum over the listing. |
| `LogQuota.Quota.RefreshClosedFiles` | packages/common/src/log-file-transport.ts:447-475 | Active files stay as tracked; everything else is what the listing says. |
| `LogQuota.Quota.RereadTracked` | packages/common/src/log-file-transport.ts:450-465 | Tracked closed files follow the listing or are forgotten. |
| `LogQuota.Quota.AddListed` | packages/common/src/log-file-transport.ts:467-474 | Files not tracked before are added. |
| `LogQuota.Quota.Activate` | packages/common/src/log-file-transport.ts:161-191 | A file being written is tracked with its size, or the quota degrades. |
| `LogQuota.Quota.Deactivate` | packages/common/src/log-file-transport.ts:193-201 | Closing a file runs exactly that maintenance without it among the active ones, unless maintenance is suspended. |
| `LogQuota.Quota.Maintain` | packages/common/src/log-file-transport.ts:350-365 | What is left is the re-read files less the expired closed ones, up to the first that is stuck, less the shortest oldest-first run that makes the rest fit; then the total fits or the quota is degraded. |
| `LogQuota.Quota.UpdatePolicy` | packages/common/src/log-file-transport.ts:272-287 | A new policy runs exactly that maintenance under its limits; the quota is degraded exactly when the total then exceeds them. |
| `LogQuota.Quota.Charge` | packages/common/src/log-file-transport.ts:244-247 | A reservation is charged to its file and to the counter. |
| `LogQuota.MaintenanceSparesWhatFits` | packages/common/src/log-file-transport.ts:350-365 | With nothing expired and the re-read files within the budget, maintenance deletes nothing. |
| `LogQuota.EvictionOrder` | packages/common/src/log-file-transport.ts:372-374 | Of two files the one written earlier goes first, and of two equally old the one whose path comes first. |
| `LogQuota.TrimSparesOthers` | packages/common/src/log-file-transport.ts:367-395 | Making room deletes only closed files that can be unlinked, and changes none of the others. |
| `LogQuota.PurgeSparesOthers` | packages/common/src/log-file-transport.ts:408-423 | A purge deletes only expired closed files that can be unlinked, and all of them when none is stuck. |
| `LogQuota.RereadAgrees` | packages/common/src/log-file-transport.ts:447-475 | Re-reading the files that are left changes nothing. |
| `LogQuota.Quota.PickOldest` | packages/common/src/log-file-transport.ts:372-374 | The file chosen is the oldest of the closed ones. |
| `LogQuota.Quota.ReserveHealthy` | packages/common/src/log-file-transport.ts:227-248 | A write that fits is charged; otherwise room is made oldest first, or it is refused and the quota degrades. |
| `LogQuota.Drive` | packages/common/src/log-file-transport.ts:147-325 | In every run, with the file system changing under it and with or without maintenance at load, each call reacts as it may to what the call before left: a write is accepted within the budget and charged, or refused for one of four reasons and counted; files being written are never lost; the dropped line count is the number of refused writes. |
| `LogQuota.DroppedLinesAreRefusals` | packages/common/src/log-file-transport.ts:217-248 | Along any chain of calls the dropped line count grows by exactly the refused writes. |
| `LogQuota.Handle` | packages/common/src/log-file-transport.ts:161-325 | One call makes of the quota exactly its next state, which `Reacts` allows. |
| `LogQuota.HandleWrite` | packages/common/src/log-file-transport.ts:217-248 | A write is accepted within the budget and charged to its file, or refused because the retry is not due, the tree or the file cannot be read, or nothing more can be evicted. |
| `LogQuota.HandleFile` | packages/common/src/log-file-transport.ts:161-287 | Opening, closing and a new policy determine tracking, budget state and settings. |
| `LogQuota.HandleAside` | packages/common/src/log-file-transport.ts:203-325 | Failures, suspensions and clearing determine the quota they leave. |
| `LogQuota.Quota.MaintainOnLoad` | packages/common/src/log-file-transport.ts:155-158 | Maintenance at load does the same to the loaded files, and degrades exactly when the rest exceeds the budget. |
| `LogQuota.Quota.StorageFailed` | packages/common/src/log-file-transport.ts:250-256 | A storage failure degrades the quota and schedules the retry. |
| `LogQuota.Quota.SuspendMaintenance` | packages/common/src/log-file-transport.ts:203-206 | Maintenance is suspended while some suspension was not given back. |
| `LogQuota.Quota.ResumeMaintenance` | packages/common/src/log-file-transport.ts:207-214 | Giving a suspension back twice counts once. |
| `LogQuota.Quota.ClearClosedFiles` | packages/common/src/log-file-transport.ts:289-325 | Every closed file goes but those that cannot; the freed bytes are exact; the quota is degraded afterwards exactly when the rest exceeds the budget, or it was and a deletion failed. |
| `LogQuota.Quota.Sweep` | packages/common/src/log-file-transport.ts:298-310 | Files being written and undeletable ones stay, everything else goes. |
| `LogQuota.OldestExists` | packages/common/src/log-file-transport.ts:372-374 | Eviction order has a first file. |
| `LogQuota.PrefixGrows` | packages/common/src/log-file-transport.ts:376-384 | One more eviction of the oldest file, while the bytes do not fit, extends the shortest prefix. |
| `Totals.TotalWithout` | packages/common/src/log-file-transport.ts:425-436 | A sum over a map does not depend on the order in which entries are taken. |
| `Downloads.Drive` | packages/mcp/src/client.ts:171-234 | For every interleaving of downloads sharing a directory: each event does to disk, reservations and downloads what it must to what the one before left, and at every point the directory is as it was found, or its bytes are within the quota. |
| `Downloads.DiskIsCovered` | packages/mcp/src/client.ts:178-210 | Bytes on disk never exceed unreserved bytes plus reservations, when each reservation covers its two files. |
| `Downloads.ReleaseUnreserved` | packages/mcp/src/client.ts:218-234 | A release turns exactly what was written into unreserved bytes. |
| `Downloads.AddKeepsBudget` | packages/mcp/src/client.ts:206-215 | An admitted reservation keeps the budget. |
| `Downloads.ReleaseKeepsBudget` | packages/mcp/src/client.ts:218-234 | A release keeps the budget. |
| `Downloads.FilesKeepBudget` | packages/mcp/src/client.ts:1106-1123 | Whatever happens to one download's own two files within its reservation, the budget is kept. |
| `Downloads.Handle` | packages/mcp/src/client.ts:1032-1123 | Every event of every download makes of the directory exactly the next state, and keeps its invariant. |
| `Downloads.Directory.WithinQuota` | packages/mcp/src/client.ts:171-234 | Once anything was admitted the directory holds no more than its quota. |
| `Downloads.Directory.ReserveDownloadQuota` | packages/mcp/src/client.ts:171-216 | Admission is refused exactly when existing unreserved bytes, reservations and the request exceed the quota. |
| `Downloads.Directory.SumReserved` | packages/mcp/src/client.ts:180-186 | The sum over active reservations. |
| `Downloads.Directory.SumExisting` | packages/mcp/src/client.ts:188-204 | The sum over files no reservation speaks for. |
| `Downloads.Directory.ReleaseDownloadQuota` | packages/mcp/src/client.ts:218-234 | A release removes one reservation and keeps the others' bounds. |
| `Downloads.Directory.Admit` | packages/mcp/src/client.ts:1032-1042 | A header is admitted exactly when its size, or the limit for an unknown size, fits. |
| `Downloads.Directory.OpenDone` | packages/mcp/src/client.ts:1044-1050 | A failed open releases its reservation. |
| `Downloads.Directory.ChunkArrives` | packages/mcp/src/client.ts:1106-1118 | A chunk is taken exactly while declared size and limit allow. |
| `Downloads.Directory.WriteGrows` | packages/mcp/src/client.ts:1120-1120 | A partial write stays within the reservation. |
| `Downloads.Directory.WriteDone` | packages/mcp/src/client.ts:1120-1123 | A finished write is counted; a failed one fails the download. |
| `Downloads.Directory.Rename` | packages/mcp/src/client.ts:1299-1304 | The commit moves the part file under the same reservation, and only at the declared size. |
| `Downloads.Directory.CommitDone` | packages/mcp/src/client.ts:1305-1306 | The reservation is released after the rename. |
| `Downloads.Directory.CleanUp` | packages/mcp/src/client.ts:1352-1363 | A failure releases the reservation whether or not the part file could be removed. |
| `SingleFlight.Drive` | packages/common/src/single-flight-cache.ts:50-150 | In every run under a clock that never runs backwards, read off the cache's log: it heard exactly these events at these times; every caller before disposal was given a live entry, shared the pending load of its key or began one when none was pending; values were stored only by pending loads; every invalidation took effect. |
| `SingleFlight.DetachedLoadsAreSilent` | packages/common/src/single-flight-cache.ts:94-112 | A load begun before an invalidation of its key, a clear or the disposal never stores a value, is never joined and never serves a caller afterwards. |
| `SingleFlight.OneLoadAtATime` | packages/common/src/single-flight-cache.ts:66-91 | Between two loads of one key the first has settled, or the key was forgotten. |
| `SingleFlight.HitsAreYoung` | packages/common/src/single-flight-cache.ts:55-64 | A cached answer is the value its load resolved with, less than the TTL ago. |
| `SingleFlight.FreshIsServed` | packages/common/src/single-flight-cache.ts:55-64 | Until disposal an unforced caller is given the value stored last under its key, if the key was not forgotten since and the value is younger than the TTL. |
| `SingleFlight.LatestThen` | packages/common/src/single-flight-cache.ts:75-80 | What is stored last after one more step: stored by it, or stored last before and neither replaced nor forgotten by it. |
| `SingleFlight.Handle` | packages/common/src/single-flight-cache.ts:50-150 | Each event has at most one effect, of the kind it can have; invalidations and callers before disposal always have one. |
| `SingleFlight.AttachedThen` | packages/common/src/single-flight-cache.ts:66-112 | What is attached after one more step: begun by it, or attached before and not forgotten by it. |
| `SingleFlight.Cache.Get` | packages/common/src/single-flight-cache.ts:50-92 | There is a hit exactly for an unforced call with a live entry; otherwise callers join the one pending load, and only where there is none is one begun. |
| `SingleFlight.Cache.LoadResolves` | packages/common/src/single-flight-cache.ts:72-83 | A load writes the cache exactly while it is pending, that is attached to its key and not settled. |
| `SingleFlight.Cache.Insert` | packages/common/src/single-flight-cache.ts:75-80 | A refreshed entry goes to the end, so the entries stay ordered by load time. |
| `SingleFlight.Cache.LoadSettles` | packages/common/src/single-flight-cache.ts:85-89 | Settling removes only the load's own slot, never a newer one. |
| `SingleFlight.Cache.Begin` | packages/common/src/single-flight-cache.ts:85-91 | A new load takes the slot of its key. |
| `SingleFlight.Cache.Invalidate` | packages/common/src/single-flight-cache.ts:95-99 | From here on no load begun earlier can reach the cache under the key; other keys are untouched. |
| `SingleFlight.Cache.Clear` | packages/common/src/single-flight-cache.ts:102-106 | The same for every key. |
| `SingleFlight.Cache.Forget` | packages/common/src/single-flight-cache.ts:102-106 | Everything cached and in flight is dropped, and the log says so. |
| `SingleFlight.Cache.Dispose` | packages/common/src/single-flight-cache.ts:109-112 | A disposed cache is empty with no timer. |
| `SingleFlight.Cache.TimerFires` | packages/common/src/single-flight-cache.ts:135-148 | The sweep that stops at the first live entry has removed exactly the expired ones. |
| `SingleFlight.Cache.ScheduleExpiry` | packages/common/src/single-flight-cache.ts:121-149 | With a finite TTL a timer is armed while anything is cached, due by the oldest expiry or 1 ms after arming. |
| `SingleFlight.Cache.CancelExpiryIfEmpty` | packages/common/src/single-flight-cache.ts:114-119 | No timer outlives the last entry. |
| `SingleFlight.NothingExpiredAfter` | packages/common/src/single-flight-cache.ts:139-145 | In load order, a live first entry means everything after it is live. |
| `SingleFlight.WithoutKeepsOrder` | packages/common/src/single-flight-cache.ts:77-78 | Deleting a key keeps the order. |
| `MediaMigration.MigrateUntilComplete` | packages/onebot/src/media-store-migration.ts:30-128 | After any number of runs, each cancelled, failed, crashed between batches or finished: once complete, the tables are those of a single pass; and a last uninterrupted run completes exactly when that pass meets no bad row. |
| `MediaMigration.Database.Migrate` | packages/onebot/src/media-store-migration.ts:33-128 | Whatever stops a run, one pass over what is left leads to the same tables; an uninterrupted run terminates, and completes exactly when that pass succeeds. |
| `MediaMigration.Database.RunBatch` | packages/onebot/src/media-store-migration.ts:62-120 | A committed batch keeps the result of the remaining pass and makes progress on (phase, rows beyond the cursor); a refused one changes nothing. |
| `MediaMigration.Database.InsertRows` | packages/onebot/src/media-store-migration.ts:79-117 | A transaction writes all rows of its batch or none. |
| `MediaMigration.BatchKeepsRemaining` | packages/onebot/src/media-store-migration.ts:64-78 | A full batch and its new cursor leave the result of the remaining pass unchanged. |
| `MediaMigration.EmptyBatchKeepsRemaining` | packages/onebot/src/media-store-migration.ts:76-78 | Moving to the next phase leaves it unchanged. |
| `MediaMigration.RefusedBatch` | packages/onebot/src/media-store-migration.ts:82-117 | A refused batch shows that the remaining pass would be refused. |
| `MediaMigration.BeyondAdvances` | packages/onebot/src/media-store-migration.ts:64-78 | The rows beyond a batch's last rowid are exactly those after the batch. |
| `MediaMigration.PositiveRowids` | packages/onebot/src/media-store-migration.ts:30-32 | Starting from cursor 0 passes over no row exactly when every rowid is positive. |
| `MediaMigration.PassSplits` | packages/onebot/src/media-store-migration.ts:62-120 | A pass in two parts is the pass over the whole. |
| `MediaMigration.PassSucceeds` | packages/onebot/src/media-store-migration.ts:82-97 | A pass succeeds exactly when every row has a known type and, among entries, an object as data. |
| `MediaMigration.FirstEntryWins` | packages/onebot/src/media-store-migration.ts:53-54 | After a pass an entry id holds what the destination had, or else its first row in rowid order, and nothing else was added. |
| `MediaMigration.FirstKeyWins` | packages/onebot/src/media-store-migration.ts:55-57 | The same for alias keys. |
| `EventBuffer.Follow` | packages/mcp/src/subscriptions.ts:384-422 | For every interleaving of arrivals, failures and reads by next_cursor: the subscription hears exactly what was delivered, every read gets its one right answer, and while no answer reports a gap the answers put together are the matched history up to the cursor. |
| `EventBuffer.GapFreeReaderSeesAll` | packages/mcp/src/subscriptions.ts:406-422 | A reader whose answers report no gap has seen exactly the matched history up to its cursor, whatever was dropped behind it: nothing lost, repeated or reordered. |
| `EventBuffer.GapMeansLoss` | packages/mcp/src/subscriptions.ts:416-416 | A gap with a live source means that an event behind the cursor was forced out and will not be seen. |
| `EventBuffer.OneAnswer` | packages/mcp/src/subscriptions.ts:406-422 | History, source state and cursor determine the answer. |
| `EventBuffer.Subscription.Read` | packages/mcp/src/subscriptions.ts:384-422 | A cursor beyond the stream is refused; while connected the gap flag is true exactly when an event after the cursor was dropped; the events are the history after the cursor that is still held. |
| `EventBuffer.Subscription.Push` | packages/mcp/src/subscriptions.ts:626-636 | The buffer is the longest suffix of the matched history within both bounds, numbered contiguously, with its exact byte total. |
| `EventBuffer.Subscription.Receive` | packages/mcp/src/subscriptions.ts:543-640 | Valid events of a live source are heard, in order; anything else stops the source and changes no buffer. |
| `EventBuffer.Subscription.Selects` | packages/mcp/src/subscriptions.ts:614-624 | The filter an event is run through says exactly whether it matches. |
| `EventBuffer.Subscription.FailSource` | packages/mcp/src/subscriptions.ts:642-659 | A failed source disconnects the subscription for good. |
| `EventBuffer.Subscription.Established` | packages/mcp/src/subscriptions.ts:466-476 | A subscription is connected unless its source stopped meanwhile. |
| `EventBuffer.AppendKeepsOnlyFrom` | packages/mcp/src/subscriptions.ts:626-636 | A suffix that did not fit never fits again. |
| `EventBuffer.LaterIsSuffix` | packages/mcp/src/subscriptions.ts:418-420 | Filtering a contiguous buffer by cursor gives the suffix behind it. |
| `LogRings.RingBuffer.Push` | packages/common/src/logger.ts:91-100 | The ring holds exactly the newest cap of everything ever pushed. |
| `LogRings.RingBuffer.Newest` | packages/common/src/logger.ts:102-108 | Counting back from the newest retained record, or nothing beyond them. |
| `LogRings.Logger.Emit` | packages/common/src/logger.ts:247-295 | Ids increase; a file-only record uses one without entering a ring; trace records go to their own ring. |
| `LogRings.Logger.TakeNewest` | packages/common/src/logger.ts:337-359 | The backward merge is the newest records of the log less what each ring has let go. |
| `LogRings.Logger.Pick` | packages/common/src/logger.ts:346-356 | The newest record not yet taken, from whichever ring has it. |
| `LogRings.Logger.MergeLogRings` | packages/common/src/logger.ts:337-359 | The last limit, or all, of the retained records in emission order. |
| `LogRings.Logger.Snapshot` | packages/common/src/logger.ts:361-363 | The whole log in order, less what each ring has let go. |
| `LogRings.Logger.Recent` | packages/common/src/logger.ts:365-369 | A suffix of the snapshot: the truncated limit, at least one, all of it for NaN and infinity. |
| `LogRings.MergeIsUnion` | packages/common/src/logger.ts:337-359 | The merge has exactly the entries of both rings. |
| `LogRings.MergeIsSorted` | packages/common/src/logger.ts:337-359 | The merge is in strictly increasing id order. |
| `LogRings.MergeIsRetained` | packages/common/src/logger.ts:337-359 | Merging the newest n ordinary and t trace records gives the log itself without the older ones, in order. |
| `LogRings.NothingLetGo` | packages/common/src/logger.ts:361-363 | Rings that never overflowed show the whole log. |
| `LogSanitize.SanitizeLogLine` | packages/common/src/log-sanitize.ts:84-130 | Span slicing equals the recursive keep-one-or-drop-one-sequence definition; the output is a subsequence of the line with no C0 control but TAB and LF, no DEL and no C1 control. |
| `LogSanitize.SanitizeTwice` | packages/common/src/log-sanitize.ts:84-130 | Sanitizing twice is sanitizing once. |
| `LogSanitize.OutputIsVisible` | packages/common/src/log-sanitize.ts:84-111 | No control unit remains. |
| `LogSanitize.OutputIsSubsequence` | packages/common/src/log-sanitize.ts:84-111 | Nothing is added or reordered. |
| `LogSanitize.UnchangedIffVisible` | packages/common/src/log-sanitize.ts:113-115 | A line comes back unchanged exactly when it has no control unit. |
| `LogSanitize.VisiblePrefix` | packages/common/src/log-sanitize.ts:103-106 | Visible text is kept and does not affect what follows. |
| `LogSanitize.CsiVanishes` | packages/common/src/log-sanitize.ts:8-18 | A CSI sequence disappears through its final byte; an unterminated one takes the rest of the line (section 5.4 of ECMA-48). |
| `LogSanitize.ControlStringVanishes` | packages/common/src/log-sanitize.ts:20-38 | A control string disappears with payload and terminator; an unterminated one takes the rest (section 5.6 of ECMA-48). |
| `LogSanitize.SevenBitFormAgrees` | packages/common/src/log-sanitize.ts:45-57 | The seven-bit ESC form and the eight-bit C1 form of every opener remove the same text. |
| `LogSanitize.EscapeVanishes` | packages/common/src/log-sanitize.ts:59-73 | A short escape sequence disappears whole, intermediates and final unit. |
| `LogSanitize.LoneEscapeVanishes` | packages/common/src/log-sanitize.ts:59-73 | An ESC that no sequence follows is dropped alone, and what follows is read again. |
| `LogSanitize.SkipCsi` | packages/common/src/log-sanitize.ts:8-18 | Ends behind the first final byte, or at the end of the line. |
| `LogSanitize.SkipControlString` | packages/common/src/log-sanitize.ts:20-38 | Ends behind the first terminator, or at the end of the line. |
| `LogSanitize.SkipEscSequence` | packages/common/src/log-sanitize.ts:40-73 | Ends behind a whole escape sequence, or right behind the ESC. |
| `LogSanitize.SkipControl` | packages/common/src/log-sanitize.ts:92-106 | Every control sequence is at least one unit and ends within the line. |

## Left out

- TaskRuntime: the store of packages/mcp/src/tasks.ts is modelled on values, not as a class, because the theorems quantify over runs of many runtimes; update in place and aliasing of its maps are not captured, and the serial queue's first-in-first-out order is widened to any order.
- TaskSystem: publishing, listing and renaming are atomic, a dead process stays dead, and lease names and task ids are never drawn twice; scope.json, record validation and file permissions are not modelled, and a save either takes full effect or none.
- TaskRecovery: the source promises that a dead owner's lease is recoverable after a crash; that is false when the opener has the dead owner's process id (OwnProcessIdLocks gives the input), and OpensExactlyWhenStale is the exact condition. Which other runtime might remove a blocking lease in the meantime is not part of it.
- TaskTheorems: pagination, listing and the protocol handlers are not modelled.
- HookSession: message texts, receive health, the periodic login detection and packet traffic are left out; listeners and the client factory do not throw; refresh and unload after disposal are not claimed anything beyond the invariant.
- PipeFrames: command and message texts stay bytes, so UTF-8 conversion is not modelled; a frame handler that throws is not modelled.
- RequestIds: hello handshakes and login waiters are left out, and of the sender's timeouts only the deletion of its entries is modelled. `RequestIds.Pending.AllocateRequestId` needs a free identifier, because the source's search does not end otherwise (SearchEnds).
- AccountManager: lifecycle failure bookkeeping, offline notices and login history are left out; the order in which a handoff releases its instances is any order; a forced release counts as released whether or not the force itself threw; what a disposed manager still clears once its disposal settles is not modelled.
- LogQuota: error texts and reporting are left out; a path stands for its rank in locale order; a deletion either works or leaves the file.
- Downloads: base64, hashes, chunk indices and the terminal's other checks only decide whether a download fails, which is arbitrary here; fresh file names are assumed never to exist yet; all clients of a directory have the same limit, and no outside writer touches it. The limit on concurrent streams is not claimed: the source gives an upload's slot back at once.
- EventBuffer.Follow: at most 2^53 - 1 steps, because JavaScript numbers count cursors exactly only that far.
- SingleFlight: the loader and the decision to cache are arbitrary; a TTL that is not a number, and a clock that runs backwards, are not modelled.
- MediaMigration: key folding and metadata serialisation are arbitrary functions; opening the databases, the journal and columns of unexpected types are not modelled; the source tables do not change between runs.
- EventBuffer: the loop over several subscriptions of one source treats each alone, so one subscription is modelled; update notifications, heartbeats, URI parsing and connection set-up are left out.
- LogRings: rendering, redaction, console and file output, and subscribers are left out.
- LogSanitize: the copy that releases the original string's memory has no effect on the value and is not modelled.
- Sockets, native injection, worker threads, SQLite, the WebUI, configuration, action schemas and message codecs are not part of this model.
