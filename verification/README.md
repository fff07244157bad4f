# AgentV: protocol and state-machine model

AgentV is an outbound-only agent that runs on Linux and Windows hosts. It keeps an
authenticated WebSocket session with its control plane, answers bounded diagnostic tool calls,
sends periodic snapshots, restarts allowlisted services through a privileged helper, and is
installed and supervised by small native programs and scripts. This project models the parts of
AgentV whose correctness depends on the order of events, and proves what they keep in every run.

`dafny verify dfyconfig.toml` checks everything.

## How it is built

Code that reacts to timers, sockets, processes and users is modelled twice. A pure `Next`
function says what one event does to the state; `Run` folds a list of events, so a theorem about
`Run` is about every interleaving. Beside it stands a class with the fields of the original,
whose methods are written step by step as the original is and are proved to do exactly what
`Next` says (`View() == Next(old(View()), e)`). The theorems are about the first, and the second
connects them to the code.

| file | what it models |
|---|---|
| `TreeTeardown.dfy` | the lock-free arbitration between the process watcher and any number of stop callers |
| `LogRotation.dfy` | the ring of four log files, interrupted after any file operation |
| `ToolExecutor.dfy` | two gates over one queue budget, timeouts, cancellation, permits held past a timeout |
| `Transport.dfy`, `SessionLifecycle.dfy` | the reconnecting client and the generation-tagged session on top of it |
| `ActionHelper.dfy`, `LedgerPruning.dfy`, `LedgerRetention.dfy` | the write-ahead restart helper, its bounded ledger, and both together |
| `RestartOutcome.dfy` | how a restart's outcome becomes the `retryable` flag, four layers up |
| `JsonValues.dfy`, `CanonicalJson.dfy` | JSON values and the canonical text that identifies one |
| `RestartRequests.dfy` | the validated requests whose canonical text is hashed |
| `Compaction.dfy`, `JsonLength.dfy` | the bounded model view of a tool result, and the length of JSON text |
| `SnapshotTrimming.dfy`, `LinuxSnapshots.dfy`, `WindowsSnapshots.dfy` | the trimming loop and the two snapshot schedulers |
| `WindowsEvidence.dfy` | from native rows to coverage and findings |
| `CollectorRunner.dfy` | the stage scanner and the settlement of one collector process |
| `ServiceEntry.dfy` | the Windows service entry: pipe framing, START, STOP and deadlines |
| `PathWalk.dfy` | the trusted walk of the runtime path |
| `Recovery.dfy` | boot recovery of an interrupted installation, stopped after any command |
| `Redaction.dfy` | redaction of an object graph with sharing and cycles |

## What turned out to be different

Some properties one would expect do not hold of the code. Each is proved with an input that
shows it and with the condition under which it does hold, for all inputs.

- Key-order independence of the canonical text needs a comparison that never calls two different
  keys equal; `localeCompare` may (`CanonicalJson.KeyOrderIndependentIff`,
  `CanonicalJson.TiedKeysKeepTheirOrder`). The helper never hashes such keys: its requests have
  none but eight names of ASCII letters and underscores, and a comparison that tells these apart
  lets the hash identify them (`RestartRequests.RequestsAreIdentified`).
- The Linux snapshot manager can send the snapshot of a generation that is over: exactly when it
  was restarted or stopped while the payload was being compressed
  (`LinuxSnapshots.StaleIffRestartedWhileCompressing`).
- A pong of a replaced socket disarms the pong deadline of the current one
  (`Transport.StalePongExample`); a run goes otherwise than with a listener that tests its socket
  exactly if such a pong arrives while a deadline is armed (`Transport.StalePongsMatterIff`).
- A handshake answer that arrives before the handshake was sent leaves its deadline armed in a
  ready session, which is then torn down (`SessionLifecycle.EarlyHandshakeExample`); it is armed
  in a ready session exactly if the handshake was sent when the session was ready already
  (`SessionLifecycle.ReadyWithDeadlineIff`).
- Two restart commands can be outstanding after a crash of the helper
  (`ActionHelper.TwoCommandsExample`, and exactly when: `ActionHelper.SecondCommandIff`), and on a
  file system that does not synchronise directories a loss of power can cost a record and repeat
  a restart (`ActionHelper.UnsyncedRecordExample`, and exactly when:
  `ActionHelper.RestartsAgainIff`).
- A control stream of more than 8192 bytes is judged differently depending on how it is cut
  (`ServiceEntry.CrossingChunkIff`, `ServiceEntry.CrossingChunkExample`).
- The trusted walk accepts a file with a slash behind its name, which section 4.13 of IEEE Std
  1003.1-2017 (Base Definitions) does not; this is the only difference
  (`PathWalk.AgreesWithStandard`, `PathWalk.TrailingSlashExample`).
- Boot recovery can delete the evidence of a transaction on which the sides disagree, if the
  installer lost power after it had selected the previous installation and before it noted that
  (`Recovery.RelinkedBeforeTheNote`, and exactly when: `Recovery.RecoveryIsSafeIff`).
- Boot recovery restarts a changed service only in the run that changed it. If that run is killed
  before the restart and the machine stays up, the next one takes the marker of the old process
  for the restored one's (`Recovery.KilledBeforeTheRestart`); where the recorded candidate differs
  from the previous release every run restarts it (`Recovery.RenewedInEveryRun`).
- Filtering a Windows listing keeps its counts only for limits that are not negative
  (`WindowsEvidence.FilterCountsIff`). No tool passes others: the schemas ask for at least 1, and
  then the counts are right (`WindowsEvidence.ToolListingCounts`).
- Redaction calls an object circular the second time it is met, also when it is only shared
  (`Redaction.SharedIsCalledCircular`, and exactly when: `Redaction.CircularIff`).

## Model

| member | source | states |
|---|---|---|
| TreeTeardown.TeardownAtMostOnce | packaging/windows/AgentV.ServiceHost.cs:214-247 | in every interleaving of one watcher and any number of stop callers, graceful stop, terminate and dispose each run at most once |
| TreeTeardown.StopExcludesCrash | packaging/windows/AgentV.ServiceHost.cs:214-237 | no run has both a Stop that returned true and the crash callback |
| TreeTeardown.TrueStopWasObserved | packaging/windows/AgentV.ServiceHost.cs:221-247 | Stop returns true only if terminate ran, once, and saw the tree empty, and dispose ran, once, and did not throw |
| TreeTeardown.TeardownHappens | packaging/windows/AgentV.ServiceHost.cs:221-247 | once teardown has completed it has happened: dispose ran once and last, terminate once before it unless a throwing graceful stop skipped it, graceful once if and only if a Stop call owns the teardown, and the published answer, which is the owner's, is true if and only if terminate returned true and dispose did not throw |
| TreeTeardown.CrashIffNotTakenOver | packaging/windows/AgentV.ServiceHost.cs:214-220 | a watcher that owned the teardown and is through has run the crash callback, once, if and only if no Stop call took the outcome over from it |
| TreeTeardown.OwnerCompletes | packaging/windows/AgentV.ServiceHost.cs:239-247 | no interleaving keeps a Stop call that claimed the teardown from completing it in four steps of its own |
| TreeTeardown.AnswersAreExplained | packaging/windows/AgentV.ServiceHost.cs:221-237 | every answer of Stop is the published one, or false because the crash was committed or because that call gave up at its deadline |
| TreeTeardown.GivingUpEnds | packaging/windows/AgentV.ServiceHost.cs:231-232 | a call whose check finds its deadline over and no completion has returned false for good |
| TreeTeardown.UnexpectedExitIsServed | packaging/windows/AgentV.ServiceHost.cs:214-220 | a child that exits while nobody has asked to stop leads to terminate, dispose and the crash callback |
| TreeTeardown.StopIsServed | packaging/windows/AgentV.ServiceHost.cs:221-247 | a Stop call while the child runs leads to graceful, terminate and dispose in that order, and answers what they showed |
| TreeTeardown.RetriesAreBounded | packaging/windows/AgentV.ServiceHost.cs:222-226 | the compare-and-swap loop of one caller fails at most twice, so it ends |
| TreeTeardown.NoWaiterSleepsPastCompletion | packaging/windows/AgentV.ServiceHost.cs:228-246 | once teardown has completed no caller is asleep on the monitor, and the next check of an awake one returns the published result |
| TreeTeardown.RunInv | packaging/windows/AgentV.ServiceHost.cs:203-248 | the ownership invariant behind these holds after every run |
| TreeTeardown.Teardown.CompareExchange | packaging/windows/AgentV.ServiceHost.cs:215-226 | swaps and reports the previous value exactly when the expected value is found |
| TreeTeardown.Teardown.ChildExited | packaging/windows/AgentV.ServiceHost.cs:214-216 | the watcher's claim is the step of the model |
| TreeTeardown.Teardown.DecideCrash | packaging/windows/AgentV.ServiceHost.cs:219 | the watcher's second swap and the crash callback are the step of the model |
| TreeTeardown.Teardown.ClaimStop | packaging/windows/AgentV.ServiceHost.cs:222-227 | one attempt of a stop caller is the step of the model |
| TreeTeardown.Teardown.PublishFromStop | packaging/windows/AgentV.ServiceHost.cs:242-246 | a caller that owned teardown publishes its observation and wakes everybody |
| TreeTeardown.Teardown.CheckCompletion | packaging/windows/AgentV.ServiceHost.cs:229-236 | a waiting caller leaves with the published result, or sleeps, or times out |
| LogRotation.RotationShiftsFiles | packaging/windows/AgentV.ServiceHost.cs:257-262 | each operation of a rotation finds its target free, and after any number of them the files have moved as planned |
| LogRotation.RotationKeepsText | packaging/windows/AgentV.ServiceHost.cs:259-261 | rotation, also when interrupted, loses nothing but the oldest file |
| LogRotation.WriteKeepsSuffix | packaging/windows/AgentV.ServiceHost.cs:255-265 | a write leaves `.3 ++ .2 ++ .1 ++ current` a suffix of the old text and the new chunk |
| LogRotation.TextIsSuffixOfStream | packaging/windows/AgentV.ServiceHost.cs:250-267 | from any directory, over any sequence of writes, interrupted anywhere, the files together are a suffix of the text that was there and all bytes written since |
| LogRotation.RetentionBound | packaging/windows/AgentV.ServiceHost.cs:250-267 | from an empty directory, or what such writes had left, with uninterrupted writes of chunks no larger than a maximum within the limit: every file stays within the limit, and once anything was dropped more than three times (limit - maximum) of the latest bytes remain |
| LogRotation.OnlyOversizedChunksOverflow | packaging/windows/AgentV.ServiceHost.cs:257-264 | from a directory within the limit, over any sequence of interrupted writes, a file above the limit is a beginning of one single chunk that is above the limit itself; after a write without failure the current file is above it if and only if its chunk is |
| LogRotation.RotatingSink.Rotate | packaging/windows/AgentV.ServiceHost.cs:258-262 | the deletion and the move loop produce the rotated directory |
| LogRotation.RotatingSink.Write | packaging/windows/AgentV.ServiceHost.cs:255-265 | a write produces the directory that the model gives |
| ToolExecutor.GateAccounting | src/tools/executor.ts:35-81 | in every run active stays within concurrency, the shared count equals the sum of both queues and stays within the limit, and a non-empty queue means a full gate |
| ToolExecutor.QueueIsExact | src/tools/executor.ts:44-65 | in every run the queue of a gate holds exactly its waiting calls, each once, in order of arrival and under the generation it arrived with |
| ToolExecutor.TimersAreExact | src/tools/executor.ts:51-62 | a waiter's timer is armed exactly while it is queued |
| ToolExecutor.WaitersSettleOnce | src/tools/executor.ts:50-74 | each waiter settles exactly once, by grant, queue timeout or cancellation |
| ToolExecutor.HandlersBounded | src/tools/executor.ts:149-182 | handlers begun and not settled never exceed a gate's concurrency, even after timeouts |
| ToolExecutor.LimitsAreAsConfigured | src/tools/executor.ts:90-98 | in every run the read handlers in flight and read permits out stay within the read concurrency that was configured, those of writes within the write concurrency, and the waiters of both together within the queue limit |
| ToolExecutor.ArrivalsAreAnswered | src/tools/executor.ts:107-137 | a call of the active generation is granted at once if and only if fewer permits of its capability are out than configured, is queued if and only if none is free and the shared queue has room, and is refused otherwise; a call of another generation changes nothing |
| ToolExecutor.PermitsAreUsedIff | src/tools/executor.ts:143-151 | a call with a permit runs its handler if and only if its generation is still active and nothing throws before; otherwise the permit goes to the call that has waited longest or back to the gate |
| ToolExecutor.OverdueCallsKeepTheirPermit | src/tools/executor.ts:152-181 | a handler that outlives its timeout is aborted and keeps its permit until it has settled |
| ToolExecutor.EveryPermitComesBack | src/tools/executor.ts:143-182 | with anything in between, once a call with a permit has begun, its handler has settled, its answer is decided and a late handler is awaited, the permit has been returned |
| ToolExecutor.PermitsReturnedOnce | src/tools/executor.ts:143-182 | every call returns its permit exactly once when it is done and never otherwise |
| ToolExecutor.PermitsConserved | src/tools/executor.ts:47-81 | in every run the permits that a gate has granted are those held and those returned |
| ToolExecutor.SettledCallsAreFinal | src/tools/executor.ts:107-183 | no event changes a finished or refused call |
| ToolExecutor.RefusalsAreExplained | src/tools/executor.ts:50-75 | in every run a call that waited was refused only because its queue timer fired or its generation was left, and a handler was aborted only because its execution timer fired or its generation was left |
| ToolExecutor.QueueTimersRefuse | src/tools/executor.ts:55-60 | a queue timer that fires refuses its call and frees its place |
| ToolExecutor.GenerationsAreIsolated | src/tools/executor.ts:100-105 | queued waiters belong to the active generation, and running handlers of any other generation have an aborted signal |
| ToolExecutor.QueueBudget.Enter | src/tools/executor.ts:38 | enters exactly when the budget has room |
| ToolExecutor.QueueBudget.Leave | src/tools/executor.ts:39 | leaving is unconditional |
| ToolExecutor.GateObject.Acquire | src/tools/executor.ts:47-65 | takes a permit, queues, or is refused, as the shared budget allows |
| ToolExecutor.GateObject.TimeOut | src/tools/executor.ts:55-60 | a queue timer removes its waiter and leaves the budget |
| ToolExecutor.GateObject.CancelGeneration | src/tools/executor.ts:67-75 | the backwards splice loop keeps exactly the waiters of other generations |
| ToolExecutor.GateObject.ReleasePermit | src/tools/executor.ts:77-80 | a permit goes to the longest waiter or back to the gate |
| ToolExecutor.Executor.constructor | src/tools/executor.ts:90-98 | the read gate has the read concurrency, the write gate the write concurrency, and both share one budget with the queue limit |
| ToolExecutor.Executor.Execute | src/tools/executor.ts:107-134 | the generation check, and the acquisition of a permit for a call that passes the other tests, are the step of the model |
| ToolExecutor.Executor.BeginHandler | src/tools/executor.ts:146-151 | the continuation re-checks the generation and begins or returns the permit |
| ToolExecutor.Executor.FireExecutionTimer | src/tools/executor.ts:153-159 | the execution timer marks and aborts the call |
| ToolExecutor.Executor.FinishExecution | src/tools/executor.ts:178-182 | a call that timed out keeps its permit, any other returns it |
| ToolExecutor.Executor.AfterDrain | src/tools/executor.ts:181 | the permit of a call that timed out returns when its handler settles |
| ToolExecutor.Executor.CancelAll | src/tools/executor.ts:185-188 | cancels both queues and aborts every registered controller |
| ToolExecutor.Executor.Activate | src/tools/executor.ts:100-103 | another generation cancels what the previous one left |
| ToolExecutor.Executor.Deactivate | src/tools/executor.ts:105 | clearing the generation cancels everything |
| Transport.SocketOrTimer | src/transport/websocket-client.ts:21-81 | of the reconnect timers that are armed there is none while a socket is current or the client is stopped and exactly one otherwise, it is the one the field holds, and a pong deadline guards the current socket |
| Transport.ReplacedSocketsAreSilent | src/transport/websocket-client.ts:31-38 | events of a replaced socket never reach the listeners, whatever follows |
| Transport.HeardExactly | src/transport/websocket-client.ts:31-38 | in every run the listeners hear every event of the current socket, once, and nothing else of any socket |
| Transport.ReconnectingGoesOn | src/transport/websocket-client.ts:75-81 | in every run the reconnect timer that is armed connects a new socket when it fires, and the attempts that the delays are computed from are the reconnects scheduled since the session was last ready |
| Transport.StalePongsMatterIff | src/transport/websocket-client.ts:33 | a run goes as it would if the pong listener tested its socket as the others do, if and only if no pong of a replaced socket arrives while a deadline is armed |
| Transport.StalePongExample | src/transport/websocket-client.ts:33 | a run that ends with the pong of a replaced socket disarming the deadline of the current one |
| Transport.LostDeadline | src/transport/websocket-client.ts:33-73 | such a pong costs the deadline that would have dropped the silent connection: without it the expiry leaves no socket and one reconnect timer, with it nothing happens and the connection stays |
| Transport.DelayBounds | src/transport/websocket-client.ts:77-78 | every reconnect delay lies between half the base and the base, which is the smaller of 1000 times two to the attempts and 15000 |
| Transport.WebSocketClient.ConnectSocket | src/transport/websocket-client.ts:21-30 | connecting is the step of the model |
| Transport.WebSocketClient.Reconnect | src/transport/websocket-client.ts:51-56 | a forced reconnect drops the socket, reports it and schedules |
| Transport.WebSocketClient.OnClose | src/transport/websocket-client.ts:35-38 | only the close of the current socket is heard |
| Transport.WebSocketClient.Schedule | src/transport/websocket-client.ts:75-81 | at most one reconnect timer is armed |
| SessionLifecycle.PartsAgree | src/core/lifecycle.ts:64-158 | ready, router policy, executor generation, snapshots and heartbeat always agree and carry the current generation; a ready session has a socket that was opened, still open or waiting for its close event |
| SessionLifecycle.ReadyIff | src/core/lifecycle.ts:98-148 | in every run a session is ready if and only if its own socket has delivered an accepted handshake answer in its generation |
| SessionLifecycle.UnreadyMessages | src/core/lifecycle.ts:98-148 | in every run, before readiness an accepted answer installs everything and resets the reconnect attempts, a provisional one leaves the session unready with one more retry of this generation, and every other message of the current socket ends the generation with nothing installed and the reconnect timer armed |
| SessionLifecycle.WaitingIsBounded | src/core/lifecycle.ts:92-137 | once the handshake of a generation is out the session is ready, or its handshake deadline or a provisional retry of this generation is armed, and either of these ends the generation and reconnects |
| SessionLifecycle.RequestsAreConserved | src/core/lifecycle.ts:105-115 | in every run each request taken in the current generation waits for the router or has been answered, once and in this generation |
| SessionLifecycle.CurrentContinuationsAct | src/core/lifecycle.ts:80-163 | in every run a probe of this generation sends the handshake and arms its deadline, the heartbeat and a snapshot of this generation are sent, a ready session takes every request and refuses what is none, and whatever but a snapshot cannot be sent ends the generation |
| SessionLifecycle.HelperReadyIsFresh | src/core/lifecycle.ts:67-81 | over a connection that is up the helper counts as ready only if the probe of this very generation found it usable |
| SessionLifecycle.LinuxSnapshotsAreNotTested | src/core/snapshot-manager.ts:111-113 | a snapshot of the Linux manager goes out to a ready session whatever generation it is of |
| SessionLifecycle.FramesBelongToTheirConnection | src/core/lifecycle.ts:93-114 | every frame ever sent, but for snapshots of the Linux manager, was captured in the generation in which it was sent; all went to the socket that began their generation, and all but handshakes from a ready session |
| SessionLifecycle.NothingOutlivesItsConnection | src/core/lifecycle.ts:64-163 | whatever was captured up to the moment a connection begins or ends for any reason, also by a deadline, a retry, a rejected payload or a failed send, is without effect in every later state of every run, nothing of the old session stays installed or armed, and no frame sent since belongs to an earlier generation |
| SessionLifecycle.GenerationsIncrease | src/core/lifecycle.ts:64-69 | generations only grow, and every start, stop, opening and ending, every loss of the current socket and every loss of readiness begins a new one |
| SessionLifecycle.RunKeepsInv | src/core/lifecycle.ts:64-164 | the session invariant holds after every run |
| SessionLifecycle.ReadyWithDeadlineIff | src/core/lifecycle.ts:80-96 | in every run a ready session has its handshake deadline armed if and only if the handshake of its generation was sent when it was ready already |
| SessionLifecycle.EarlyHandshakeExample | src/core/lifecycle.ts:67-96 | a run in which that happens and the session is torn down |
| SessionLifecycle.LifecycleManager.ClearAll | src/core/lifecycle.ts:153-158 | clearing a session resets all its parts together |
| SessionLifecycle.LifecycleManager.OnOpened | src/core/lifecycle.ts:67-73 | opening begins a generation and its capability probe |
| SessionLifecycle.LifecycleManager.AfterProbe | src/core/lifecycle.ts:80-95 | the probe's continuation re-checks its generation before it sends |
| SessionLifecycle.LifecycleManager.OnMessage | src/core/lifecycle.ts:98-112 | messages before and after readiness are the step of the model |
| SessionLifecycle.LifecycleManager.AcceptHandshake | src/core/lifecycle.ts:117-150 | a handshake answer rejects the connection, is retried or installs the session |
| SessionLifecycle.LifecycleManager.InstallSession | src/core/lifecycle.ts:146-148 | policy, executor, snapshots, heartbeat and readiness are installed together |
| SessionLifecycle.LifecycleManager.AfterRouter | src/core/lifecycle.ts:113-114 | a tool response is sent only in its own generation |
| SessionLifecycle.LifecycleManager.FireHeartbeat | src/core/lifecycle.ts:162-163 | a heartbeat is sent only in its own generation |
| ActionHelper.OneCommandPerProcess | src/actions/helper.ts:126-157 | outstanding systemctl commands belong to different processes, in the order in which they were issued, so all but the last were left by a crash |
| ActionHelper.SecondCommandIff | src/actions/helper.ts:120-140 | a request whose steps follow each other leaves more than one command outstanding if and only if its record is new and can be written while a command of a crashed process still runs |
| ActionHelper.SecondCommandTakesCrash | src/actions/helper.ts:126-157 | from a moment with no command of an earlier process on, over any interleaving without a crash at most one command is outstanding |
| ActionHelper.RestartsAreRecordedFirst | src/actions/helper.ts:136-140 | every restart of every run was issued when the ledger held an unknown receipt for its operation, on stable storage unless the file system had skipped a synchronisation |
| ActionHelper.RestartsWereChecked | src/actions/helper.ts:104-140 | every restart of every run was issued for a request that was well formed and allowed when it arrived and whose read found the service in the expected state, by the same process and with no other request let in between |
| ActionHelper.FailedChecksLeaveNoTrace | src/actions/helper.ts:131-135 | a read that fails or finds another state leaves ledger and restarts as they were and answers with the matching code and "not started" |
| ActionHelper.ReceiptsAreEarned | src/actions/helper.ts:138-151 | the receipt that ends a request tells success if and only if the command ended well and the read behind it found the service changed and active, and unknown if and only if the command timed out or the read failed |
| ActionHelper.SuccessWasSeen | src/actions/helper.ts:120-151 | in every run, through crashes, losses of power and replays, a receipt of success that was answered is of an operation whose command ended well and whose service was found changed behind it |
| ActionHelper.RequestsAreServed | src/actions/helper.ts:126-157 | a request that nothing interrupts restarts the service once, leaves its receipt in the ledger, is answered with it, and lets the next one in |
| ActionHelper.AtMostOneRestart | src/actions/helper.ts:120-157 | over any run with crashes, an operation whose record is retained causes at most one restart |
| ActionHelper.RestartsAgainIff | src/actions/helper.ts:120-140 | an operation that was restarted and whose steps are repeated one after the other is restarted again if and only if its record is gone when it is requested and can be written, and it is gone only by pruning or by a loss of power after a skipped synchronisation |
| ActionHelper.RecordForbidsRestart | src/actions/helper.ts:120-140 | over any interleaving, also with crashes, an operation that has a record and is not on its way to a restart is not restarted until the record is pruned or power is lost |
| ActionHelper.ReplaysAgree | src/actions/helper.ts:120-125 | over any run, once an operation was answered with a receipt every later lookup gives the same receipt for the same hash and a refusal for any other, until the record is pruned or power is lost; only a receipt given while the operation ran changes, once, to the completed one |
| ActionHelper.RecordsAdvance | src/actions/ledger.ts:32-47 | a record is replaced at most once, by the completed receipt of its own request, until it is pruned or power is lost |
| ActionHelper.NotStartedIsTruthful | src/actions/helper.ts:126-156 | an error says "not started" if and only if no restart was issued between the arrival of its request and the answer, and blames the host if and only if one was |
| ActionHelper.FlagIsTruthful | src/actions/helper.ts:129-153 | in every run the flag of the error path is raised if and only if the request has issued its restart |
| ActionHelper.UnsyncedRecordExample | src/actions/ledger.ts:40-42 | a run in which an unsynchronised record is lost with power and the operation restarts twice |
| ActionHelper.TwoCommandsExample | src/actions/helper.ts:126-140 | a run in which a crash leaves one command and the next process issues another |
| ActionHelper.ActionLedger.PutRecord | src/actions/ledger.ts:32-47 | a put shows the whole record or nothing, may throw after it shows, and may not reach stable storage |
| ActionHelper.Helper.HandleRequest | src/actions/helper.ts:116-127 | lookup, conflict, busy test and admission are the step of the model |
| ActionHelper.Helper.CheckPrecondition | src/actions/helper.ts:131-135 | a failed or mismatching read ends the request before any write |
| ActionHelper.Helper.Fail | src/actions/helper.ts:152-156 | the catch block answers by the flag, and the finally block releases the helper |
| ActionHelper.Helper.RecordIntent | src/actions/helper.ts:136-137 | the write-ahead record, or the end of the request |
| ActionHelper.Helper.StartRestart | src/actions/helper.ts:138-140 | the flag and then the command, as a step of its own after the record |
| ActionHelper.Helper.VerifyAfterRestart | src/actions/helper.ts:145-148 | the outcome is derived from the read after the restart |
| ActionHelper.Helper.Complete | src/actions/helper.ts:149-156 | the final write and its failure are the step of the model |
| ActionHelper.Helper.PruneAndReturn | src/actions/helper.ts:150-156 | pruning and the answer behind it are the step of the model |
| LedgerPruning.RemovalIsJustified | src/actions/ledger.ts:48-54 | a pruned file is more than a week old or has a thousand files at least as new |
| LedgerPruning.NewestSurvives | src/actions/ledger.ts:48-54 | the newest file goes only if it is more than a week old itself |
| LedgerPruning.PruningIsComplete | src/actions/ledger.ts:48-54 | a file that is more than a week old, or has a thousand newer files beside it, is pruned |
| LedgerPruning.WhatIsLeftIsBounded | src/actions/ledger.ts:48-54 | after a complete pruning at most a thousand files are left, all of the last week |
| LedgerPruning.LedgerDirectory.Prune | src/actions/ledger.ts:48-54 | the loop removes exactly the justified names, or some of them when a removal throws |
| LedgerRetention.AtMostOneRestartWhileFresh | src/actions/ledger.ts:48-54 | over any run in which the ledger is pruned by its rule, also by halves, an operation is restarted at most once as long as at every pruning its record is at most a week old and fewer than a thousand others are as new, and no loss of power takes it |
| RestartOutcome.RetryableMeansNotInvoked | src/mcp/router.ts:44-46 | a retryable restart response implies that the helper did not run a restart for that request, through helper, client, tool, executor and router |
| RestartOutcome.HarmlessFailuresAreRetryable | src/mcp/router.ts:44-46 | a busy helper and a socket that failed before the request was written are retryable |
| RestartOutcome.SuccessIsEarned | src/mcp/router.ts:36-46 | a response of success means that the helper answered with a receipt of success and that in its run the command ended well and the service was found changed behind it |
| RestartOutcome.SuccessIff | src/actions/client.ts:46-88 | a call succeeds if and only if the executor ran its handler and what settled the client first was a receipt of success |
| RestartOutcome.AnswersAreFaithful | src/actions/client.ts:66-82 | the answer of the helper that is read first decides: only a receipt of success is a success, a failed or unknown restart is told as such, an error keeps its code and whether anything was started, and only a busy helper invites a retry |
| RestartOutcome.FailuresTell | src/tools/executor.ts:143-178 | a call is called "not started" only from the queue or by its handler, and "unknown" whenever the handler may have begun and did not speak |
| RestartOutcome.EveryWaitEnds | src/actions/client.ts:58-88 | the first abort, deadline, oversized or malformed answer, socket error or end answers with its code, and tells an unknown outcome if and only if the request had been written |
| RestartOutcome.SettledOnce | src/actions/client.ts:61-65 | later socket events never change the answer |
| RestartOutcome.NotStartedMeans | src/actions/client.ts:58-87 | a client that reports "not started" sent nothing or read a refusal that said so |
| RestartOutcome.SentFailuresAreUnknown | src/actions/client.ts:58-86 | whatever the client alone sees go wrong after sending is reported as unknown |
| RestartOutcome.SocketCall.OnSignal | src/actions/client.ts:50-88 | one socket event is the step of the model |
| JsonValues.SortSorts | src/actions/ledger.ts:10 | the stable sort yields keys in the order of the comparison |
| JsonValues.SortKeeps | src/actions/ledger.ts:10 | the stable sort neither loses nor adds an entry |
| JsonValues.SortedStays | src/tools/model-context.ts:96 | sorting a sorted list leaves it as it is |
| CanonicalJson.QuotedPrefix | src/actions/ledger.ts:11 | a quoted string (section 7 of RFC 8259) ends where it ends, whatever follows |
| CanonicalJson.Unambiguous | src/actions/ledger.ts:8-12 | the text of a value followed by anything that cannot continue it determines both |
| CanonicalJson.EqualTextsMeanEqualValues | src/actions/ledger.ts:8-12 | equal canonical texts mean equal values with objects read as maps, whatever the comparison does |
| CanonicalJson.EqualValuesHaveEqualTexts | src/actions/ledger.ts:8-12 | equal values have equal texts when no object has two keys that tie |
| CanonicalJson.TextIdentifiesValue | src/actions/ledger.ts:8-12 | equal texts if and only if equal values |
| CanonicalJson.HashIdentifiesRequest | src/actions/ledger.ts:15 | with a hash that does not collide, equal hashes if and only if equal values, when no object has two keys that tie |
| RestartRequests.ValidatedIsSeparated | src/actions/helper.ts:33-47 | what the validation lets through has no two names that a comparison can tie which tells the eight allowed names apart |
| RestartRequests.SentIsValidatedIff | src/actions/helper.ts:33-47 | a request with these fields is let through if and only if its operation is 24 hexadecimal digits, its unit is a service and none of AgentV's own, its reason is not blank, and the states it expects are within their lengths |
| RestartRequests.RequestsAreIdentified | src/actions/helper.ts:117-122 | two validated requests have one hash if and only if they agree in every field, in whatever order the fields were sent |
| CanonicalJson.KeyOrderIndependentIff | src/actions/ledger.ts:10 | the text is independent of key order if and only if the comparison never calls two different keys equal |
| CanonicalJson.TiedKeysKeepTheirOrder | src/actions/ledger.ts:10 | two keys that tie show the order in which the object was built |
| Compaction.OmissionLog.CompactValue | src/tools/model-context.ts:80-100 | the recursion over a shared list returns the compact value and appends exactly its omissions |
| Compaction.CompactIsWithin | src/tools/model-context.ts:80-100 | the result obeys the string, array, key and depth limits at every level |
| Compaction.TighterAbsorbs | src/tools/model-context.ts:60-61 | a tighter pass over a looser pass's output equals the tighter pass over the source |
| Compaction.CompactionIsIdempotent | src/tools/model-context.ts:80-100 | a second pass changes nothing |
| Compaction.PlacesAgree | src/tools/model-context.ts:84-99 | every place of the compact value is the compaction of the same place of the source |
| Compaction.KeepsTheFirstKeys | src/tools/model-context.ts:96-97 | an object keeps as many keys as allowed, sorted, and none that comes after a key that was cut |
| Compaction.NothingOmittedIffWithin | src/tools/model-context.ts:84-98 | nothing is reported exactly when the value was within the limits at every level |
| Compaction.NothingOmittedIffUnchanged | src/tools/model-context.ts:80-100 | nothing is reported exactly when the value is unchanged, with objects read as maps |
| Compaction.OmissionsAreAccurate | src/tools/model-context.ts:86-98 | every omission names a place of the source and tells what was there and how much of it was kept |
| Compaction.EveryCutIsReported | src/tools/model-context.ts:84-98 | every place that the compact value still shows and that was cut there is reported under its path, with what was there and how much was kept |
| Compaction.EachCutOnce | src/tools/model-context.ts:84-98 | no two omissions of one pass name the same place |
| Compaction.CappingConserves | src/tools/model-context.ts:66-69 | the list has at most 16 entries, starts with the first 15 and its summary keeps the total |
| Compaction.ReportedCuts | src/tools/model-context.ts:60-65 | every reported cut is accurate for one of the passes or is the byte limit |
| Compaction.NoMoreIsCut | src/tools/model-context.ts:60-65 | the data is the first of the source, its two compact forms and the placeholder that is within the target, so a result within it stays whole; every cut of the passes that were tried is reported, and the byte limit if and only if none was enough |
| Compaction.ProjectionIsAccountable | src/tools/model-context.ts:56-71 | for every size that respects equality of JSON values the projection fits its target, its list stands for every cut, the list is empty exactly when the data is the whole result, and the data can be serialised |
| Compaction.CompactKeepsWellFormed | src/tools/model-context.ts:80-100 | the compact form of a JSON value is one |
| JsonLength.BytesAreWritten | src/tools/model-context.ts:60-62 | the size that is compared with the target is the number of bytes in UTF-8 of the text of JSON.stringify, with its escapes and lone surrogates |
| JsonLength.SameLength | src/tools/model-context.ts:60-62 | equal JSON values have texts of the same number of bytes in UTF-8, in whatever order their members come |
| Compaction.ResultIsAccountable | src/tools/model-context.ts:56-71 | with the length of the JSON text as the size, the projection of any result keeps its promise |
| Compaction.BoundedProjection | src/tools/model-context.ts:56-71 | the two passes, the placeholder and the cap give the chosen data and the capped list |
| SnapshotTrimming.PoppedIsCut | src/core/snapshot-manager.ts:96-101 | popping rows one by one is cutting them off the sections in the fixed order |
| SnapshotTrimming.PoppingConserves | src/core/snapshot-manager.ts:96-101 | findings, coverage and health are untouched, every section stays a prefix, and rows plus counter stay constant per section |
| SnapshotTrimming.OrderOfRemoval | src/core/snapshot-manager.ts:96-99 | a section loses rows only when all sections before it are empty |
| SnapshotTrimming.Trim | src/core/snapshot-manager.ts:97-101 | the loop ends in the one first state in the removal order that fits, or with all optional sections empty |
| SnapshotTrimming.PrepareLinux | src/core/snapshot-manager.ts:95-110 | what goes on to compression fits the share of the budget for the data, and the notification around it fits the budget |
| SnapshotTrimming.PrepareWindows | src/windows/snapshot.ts:72-79 | the same for the Windows manager |
| LinuxSnapshots.AtMostOneOfEach | src/core/snapshot-manager.ts:36-53 | of the suspended collections and armed intervals there is at most one each, and the fields tell exactly which |
| LinuxSnapshots.StartsAreNeverLost | src/core/snapshot-manager.ts:36-53 | the current generation has begun a collection or is pending behind the one in flight |
| LinuxSnapshots.TriggersCoalesce | src/core/snapshot-manager.ts:44-51 | any number of triggers during one collection become one follow-up |
| LinuxSnapshots.FollowUpIff | src/core/snapshot-manager.ts:44-51 | a follow-up is pending if and only if a start or a trigger asked for it and no stop has followed; ticks are dropped |
| LinuxSnapshots.TicksCollect | src/core/snapshot-manager.ts:36-53 | with nothing in flight the interval, and a trigger, begin a collection of the current generation |
| LinuxSnapshots.UndisturbedIsSentIff | src/core/snapshot-manager.ts:54-114 | a collection that nothing disturbs is sent if and only if data, notification and payload fit the budget of the last start |
| LinuxSnapshots.SentFitsBudget | src/core/snapshot-manager.ts:95-113 | with a fixed budget every payload sent fits it before and after compression |
| LinuxSnapshots.StaleIffRestartedWhileCompressing | src/core/snapshot-manager.ts:111-113 | a payload within the budget is sent for a stale generation if and only if the manager was started or stopped while it was compressed |
| LinuxSnapshots.StaleSendExample | src/core/snapshot-manager.ts:111-113 | a run that sends a stale generation |
| LinuxSnapshots.SnapshotManager.Start | src/core/snapshot-manager.ts:36-41 | start is the step of the model |
| LinuxSnapshots.SnapshotManager.EndCollection | src/core/snapshot-manager.ts:115-118 | the end of a collection serves what is pending |
| WindowsSnapshots.AtMostOneOfEach | src/windows/snapshot.ts:44-67 | of the suspended collections and armed intervals there is at most one each, and the fields tell exactly which |
| WindowsSnapshots.PendingIsNewest | src/windows/snapshot.ts:61-67 | a pending entry carries the newest generation and budget, and implies active and in flight |
| WindowsSnapshots.StartsAreNeverLost | src/windows/snapshot.ts:44-52 | the current generation has begun a collection if and only if it is not pending behind the one in flight |
| WindowsSnapshots.NeverSendsStale | src/windows/snapshot.ts:70-79 | no snapshot of a generation that is over is ever sent |
| WindowsSnapshots.TriggersCoalesce | src/windows/snapshot.ts:63-67 | starts during one collection become one follow-up |
| WindowsSnapshots.TicksCollect | src/windows/snapshot.ts:44-52 | with nothing in flight the interval begins a collection of its start |
| WindowsSnapshots.SentIff | src/windows/snapshot.ts:70-79 | the end of a collection sends its payload, once and with the budget of the last start, if and only if its generation is current and it fits |
| WindowsSnapshots.SkippedTicksLeaveNoTrace | src/windows/snapshot.ts:63-67 | a run without the interval ticks that fell into a collection is the same run: the same collections, the same payloads and the same final state |
| WindowsSnapshots.WindowsSnapshotManager.BeginCollection | src/windows/snapshot.ts:61-68 | beginning, skipping and pending are the step of the model |
| WindowsSnapshots.WindowsSnapshotManager.EndCollection | src/windows/snapshot.ts:80-85 | the end of a collection starts the pending one |
| WindowsEvidence.FilterCountsIff | src/windows/live.ts:35-38 | filtering keeps items plus omitted equal to original if and only if the limit is not negative, and then nothing is omitted exactly if nothing was before and every match is retained |
| WindowsEvidence.ToolListingCounts | src/windows/live.ts:13-38 | for every limit that the schemas of the tools let through the counts of a listing are right, and nothing is omitted if and only if a whole enumeration within a thousand rows is listed with every match |
| WindowsEvidence.CompleteIff | src/windows/snapshot.ts:27-29 | complete service coverage is claimed if and only if enumeration succeeded, was ok and whole, and told state, start mode and exit code of every row |
| WindowsEvidence.FindingsAreExact | src/windows/snapshot.ts:23-24 | findings name the failed services of the rows seen, in order, the first fifty are listed, with complete coverage these are all there are, and nothing is reported as cut if and only if every row was seen and every failed one is listed |
| WindowsEvidence.SpecificCodesAreBacked | src/windows/live.ts:27-32 | a service-specific exit code is told only beside the exit code that announces it, and then it is the collector's |
| WindowsEvidence.FitEntries | src/windows/live.ts:43 | the pop loop keeps the longest beginning that fits |
| WindowsEvidence.QueryLogs | src/windows/live.ts:39-45 | a page is the longest beginning of the wanted rows that the limits let through, and it is not marked truncated if and only if it holds every matching row of a whole and ok enumeration |
| CollectorRunner.StageScanner.ObserveStage | src/windows/runner.ts:80-88 | the byte loop is the fold of the scanner |
| CollectorRunner.ScannerKnows | src/windows/runner.ts:80-88 | the scanner arrives at what splitting the whole stream into lines tells: last stage, count, traced stages, open line |
| CollectorRunner.ChunksDoNotMatter | src/windows/runner.ts:80-88 | how the stream is cut into chunks does not matter |
| CollectorRunner.DeliversIff | src/windows/runner.ts:89-108 | output is delivered if and only if nothing failed before a clean exit, and then all of it |
| CollectorRunner.FirstFailureWins | src/windows/runner.ts:89-108 | the earliest failure is the one reported |
| ServiceEntry.Entry.OnData | src/windows-service-entry.ts:72-88 | the loop over lines does what reading byte by byte does |
| ServiceEntry.Entry.OnEnd | src/windows-service-entry.ts:89 | end of input fails or asks to stop |
| ServiceEntry.Entry.OnTimer | src/windows-service-entry.ts:69-85 | a deadline rejects, and the startup deadline also asks to stop |
| ServiceEntry.Entry.OnStarted | src/windows-service-entry.ts:86 | a runtime that comes up late is stopped at once |
| ServiceEntry.ChunkingIsInvisible | src/windows-service-entry.ts:72-88 | within 8192 bytes, any two ways to cut the same bytes into chunks, anywhere in a run, lead to the same starts, the same outcome and the same of everything else visible |
| ServiceEntry.CrossingChunkIff | src/windows-service-entry.ts:73 | beyond 8192 bytes the outcome depends on the cut exactly if the first part alone had resolved |
| ServiceEntry.CrossingChunkExample | src/windows-service-entry.ts:73 | the same bytes resolve or reject depending on the cut |
| ServiceEntry.StartedAndStoppedOnce | src/windows-service-entry.ts:62-86 | the runtime is started at most once, and its handle is stopped exactly once if a stop was requested |
| ServiceEntry.NoRuntimeIsLeftRunning | src/windows-service-entry.ts:62-96 | settling leaves no runtime without a stop, and success means nothing started or a clean stop |
| ServiceEntry.StopIsHonoured | src/windows-service-entry.ts:62-86 | whatever follows STOP nothing is started any more; before START it settles with success, and afterwards the service can succeed only after the one stop of its runtime |
| ServiceEntry.StartIsHonoured | src/windows-service-entry.ts:80-86 | the first START line that comes in time starts the runtime with what it carries, under the startup deadline, and whatever follows it stays the only start |
| ServiceEntry.ProtocolErrorsReject | src/windows-service-entry.ts:70-83 | a line that is no command, a second START, START after STOP, a line or an input that is too long are rejected for good, start nothing, and lead a runtime that was started to its end |
| ServiceEntry.SuccessIsExplained | src/windows-service-entry.ts:62-96 | the service succeeds only because the bounded stop of its runtime went well or because it was told to stop before it had started anything |
| ServiceEntry.StopDecides | src/windows-service-entry.ts:62-67 | a stop that is awaited decides the outcome, whatever follows |
| ServiceEntry.EveryEndAsksToStop | src/windows-service-entry.ts:68-89 | whatever follows end of input, an input error or an expired deadline nothing is started any more, all but an orderly end of input reject, and before START all do |
| ServiceEntry.NothingStartsAfterStop | src/windows-service-entry.ts:82-86 | in every continuation after a stop request or a settlement nothing is started, the request stands and so does the first settlement |
| PathWalk.SecurePath | packaging/systemd/acornops-agentv-node:7-48 | the loop that splices links ends, by links left and then pending text, and returns the recursive resolution if it takes at most 40 links and every object passed can be trusted |
| PathWalk.SpliceResolves | packaging/systemd/acornops-agentv-node:31-34 | splicing a link into the pending text is resolving it first |
| PathWalk.ResolvedIsPhysical | packaging/systemd/acornops-agentv-node:19-46 | the current path never contains a link, so popping for `..` is sound |
| PathWalk.ResolvedIsCovered | packaging/systemd/acornops-agentv-node:14-46 | every prefix of the result was passed and checked |
| PathWalk.TrustedPathIsSafe | packaging/systemd/acornops-agentv-node:22-45 | every prefix of a trusted path is no link, outside home directories, root-owned, not writable by others, and searchable if it is a directory |
| PathWalk.TrustedIff | packaging/systemd/acornops-agentv-node:7-48 | a path is accepted if and only if it is absolute and of safe characters, resolves with at most 40 links, and the root and every object passed, links included, are root-owned, outside home directories, not writable by others, with safe targets, and searchable if directories |
| PathWalk.WalkingAgain | packaging/systemd/acornops-agentv-node:66-109 | a printed path, walked again, is accepted as itself |
| PathWalk.AgreesWithStandard | packaging/systemd/acornops-agentv-node:14-46 | from any physical directory the walk and the standard take the same path over the same objects, except that the standard refuses a file exactly when a slash follows the name that it ends on, in the text or in the target of a link that ends it |
| PathWalk.EqualWithoutFinalSlash | packaging/systemd/acornops-agentv-node:14-46 | when neither the text nor the target of a link ends in a slash the two walks are equal |
| PathWalk.FinalSlashIsRefused | packaging/systemd/acornops-agentv-node:16-45 | a text that ends in a slash and leads to a file is refused by the standard |
| PathWalk.TrailingSlashExample | packaging/systemd/acornops-agentv-node:41 | a file named with a slash at the end is accepted |
| Recovery.RecoveryIsSafeIff | packaging/systemd/acornops-agentv-install-recover:10-279 | for all starts: over every sequence of runs stopped after any command, with every behaviour of service and control plane, the link is gone only when both sides agree, if and only if the recorded files meet a condition: both sides agree already under a committed phase; otherwise the candidate is selected or the note is there as long as the control plane may come to hold the commit, and the link is right where restoring trusts it |
| Recovery.UnsafeStartsFail | packaging/systemd/acornops-agentv-install-recover:10-279 | every other start has a history of one or two runs that forgets the transaction while the sides disagree |
| Recovery.RelinkedBeforeTheNote | packaging/systemd/install-worker.sh:137-192 | an installer that lost power between selecting the previous installation and writing its note is such a start: the evidence is deleted with something else than the committed candidate selected |
| Recovery.DecisionsAreProven | packaging/systemd/acornops-agentv-install-recover:43-52 | from a safe start a candidate is kept only by a run that saw the marker and the reported connection, and a previous installation that was running is settled for only by a run that saw them |
| Recovery.CommandsAreDue | packaging/systemd/acornops-agentv-install-recover:10-279 | in every run of every history, stopped after any command, each command is issued only when it is due: no rollback before the status, no note removed before every part of the candidate is back and the service restarted, no phase written and no link dropped before the previous installation is back, its service renewed and a first installation removed, and the directory only behind the link; and a run that has replaced something and asks to be run again says what it waits for |
| Recovery.MarkerIsOfTheRestarted | packaging/systemd/acornops-agentv-install-recover:72-141 | between a replacement of node path, link or environment and the test of the marker a run has found the service inactive, or has removed its marker and issued its restart |
| Recovery.UnitsFollowTheOutcome | packaging/systemd/acornops-agentv-install-recover:119-134 | over every history the units of a host that had AgentV before stay, and those of a first installation are gone if it was given up and there if it was kept |
| Recovery.RenewedInEveryRun | packaging/systemd/acornops-agentv-install-recover:83-99 | where the recorded candidate differs from the previous release, every run that tests the marker after restoring has renewed the service itself |
| Recovery.KilledBeforeTheRestart | packaging/systemd/acornops-agentv-install-recover:106-141 | otherwise, for every such transaction, a run killed behind the replacement of the environment is followed by one that changes nothing, does not restart the service and forgets the transaction |
| Recovery.TwoCalmRunsEnd | packaging/systemd/acornops-agentv-install-recover:10-279 | in a world that stands still two runs end the transaction, for every start for which the control plane answers the rollback that is asked for, and from a safe start both sides agree then |
| Recovery.RecoverKeeps | packaging/systemd/acornops-agentv-install-recover:10-279 | one run, stopped after any command, keeps the invariant; exit 0 means the link is gone and exit 75 that it is still there |
| Recovery.RollbackKeeps | packaging/systemd/acornops-agentv-install-recover:203-206 | an accepted rollback ends the transaction for certain, a closed window leaves the commit alone, and a lost answer may hide either |
| Recovery.RestoreLocalKeeps | packaging/systemd/acornops-agentv-install-recover:72-141 | restoring runs only against a control plane that is over and, when it completes, has selected the previous installation |
| Recovery.RestoreCandidateKeeps | packaging/systemd/acornops-agentv-install-recover:143-180 | when it completes the candidate is selected, under the note all the while |
| Recovery.RequireKeeps | packaging/systemd/acornops-agentv-install-recover:43-52 | goes on only with the marker and the reported connection when the previous installation was active |
| Recovery.Host.constructor | packaging/systemd/install-worker.sh:404-502 | the recorded files of an installer that was interrupted anywhere |
| Recovery.Host.DeleteEvidence | packaging/systemd/acornops-agentv-install-recover:17-22 | the link and then the directory, as the model does |
| Recovery.Host.RestorePrevious | packaging/systemd/acornops-agentv-install-recover:72-141 | restore_local, command by command, is the function of the model |
| Recovery.Host.RestoreCommitted | packaging/systemd/acornops-agentv-install-recover:143-180 | restore_candidate is the function of the model |
| Recovery.Host.RequestRollback | packaging/systemd/acornops-agentv-install-recover:203-205 | the rollback request is the function of the model |
| Recovery.Host.RequireConnection | packaging/systemd/acornops-agentv-install-recover:43-52 | the test of marker and reported connection is the function of the model |
| Recovery.Host.RecoverCompleted | packaging/systemd/acornops-agentv-install-recover:201-243 | the case of a completed transaction is the function of the model |
| Recovery.Host.CancelPending | packaging/systemd/acornops-agentv-install-recover:249-264 | the case of a pending transaction is the function of the model |
| Recovery.Host.RunScript | packaging/systemd/acornops-agentv-install-recover:10-279 | one run of the script is the function of the model, for every oracle |
| Redaction.Redactor.Value | src/redaction.ts:46-55 | the recursion over a shared set is the walk of the model |
| Redaction.VisitsExactlyReachable | src/redaction.ts:46-55 | exactly the objects that non-secret fields lead to are visited |
| Redaction.EachObjectOnce | src/redaction.ts:50-54 | every reachable object is spelled out exactly once, with sharing and cycles |
| Redaction.SecretsAreRedacted | src/redaction.ts:47 | at every level the value of a secret field is redacted |
| Redaction.RedactionKeepsTheRest | src/redaction.ts:46-55 | at every place the result shows what the graph has there: only secret keys are redacted, texts are cleaned, and objects keep their kind, their keys and their order |
| Redaction.CircularIff | src/redaction.ts:46-55 | something in the result is called circular if and only if the root is met again or two different non-secret fields of reachable objects show one object |
| Redaction.SharedIsCalledCircular | src/redaction.ts:50 | an object that is only shared is called circular the second time |

## Left out

- Sockets, TLS, WebSocket frames, systemd, the service control manager, Win32 jobs, PowerShell programs: their results are events or parameters of the model.
- Wall-clock time: a timer is an event that may happen while it is armed; only delays and limits are computed.
- Regular expressions other than the character sets of the path walk, schemas, gzip and SHA-256: parameters or predicates; `RestartRequests.RequestsAreIdentified` takes a hash without collisions and a comparison that tells the eight names apart.
- Text of numbers: a JSON number is the text that serialisation gives it; that equal numbers have equal texts is not modelled.
- Objects with integer-like keys: `Object.fromEntries` lists them first; compaction is modelled without that reordering, which equality of objects as maps does not see.
- `ActionHelper.AtMostOneRestart`: holds for records that are retained; a record that is pruned, or lost with power before it was synchronised, no longer protects its operation (`ActionHelper.RestartsAgainIff`); `LedgerRetention.AtMostOneRestartWhileFresh` tells how long pruning spares it.
- `ActionHelper.OneCommandPerProcess`: outstanding commands are systemctl client processes. A client that times out is killed and no longer counted, although the job that it queued in systemd may go on; jobs of systemd are not part of this model.
- `ActionHelper.SecondCommandIff`, `ActionHelper.RestartsAgainIff`: the equivalences are about an attempt whose steps follow each other; when other events come between, `ActionHelper.SecondCommandTakesCrash` and `ActionHelper.RecordForbidsRestart` are what remains of them.
- `ActionHelper.Helper.HandleRequest`: ledger lookup and busy test are one step, because nothing else can finish a request between the delivery of the lookup and the test.
- `ToolExecutor.Executor.Execute`: the refusals before the gate (unknown tool, policy, disabled writes, schema) and the checks of the answer behind it (size, output schema) are not part of the step; `RestartOutcome` has them as paths.
- `LinuxSnapshots.StaleIffRestartedWhileCompressing`: the Windows manager compresses in the same step in which it checks the generation, so the property is stated without exceptions only there.
- `SessionLifecycle.FramesBelongToTheirConnection`: a snapshot of the Linux manager may be older than the generation it is sent in; `LinuxSnapshots.StaleIffRestartedWhileCompressing` tells when.
- `WindowsEvidence.CompleteIff`: assumes that redaction neither changes the enumerated states and start modes nor produces them from other text.
- `WindowsEvidence.QueryLogs`: negative limits are excluded by the schema before it.
- Recovery: the installer itself is not a state machine here; every state it may leave behind is a start.
- `Recovery.DecisionsAreProven`: the marker file and the reported connection are taken as the proof of authentication that the script takes them for; the world may write the marker at any time, so which process wrote it is known only from the commands of a run.
- `Recovery.TwoCalmRunsEnd`: in a calm world the service authenticates between any two commands; with a recorded candidate that differs from the previous release every run removes the marker of a running service, and a service that takes longer than one command makes recovery wait and run again.
- Recovery: action sockets, unit files and the removal of an unused release are commands without effect on the selection; ownership and modes of restored files are not modelled.
- `PathWalk.SecurePath`: the rendering of the result is a sequence of names; a path that resolves to the root itself is printed as `/` or as nothing by the script.
- Version and mode checks of the runtime (`agentv_node_validate`), capability probing by the doctor, configuration parsing, metrics and logs: straight-line checks.
- Linux text parsers, mock hosts and tool schemas: folds without state.
- Host, volume and process sections of Windows snapshots: they follow the pattern of the service section with weaker claims.
- Reassembly of the helper's lines from socket chunks: one event delivers one line or tells that it is incomplete, oversized or malformed.
