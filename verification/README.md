# Forge, modelled and proved

Forge runs sandboxes. A control plane keeps sandbox rows and a command queue in Postgres, agents start and stop the
containers on their nodes, and Caddy holds the routes. Many independent actors write the same sandbox row, and the only
thing that orders them is a compare-and-swap on its `state` column.

This project models those actors and proves what they guarantee together. `dafny verify dfyconfig.toml` checks it.

## How the model is laid out

**Lifecycle.** A handler is a step machine (`Protocol.Pc`): `CallOf` is the store or route call it issues next, `Resume`
what it does with the reply. `Do` is the atomic meaning of one call. There are two grains:

- *interleaved* (`Protocol`, `ProtocolInvariant`, `ProtocolSteps`, `ProtocolRuns`, `ProtocolTheorems`, `Race`): any number
  of handlers side by side, each call an atomic step, each call allowed to fail;
- *one handler at a time* (`Atomic`, `AtomicRoutes`, `AtomicRuns`, `AtomicBudget`, `AckOutcome`): `Drive` takes a handler
  from its entry to its return. `DriveIsARun` shows that this is one of the interleavings.

The two statements that sweep rows to destroyed are steps of both.

What each handler amounts to is stated a second time without the step machines, as the database it leaves for every row and
for every choice of failing calls, and proved equal to driving it: `RequestOutcome` (destroy, wake, restart, reap, assign),
`EventOutcome` (container events and crashes), `AckEffect` (acknowledgements), `CreateOutcome`, and `MoveEnds` in
`RescheduleRows`.

`Store` and `Handlers` are the same statements and handlers as methods that change the store in place. They are the bridge
to the code: every handler method is proved to leave the database exactly as driving its step machine does, so the theorems
about runs and outcomes apply to it, and most state their result exactly.
`RescheduleRows`, `HeartbeatTick`, `Rescheduler` and `IdleReaper` build the loops on top of that.

**The rest.** `Dispatch` is the command poll with its row locks. `Ports` and `Executor` are the agent's port pool and command
executor. `Reconcile`, `Observation` and `Evidence` are the observation loop from a Docker listing to a destroyed row.
`Caddy`, `Drift`, `Batching`, `Batcher` and `Flights` are the routes. `Watcher` is the Docker event stream.

Randomness, clocks, the network, Docker and the database's failures are parameters: `script(k)` decides the k-th call. Bookkeeping
that the source does not store is marked in its comment: `trail`, `restarts`, `born`, `lost`, `entered`, `goal`.

## What the proofs found

Each of these is a lemma with the exact condition or a concrete input.

- *An exhausted crash never reaches `failed`.* `HandleEvent` hands `HandleCrash` the row as it was before its own transition, so
  the compare-and-swap from that row's `running` always misses. The row stays `restarting`, without a route and without a
  command, and ignores further container events. `docs/runbooks/recover-failed-sandbox.md:5` says such a row is `failed`;
  the model follows the code.
  (`ExhaustedCrashNeverFails`, `SpentCrashFailsIffRowIsCurrent`, `SpentBudgetStaysRestarting`, `RestartingIgnoresEvents`)
- *A critical row is orphaned by its own acknowledgement* exactly when a start is acknowledged with neither success nor
  failure, or a stop with anything but success. (`AckOrphansIffBad`)
- *A start acknowledgement that names a container and no port* clears the row's port and keeps its route. It does so, and
  the index is wrong afterwards, exactly when the row is running and its app is routed. (`StartAckKeepsIndexIff`)
- *A sweep leaves a route on a destroyed row* exactly when the row's app was routed. Without sweeps, and while route updates
  succeed, there is no such route. (`SweepBreaksIndexIff`, `UnsweptIndexIsStrict`)
- *A tick can move a row onto a node that the same tick then marks unhealthy.* A row goes to the roomiest node that fits it
  among those healthy before the tick and not marked before its turn; it starts on a healthy node exactly when that node is
  not one of the silent ones. (`StartsOnHealthyNodeIff`, `TickCanStartOnMarkedNode`)
- *The executor loses a port* exactly when an unexpired start with a readable payload, a free port and a Docker that obeys
  is for a sandbox it already tracks. (`LeaksIffStartReplaces`)
- *A flush that is overtaken by a later one undoes it.* An add and a remove of one app, flushed in that order, can leave the
  route in place with nothing pending and no call failed. At any moment of a run the remaining calls end right in every
  order exactly when each is the last change taken for its app and every other app has its route already; taking a batch
  keeps that exactly when no outstanding call conflicts with it. (`OvertakenFlushKeepsRoute`, `EveryCompletionIsRightIff`, `TakingKeepsSafeIff`, `OutOfOrderIff`)
- *The freshness check destroys by app name only, on the word of the node it asked.* That is the node the row names when it
  is destroyed exactly when the row names it at that moment, however often it was moved in between; a row that is elsewhere
  by then can be destroyed unseen. (`CheckJudgesByNodeAsked`, `MovedRowCanBeDestroyedUnseen`)
- *A 404 from anything but the containers handler destroys a row nobody looked for.* An agent without that handler is such a
  source. The row was missing from a listing exactly when the handler answered, or an earlier listing of the node had
  lacked it already. (`EvidenceIffHandlerAnswers`, `AgentWithoutHandlerDestroys`)
- *A verified row takes the reported state whatever its own state was*, so a destroyed row comes back; a Docker state that is
  not one of the table's eight names, such as `exited`, is rejected by the CHECK constraint and never recorded. (`ReportedRow`)
- *Drift detection never looks at the upstream.* (`WrongUpstreamIsKept`)
- *The scheduler's subtraction is exact* on int32 values exactly when the difference is an int32. Below that range a node
  without memory looks roomy and is picked. Only a direct caller of `Schedule` can pass such a node: the listing's ORDER BY
  computes the same difference as an int4, and Postgres rejects one out of range. (`FreeIsExactIff`, `WrappedNodeIsPickedIff`)
- *A row that has had a command cannot be deleted*, because `commands.sandbox_id` references it
  (`control/migrations/00004_create_commands.sql:5`), so a sandbox can be created under a taken name exactly when that row
  is destroyed or failed and never had a command. (`CreateSucceeds`, `CreateRefused`)

## Model

| member | source | states |
|---|---|---|
| Models.IsEdgeIsTheTable | shared-go/models/sandbox.go:34-82 | `IsEdge`, used throughout as the edge relation, holds between two states exactly when some event of the transition table leads from one to the other |
| Models.TableByEvent | shared-go/models/sandbox.go:34-82 | read by event: exactly these states hear it, and this is where it takes each of them; an exit never leads to running, and a destroy request only to destroying or destroyed |
| Models.TerminalMeansNoEdge | shared-go/models/sandbox.go:114-116 | a state is terminal exactly when no event leads out of it |
| Scheduler.Schedule | control/internal/scheduler/scheduler.go:38-67 | no candidates is its own error; otherwise the first healthy candidate of maximal free memory among those that fit, and an error exactly when none fits |
| Scheduler.PlaceIsBest | control/internal/scheduler/scheduler.go:38-67 | a placement is a healthy node of the list that fits and none is roomier; there is none exactly when nothing fits |
| Scheduler.FreeIsExactIff | control/internal/scheduler/scheduler.go:49-58 | on int32 capacity and use the 32-bit subtraction is exact exactly when the difference is an int32, and always when neither is negative |
| Scheduler.PlaceOnDescendingIsHead | control/internal/store/nodes.sql.go:131-133 | on a free-descending list of healthy nodes the search returns the head if the head fits and nothing otherwise |
| Scheduler.WrappedNodeIsPickedIff | control/internal/scheduler/scheduler.go:49-58 | a direct caller's node whose difference is below the int32 range has positive free memory, and alone is picked exactly when it is healthy and the requirement is at most the wrapped value |
| Store.ControlStore.TransitionSandboxState | control/internal/store/sandboxes.sql.go:516-521 | the compare-and-swap on state: moves the row and raises state_version exactly when the row exists in the expected state, and otherwise reports no rows |
| Store.ControlStore.AssignSandboxToNode | control/internal/store/sandboxes.sql.go:14-18 | only a pending row is assigned; it goes to starting on that node without container and port |
| Store.ControlStore.CreateSandbox | control/internal/store/sandboxes.sql.go:90-94 | inserts a pending row unless its app name or id is taken |
| Store.ControlStore.DeleteSandbox | control/internal/store/sandboxes.sql.go:142-144 | removes the row and frees its app name unless a command still references it |
| Store.ControlStore.IncrementSandboxFailureCount | control/internal/store/sandboxes.sql.go:211-216 | adds one to failure_count and returns the row after it |
| Store.ControlStore.ResetSandboxFailureCount | control/internal/store/sandboxes.sql.go:505-509 | sets failure_count to zero and ends the current restart budget |
| Store.ControlStore.UpdateSandboxRuntime | control/internal/store/sandboxes.sql.go:564-568 | overwrites container id and host port, also with nothing |
| Store.ControlStore.CreateCommand | control/internal/store/commands.sql.go:31-35 | adds a pending command for an existing row and a given node; a failure while the row still waits for the command is recorded |
| Store.ControlStore.AckCommand | control/internal/store/commands.sql.go:14-18 | the command becomes completed or failed whatever it was, and nothing else changes |
| Store.ControlStore.ListHealthyNodes | control/internal/store/nodes.sql.go:131-133 | exactly the healthy nodes |
| Store.ControlStore.ListRunningSandboxesByNode | control/internal/store/sandboxes.sql.go:290-292 | exactly the running rows of the node, each once |
| Store.ControlStore.ListIdleSandboxes | control/internal/store/sandboxes.sql.go:244-249 | exactly the running rows among the idle ones, each once |
| Store.ControlStore.MarkNodeUnhealthy | control/internal/store/nodes.sql.go:224-226 | sets the status of the nodes with that id and changes nothing else of any node |
| ProtocolRuns.OnlyHitsMove | control/internal/store/sandboxes.sql.go:516-521 | only a compare-and-swap or an assignment that returns a row changes a row's state or state_version |
| ProtocolRuns.RunKeepsClaims | control/internal/lifecycle/lifecycle.go:488-537 | the ownership argument against ABA: the handler that entered restarting is the only one that can take the row out to starting, whatever the others do |
| ProtocolRuns.StepKeeps | control/internal/lifecycle/lifecycle.go:130-743 | every step of every handler, sweep, poll and node change keeps the invariant of the interleaved protocol |
| ProtocolTheorems.ReachableIsOk | control/internal/lifecycle/lifecycle.go:130-743 | the invariant holds after every interleaving with any failing calls |
| ProtocolTheorems.HistoryIsLegal | shared-go/models/sandbox.go:34-82 | over any interleaving a row's changes form a chain from pending to its state; each handler's change is an edge of the table or pending to failed, destroyed is never left, restarting to failed is never taken, and state_version counts the changes |
| ProtocolTheorems.RowsOnlyGrow | control/internal/store/sandboxes.sql.go:516-521 | between any two moments of a run versions never decrease, history is kept, destroyed stays, and one version means one state unless the row was swept |
| ProtocolTheorems.ExhaustedCrashNeverFails | control/internal/lifecycle/restart.go:83-99 | in every interleaving the compare-and-swap of an exhausted crash changes nothing |
| ProtocolTheorems.NoOrphansInCleanRuns | control/internal/lifecycle/lifecycle.go:229-260 | no orphaned start and no orphaned destroy: in every interleaving without a lost command a row in starting or destroying has an unacknowledged command of the right kind issued since it got there, or a handler about to issue it |
| Race.StartersAgree | control/internal/lifecycle/lifecycle.go:329-458 | any number of start acknowledgements and started events, in any interleaving, end with the row running exactly one version later, every command completed, failure_count zero if there was an acknowledgement, and container and port from one of the acknowledgements |
| Atomic.RankDecreases | control/internal/lifecycle/lifecycle.go:292-458 | every handler returns after at most ten calls whatever the replies |
| Atomic.DriveIsARun | control/internal/lifecycle/lifecycle.go:130-743 | running a handler from entry to return is one of the interleavings |
| Atomic.DriveKeeps | control/internal/lifecycle/lifecycle.go:130-743 | so a handler that runs alone keeps the interleaved protocol's invariant, whichever calls fail |
| AtomicRuns.RouteIndexAgrees | control/internal/lifecycle/lifecycle.go:401-430 | with handlers one at a time and sweeps between them, acknowledgements of a running, routed row carrying the port of any container they name, and no failing route update or second look of an acknowledgement, every route names a row that is running, destroying or was swept, with its id, node and current port, and every running row whose start acknowledgement was processed with a port has a route; every other call may fail, and a start acknowledgement counts as processed when all its calls up to the route update succeeded |
| AtomicRuns.SweepBreaksIndexIff | control/internal/store/sandboxes.sql.go:598-607 | a sweep leaves a route on a destroyed row exactly when the row's app is routed |
| AtomicRuns.UnsweptIndexIsStrict | control/internal/lifecycle/lifecycle.go:401-430 | without sweeps every route names a row that is running or destroying |
| AtomicRuns.DriveKeepsRoute | control/internal/lifecycle/lifecycle.go:527-532 | no handler takes the route from a row that stays running at the same version, whichever other calls fail |
| AtomicRuns.DriveAddsRoute | control/internal/lifecycle/lifecycle.go:401-430 | a start acknowledgement with a port that is processed leaves the row routed if it is running |
| AtomicBudget.RestartsAreBudgeted | control/internal/lifecycle/restart.go:69-168 | with sweeps and any failing calls: between two resets at most three restart commands, no more than failure_count, with at most 35 seconds of delay in all; each timeout exceeds its delay by 60 seconds; a command for the current stay in starting or destroying goes to the row's node |
| AtomicBudget.StartingRowHasItsCommand | control/internal/lifecycle/lifecycle.go:229-260 | with handlers one at a time and any failing calls, a row in starting whose command was not lost has an unacknowledged start command, issued since it got there, on its own node |
| AtomicBudget.NoOrphanedStart | control/internal/lifecycle/lifecycle.go:229-260 | when every command issued is created and no acknowledgement is of the two kinds of `AckOrphansIffBad`, every row in starting has that command |
| AtomicBudget.DestroyingRowHasItsCommand | control/internal/lifecycle/lifecycle.go:583-598 | with any failing calls, a row in destroying whose command was not lost has an unacknowledged stop command, issued since it got there, on its own node |
| AtomicBudget.NoOrphanedDestroy | control/internal/lifecycle/lifecycle.go:583-598 | under the conditions of NoOrphanedStart every row in destroying has that command |
| AtomicBudget.SpentCrashFailsIffRowIsCurrent | control/internal/lifecycle/restart.go:83-99 | a spent budget moves the row to failed exactly when the caller's row has the state the row is still in; no command either way |
| AtomicBudget.SpentBudgetStaysRestarting | control/internal/lifecycle/lifecycle.go:527-549 | through the event handler a spent crash leaves the row restarting, unrouted and without a command |
| AtomicBudget.RestartingIgnoresEvents | control/internal/lifecycle/lifecycle.go:480-500 | and no later container event changes it |
| AckOutcome.AckOrphansIffBad | control/internal/lifecycle/lifecycle.go:311-392 | acknowledging the command a row in starting or destroying waits for always settles the command, and leaves the row behind exactly when the acknowledgement is of one of two kinds |
| AckOutcome.StartAckKeepsIndexIff | control/internal/lifecycle/lifecycle.go:793-820 | a start-success acknowledgement keeps the index right exactly when it carries the port of any container it names, or the row is not running, or its app has no route |
| AckEffect.AckEnds | control/internal/lifecycle/lifecycle.go:292-458 | the whole database after an acknowledgement, for every command, status and row and whichever calls fail: the row's move, container and port, the route as the second look sees it, the failure count forgiven, and the command completed or failed |
| AckEffect.StartAckOpensBudget | control/internal/lifecycle/lifecycle.go:433-440 | without failing calls a start that succeeded leaves a starting, failed or running row running with failure_count zero and a new restart budget, routed to the port it names, and its command completed |
| AckEffect.LostRaceEnds | control/internal/lifecycle/lifecycle.go:356-392 | when somebody else has moved the row first, the acknowledgement goes on with the row as it is now if that is where its event leads, and otherwise changes nothing |
| EventOutcome.EventOutcome | control/internal/lifecycle/lifecycle.go:464-552 | the whole database after a container event, for every row and whichever calls fail: a start takes starting and failed to running, an exit takes starting to failed and running to restarting, unrouted and on to its restart; nothing else changes anything |
| EventOutcome.CrashOutcome | control/internal/lifecycle/restart.go:69-168 | the whole database after a crash: the failure is counted, and with fewer than three before it the row goes to starting with one start command after 5, 10 or 20 seconds |
| EventOutcome.CrashRestartsTheRow | control/internal/lifecycle/restart.go:113-145 | without failing calls a crash of a running row with fewer than three failures ends in starting two versions on, unrouted, with exactly one new command: a start on its node with a delay of 5, 10 or 20 seconds and a timeout one minute longer |
| RequestOutcome.DestroyOutcome | control/internal/lifecycle/lifecycle.go:557-615 | the whole database after a destroy request: destroying, or destroyed at once when pending, stopped or failed, with one stop command on the row's node and a timeout of a minute; a row without a node gets none and is recorded as lost in destroying |
| RequestOutcome.WakeOutcome | control/internal/lifecycle/lifecycle.go:621-690 | exactly a stopped row goes to starting, with one start command on its node |
| RequestOutcome.RestartOutcome | control/internal/lifecycle/lifecycle.go:697-745 | one restart command on the node of a running row, and no row moves |
| RequestOutcome.ReapOutcome | control/internal/lifecycle/idle_reaper.go:106-174 | a running row goes to stopped with one stop command, and its route is removed even if the command could not be created |
| RequestOutcome.AssignOutcome | control/internal/lifecycle/lifecycle.go:229-260 | a pending row goes to starting on the node without container and port, with one start command there |
| RequestOutcome.LateChangesNothing | control/internal/lifecycle/lifecycle.go:508-516 | a handler whose row somebody else has moved before its compare-and-swap changes nothing and issues nothing |
| CreateOutcome.CreateEnds | control/internal/lifecycle/lifecycle.go:130-286 | the whole database after a create, for every name and whichever calls fail |
| CreateOutcome.CreateSucceeds | control/internal/lifecycle/lifecycle.go:156-286 | without failing calls, under a free name or one whose row is destroyed or failed and without commands, the new row ends starting on the node a placement picks with exactly one start command, or pending without one when there is no capacity; the old row is gone and all else is as before |
| CreateOutcome.CreateRefused | control/internal/lifecycle/lifecycle.go:156-180 | under any other name nothing changes, whichever calls fail |
| Handlers.ControlPlane.CreateSandbox | control/internal/lifecycle/lifecycle.go:130-286 | the database afterwards is that of the driven step machine, which CreateEnds gives; success means exactly one new pending start command for this sandbox, an error none |
| Handlers.ControlPlane.AssignAndIssue | control/internal/lifecycle/lifecycle.go:229-260 | assign then issue, as driven; success exactly when the start command was created |
| Handlers.ControlPlane.HandleAck | control/internal/lifecycle/lifecycle.go:292-458 | the database afterwards is that of the driven step machine, which AckEnds gives; not found, invalid transition, store error and success are told apart exactly, and success means the command is acknowledged |
| Handlers.ControlPlane.TransitionAndSettle | control/internal/lifecycle/lifecycle.go:349-392 | the compare-and-swap of an acknowledgement and what follows a hit, a miss and an error |
| Handlers.ControlPlane.RefreshAndSettle | control/internal/lifecycle/lifecycle.go:356-392 | after a miss the acknowledgement goes on only if the row is already where it should be |
| Handlers.ControlPlane.PersistAndAnnounce | control/internal/lifecycle/lifecycle.go:793-820 | writes container id and port, empty ones as missing, and goes on even if that fails |
| Handlers.ControlPlane.NotifyRouteAdd | control/internal/lifecycle/lifecycle.go:749-778 | upserts the route when node and port are known |
| Handlers.ControlPlane.ResetAndAcknowledge | control/internal/lifecycle/restart.go:173-183 | resets the failure count, best effort, before the acknowledgement |
| Handlers.ControlPlane.HandleEvent | control/internal/lifecycle/lifecycle.go:464-552 | the database afterwards is that of the driven step machine, which EventOutcome gives; an out-of-memory exit is an exit, an unknown event type is only looked up; an error exactly when the row is missing, or a read or a wanted transition fails |
| Handlers.ControlPlane.HandleCrash | control/internal/lifecycle/restart.go:69-168 | as driven, which CrashOutcome gives; it reports a restart exactly when the row was restarting, the count is at most three and the command could be created, with a delay of 5, 10 or 20 seconds |
| Handlers.ControlPlane.DestroySandbox | control/internal/lifecycle/lifecycle.go:557-615 | as driven, which DestroyOutcome gives; the result is exact, and success means the stop command was created |
| Handlers.ControlPlane.WakeSandbox | control/internal/lifecycle/lifecycle.go:621-690 | as driven, which WakeOutcome gives; the result is exact, and success means the start command was created |
| Handlers.ControlPlane.RestartSandbox | control/internal/lifecycle/lifecycle.go:697-745 | as driven, which RestartOutcome gives; the result is exact, and success means the restart command was created |
| Handlers.ControlPlane.ReapOne | control/internal/lifecycle/idle_reaper.go:106-174 | as driven, which ReapOutcome gives; reaped exactly when the row went from running to stopped, and no other row changes |
| IdleReaping.IdleReaper.Reap | control/internal/lifecycle/idle_reaper.go:75-102 | the database is the fold over the listed rows; the count is the number of rows stopped, which were idle and running, and every other row is unchanged |
| IdleReaping.ReapedStopsTheList | control/internal/lifecycle/idle_reaper.go:75-174 | a pass without failing calls stops every listed row, takes exactly their routes away and adds exactly one stop command for each, on its node; every other row, route and command is as before |
| RescheduleRows.MoveOutcome | control/internal/lifecycle/reschedule.go:111-256 | without failures a current running row ends starting with its command on the node a placement picks, or failed when there is none |
| RescheduleRows.MoveEnds | control/internal/lifecycle/reschedule.go:111-256 | the whole database after one row's reschedule, whichever calls fail; the route's removal and the reset are passed over |
| RescheduleRows.RescheduledMovesTheList | control/internal/lifecycle/reschedule.go:62-98 | without failures every listed row is moved and has its command, and every other row is as before |
| RescheduleLoop.Rescheduler.RescheduleNode | control/internal/lifecycle/reschedule.go:62-98 | under any failures Count + Failed is the number of rows listed, there are Failed errors, Count commands were added, and the errors name exactly the listed rows that got no start command |
| RescheduleLoop.Rescheduler.RescheduleSandbox | control/internal/lifecycle/reschedule.go:111-256 | as driven; success exactly when the start command was created |
| RescheduleLoop.AccountSuccess | control/internal/lifecycle/reschedule.go:91-93 | one more success keeps the accounts |
| RescheduleLoop.AccountFailure | control/internal/lifecycle/reschedule.go:83-90 | one more failure keeps the accounts |
| RescheduleLoop.HeartbeatMonitor.Tick | control/cmd/forge-control/main.go:263-318 | every healthy node last seen longer ago than the threshold gets one turn, in listing order, and nothing else happens; a failing listing ends the tick |
| RescheduleLoop.SilentNodesAre | control/cmd/forge-control/main.go:274-290 | the nodes that get a turn are exactly the healthy ones that were seen once, and longer ago than the threshold |
| HeartbeatTick.TickEmptiesMarkedNodes | control/cmd/forge-control/main.go:274-316 | after a tick without failures no row is running on a node it marked; each moved row is starting, with its command, on the roomiest node that fits it among those healthy before the tick and not marked by its turn, or failed exactly because there was none; every other row is unchanged |
| HeartbeatTick.StartsOnHealthyNodeIff | control/cmd/forge-control/main.go:274-316 | a moved row with somewhere to go starts on a node that is healthy at the end exactly when its destination, computed from the nodes before the tick, is not one of the silent nodes |
| HeartbeatTick.TickCanStartOnMarkedNode | control/cmd/forge-control/main.go:274-316 | there is such a tick: two silent nodes and one row, which is moved to the second node before that is marked |
| Dispatch.CommandTable.PollPendingCommands | control/internal/store/commands.sql.go:95-106 | takes at most ten unlocked pending commands of the node, none newer than one it leaves, all of them if fewer than ten, makes exactly those dispatched and changes nothing else |
| Dispatch.StepKeeps | control/internal/store/commands.sql.go:95-106 | locking, committing, rolling back, inserting and acknowledging keep open polls disjoint and their rows pending, and never return a row to pending |
| Dispatch.AtMostOnceDispatch | control/internal/store/commands.sql.go:95-106 | over any interleaving batches are disjoint and have at most ten commands, and a returned command is never pending again |
| Dispatch.UncontendedTakesOldest | control/internal/store/commands.sql.go:95-106 | alone, a poll takes the oldest pending commands of its node, ten or all |
| Dispatch.ContendedSkipsOnlyLocked | control/internal/store/commands.sql.go:103-104 | an older command left behind is locked by another poll |
| Dispatch.NoCommandIsHandedOutTwice | control/internal/store/commands.sql.go:95-106 | no command occurs twice in all that agents were handed |
| Ports.CountsAddUp | agent/internal/ports/allocator.go:22-35 | ports in use and available always add up to the range |
| Ports.Range | agent/internal/ports/allocator.go:24-27 | the inclusive range has max - min + 1 ports, none when it is empty |
| Ports.Allocator.constructor | agent/internal/ports/allocator.go:22-35 | every port of the range starts available |
| Ports.Allocator.Allocate | agent/internal/ports/allocator.go:38-49 | some available port changes sides; an error exactly when there is none |
| Ports.Allocator.AllocateSpecific | agent/internal/ports/allocator.go:53-73 | that port changes sides; out of range and already allocated are the only errors |
| Ports.Allocator.Release | agent/internal/ports/allocator.go:76-87 | an allocated port goes back; an error exactly when it is not allocated |
| Executor.PortsAreConserved | agent/internal/agent/executor.go:133-220 | ports in use are the tracked sandboxes plus the starts that replaced a tracked one |
| Executor.ExecutesKeeps | agent/internal/agent/executor.go:102-285 | every command, whatever Docker answers, keeps the partition and the tracked ports distinct and allocated |
| Executor.RunConservesPorts | agent/internal/agent/executor.go:102-285 | so port conservation holds after every command of any sequence |
| Executor.LeaksIffStartReplaces | agent/internal/agent/executor.go:168-175 | a port is lost exactly when an unexpired, readable start with a free port and a Docker that obeys is for a tracked sandbox; it is the port that sandbox held |
| Executor.SucceedsIff | agent/internal/agent/executor.go:102-285 | a command is acknowledged as a success exactly when it is in time, its payload parses and Docker did what its kind needs; a refused one changes nothing |
| Executor.StartHolds | agent/internal/agent/executor.go:133-187 | a start that succeeds has the sandbox tracked with its container on a port that was available and no other sandbox or port changed |
| Executor.StopReleases | agent/internal/agent/executor.go:190-220 | a stop that succeeds has the sandbox forgotten and its port available again, and nothing else changed |
| Executor.CommandExecutor.Execute | agent/internal/agent/executor.go:102-128 | exactly one acknowledgement on every branch, with the status and the memory the command calls for; releases never fail |
| Executor.CommandExecutor.ExecuteStartSandbox | agent/internal/agent/executor.go:133-187 | starts on some available port, or acknowledges failure with the pool rolled back |
| Executor.CommandExecutor.ExecuteStopSandbox | agent/internal/agent/executor.go:190-220 | untracks and releases only after Docker stopped and removed the container |
| Executor.CommandExecutor.ExecuteAll | agent/internal/agent/executor.go:102-128 | commands executed in order give a run with one acknowledgement each |
| Reconcile.NamedRow | control/internal/scheduler/heartbeat_reconciler.go:86-107 | a row ends as its own write leaves it, whatever happens to the others |
| Reconcile.FailuresAreIsolated | control/internal/scheduler/heartbeat_reconciler.go:72-107 | a row whose write fails is as before, every other row as after a pass without failures |
| Reconcile.LostIff | control/internal/store/sandboxes.sql.go:598-607 | an unreported row is destroyed exactly when it is on the node, pending, starting, running or restarting, more than 60 seconds old on both clocks, and its write does not fail; state_version stays |
| Reconcile.ReportedRow | control/internal/store/sandboxes.sql.go:581-586 | a reported row takes the reported state whatever it was, exactly when the write succeeds, the reading is newer and the state is one of the table's eight names; state_version and node stay |
| Reconcile.GraceShortCircuitIsRedundant | control/internal/scheduler/heartbeat_reconciler.go:45-50 | under one clock reading the grace-window short-circuit gives the same table as the SQL filter alone, for any failing writes |
| Observation.HeartbeatReconciler.Reconcile | control/internal/scheduler/heartbeat_reconciler.go:75-113 | the pass is its plan of writes, executed in order past failures; the counter is the number of lost marks that succeeded |
| Observation.SuccessesCount | control/internal/scheduler/heartbeat_reconciler.go:93-107 | that number is the size of the set of lost marks that did not fail |
| Observation.ServeHTTP | agent/internal/agent/containers_handler.go:44-70 | 400 exactly without a name, 500 exactly when the listing failed, 404 exactly when it lacks the name, and otherwise 200 with the state of the first container of that name |
| Observation.SendHeartbeat | agent/internal/health/heartbeat.go:91-119 | sends the whole snapshot, and nothing at all when it failed |
| Observation.ContainerExists | control/cmd/forge-control/main.go:753-794 | absent only for a row with a node and on a 404 or a 200 that says so; everything else is unknown |
| Observation.AbsentIffListedWithout | control/cmd/forge-control/main.go:782-793 | agent and client together answer absent exactly when a successful listing lacks the name |
| Observation.PresentIsTheListedState | control/cmd/forge-control/main.go:782-787 | when the listing has the name the answer is the state of its first container |
| Observation.FreshnessService.GetSandbox | control/internal/scheduler/sandbox_freshness.go:71-98 | the result and the whole table for every combination of failing reads, freshness, answer and failing mark: a fresh row is returned as it is, an unreachable agent changes nothing, and a row is destroyed only on an absent answer |
| Observation.SandboxTable.MarkSandboxVerified | control/internal/store/sandboxes.sql.go:581-586 | overwrites the state of any row whose reading is older, and fails on a state the table does not accept |
| Observation.SandboxTable.MarkSandboxDestroyed | control/internal/store/sandboxes.sql.go:652-661 | destroys an active row by app name, on whatever node |
| Evidence.NoDestructionWithoutEvidence | agent/internal/health/heartbeat.go:91-119 | whatever fails or is late and in any interleaving of statements, every row the reconciler destroyed was missing from an earlier successful Docker listing of the node the row named when it was destroyed, and every row the freshness check destroyed on the handler's answer from one of the node that was asked |
| Evidence.EvidenceIffHandlerAnswers | control/cmd/forge-control/main.go:782-793 | a check that is answered absent destroys its active row with evidence exactly when the containers handler answered, or an earlier listing of the node had lacked it |
| Evidence.AgentWithoutHandlerDestroys | control/cmd/forge-control/main.go:786-788 | an agent without the handler answers 404, and a first check destroys its row although nothing was listed at all |
| Evidence.DestructionIsRecorded | control/internal/api/nodes.go:291-296 | every row a pass or a check turns into destroyed is among those the theorems speak of, unless the agent reported that very state |
| Evidence.UndisturbedPass | control/internal/scheduler/heartbeat_reconciler.go:75-113 | the pass's statements, one after the other with nobody in between, are its plan of writes |
| Evidence.CheckJudgesByNodeAsked | control/internal/scheduler/sandbox_freshness.go:82-93 | over any run from a check's look at the row to its end, it destroys on the word of the node the row named at the look, which is the row's own node exactly when the row names it at the end |
| Evidence.UnmovedRowIsJudgedByItsNode | control/internal/scheduler/sandbox_freshness.go:82-93 | a row nobody moves meanwhile is destroyed on the handler's answer only after a listing of its own node lacked it |
| Evidence.MovedRowCanBeDestroyedUnseen | control/internal/store/sandboxes.sql.go:652-661 | a row moved meanwhile can be destroyed although no listing of its node was ever taken |
| Caddy.ParseUndoesBuild | control/internal/routing/caddy.go:147-200 | parsing what was built gives the route back but for the sandbox id |
| Caddy.ParsedNameIff | control/internal/routing/caddy.go:186-193 | an id is parsed to a name exactly when it is that name's route id |
| Caddy.BuiltRouteForwards | control/internal/routing/caddy.go:147-171 | a built object has the id route-app, matches the host app.myappx.live and no other, and forwards to the route's upstream with its sandbox id in the header |
| Caddy.AnswersIff | control/internal/routing/caddy.go:147-171 | where every object matches its own host, an app's host is answered exactly when the app's object is there, and by that object alone |
| Caddy.CaddyClient.ListRoutes | control/internal/routing/caddy.go:92-123 | exactly the objects whose id names an app, parsed |
| Caddy.CaddyClient.Apply | control/internal/routing/caddy.go:127-142 | every add and then every remove whatever fails; as many errors as failing calls |
| Caddy.AddIsIsolated | control/internal/routing/caddy.go:127-142 | an add has its effect exactly when its own call does not fail, whatever happens to the others |
| Caddy.RemoveIsIsolated | control/internal/routing/caddy.go:127-142 | and so has a remove |
| Drift.DriftDetector.Detect | control/internal/routing/drift.go:77-174 | for any iteration order and any failing calls only stale routes are removed, only missing ones of routable rows added, and every other object is untouched; every stale route and every missing row whose node lookup succeeds gets exactly one call, and the counters are the numbers of those that did not fail |
| Drift.PassIsDetermined | control/internal/routing/drift.go:106-169 | the failed calls alone determine the result |
| Drift.OnePassConverges | control/internal/routing/drift.go:77-174 | a pass without failures over routable rows makes the routed names the running ones and leaves a second pass nothing to do |
| Drift.OnePassServes | control/internal/routing/drift.go:77-174 | after such a pass the hosts that are answered are those of the running rows, and one that was not answered before is served by its node's address and its port, with its sandbox id |
| Drift.WrongUpstreamIsKept | control/internal/routing/drift.go:121-125 | a route that names a running app is kept wherever it points |
| Batching.BatchOrderDoesNotMatter | control/internal/routing/batcher.go:118-138 | however the map is iterated, adds first or removes first, a batch is one overlay, and its adds and removes are disjoint |
| Batching.ApplyIsOverlay | control/internal/routing/caddy.go:127-142 | Apply without failing calls brings the proxy to that overlay |
| Batching.ShownIsServed | control/internal/routing/caddy.go:147-171 | where the proxy holds the routes of m, a request for an app's host is served exactly when the app is in m, by that route's upstream with that route's sandbox id |
| Batching.ApplyServes | control/internal/routing/caddy.go:127-142 | after Apply without failing calls an added app's host is served by its new upstream, a removed app's by nobody, and any other as before |
| Batching.OutOfOrderIff | control/internal/routing/batcher.go:140-143 | two batches applied whole agree in either order exactly when they agree on every shared app |
| Batching.OverlayOneMore | control/internal/routing/batcher.go:73-78 | keeping only the last change of an app is the same as applying each |
| Batching.OtherDiscardsPending | control/internal/routing/batcher.go:126-133 | an unknown action discards the change it replaces |
| Batcher.StepKeeps | control/internal/routing/batcher.go:65-156 | every step between two releases of the mutex keeps the batcher's invariant |
| Batcher.NoStrandedChange | control/internal/routing/batcher.go:65-156 | the timer is nil exactly when nothing is pending, fewer than 50 changes are, and a pending change has an outstanding callback that takes it |
| Batcher.EnqueueTakesAtFifty | control/internal/routing/batcher.go:65-99 | a change takes the whole batch with it exactly when it makes fifty apps; otherwise it takes nothing and arms the running timer afresh, or a new one; after Stop it is dropped |
| Batcher.CallbackTakesAll | control/internal/routing/batcher.go:89-115 | a callback and Stop take all that is pending, as one batch |
| Batcher.StopIsFinal | control/internal/routing/batcher.go:102-115 | once Stop has taken the batch nothing is pending, taken or accepted again |
| Batcher.BatchingRefines | control/internal/routing/batcher.go:65-148 | over any run the batches in the order taken, then what is pending, amount to the accepted changes one by one |
| Batcher.RouteBatcher.EnqueueChange | control/internal/routing/batcher.go:65-99 | one step of the monitor; when it flushes, others run while Apply does, and nothing it does after relocking changes the state |
| Batcher.RouteBatcher.OnTimer | control/internal/routing/batcher.go:89-97 | the callback's step, with the same release in the middle |
| Batcher.RouteBatcher.StopBatcher | control/internal/routing/batcher.go:102-115 | the step of Stop, with the same release in the middle |
| Batcher.RouteBatcher.FlushLocked | control/internal/routing/batcher.go:118-148 | clears the batch before releasing the mutex, and hands Apply exactly its changes |
| Flights.EveryCompletionIsRightIff | control/internal/routing/batcher.go:140-143 | from any reachable moment with flushes in flight, call by call, the remaining calls leave the batches applied in the order taken whatever order they are made in, exactly when every outstanding call is the last change taken for its app and every app without one has its route |
| Flights.TakingKeepsSafeIff | control/internal/routing/batcher.go:118-148 | taking one more batch keeps that exactly when no outstanding call is about one of its apps with another change |
| Flights.OrderlyRunRefines | control/internal/routing/batcher.go:65-148 | so over a run without failing calls that never takes a batch against an outstanding conflicting call, the landed proxy and what is pending amount to the accepted changes one by one |
| Flights.OvertakenFlushKeepsRoute | control/internal/routing/batcher.go:140-143 | there is a run of an add and a remove, each flushed alone, whose second flush overtakes the first: nothing is pending, no call failed, and the removed route is there |
| Watcher.MapEventIsFaithful | agent/internal/events/watcher.go:163-195 | exactly the three actions of prefixed containers are mapped, and the Docker event can be read back |
| Watcher.ProcessStream | agent/internal/events/watcher.go:118-158 | emits the mapped events in order up to the end or the cancellation, takes the time of the last one, and asks for a reconnect exactly when the stream ended with an error and no cancellation came first, between events or while the errors are drained |
| Watcher.NoGapAcrossReconnects | agent/internal/events/watcher.go:70-113 | after any number of streams, each breaking off anywhere, every mappable event up to the furthest point reached has been emitted and nothing else has |
| Watcher.SinceNeverGoesBack | agent/internal/events/watcher.go:136-141 | since never goes back and nothing emitted is taken back |
| Watcher.SinceIsTheLastEvent | agent/internal/events/watcher.go:136-141 | after any number of streams since is the time of the last mappable event any of them reached, or zero when there is none |
| Watcher.BackoffIsCapped | agent/internal/events/watcher.go:100-108 | the back-off after k errors is min(base * 2^k, max) for every k exactly when base <= max |
| Watcher.BackoffAfterErrors | agent/internal/events/watcher.go:100-108 | after at least one error it is so for every base |
| Watcher.EventWatcher.WatchLoop | agent/internal/events/watcher.go:70-113 | the loop emits what its streams give, the last one perhaps cut short, and waits the back-off of each error |

## Left out

- HTTP routing, authentication, request bodies, the CLI, the SDK, metrics, the log proxy, image pulling, registration: no state worth a proof.
- Audit events, log lines, metadata and environment JSON, resources other than memory: contents the modelled decisions never read back.
- Real time: clocks are readings per step, tickers are "a tick may happen", and timers are armed sets; the network has no liveness.
- `MarkSandboxVerified` in the lifecycle runs: it writes any state to any row, so no statement about the transition table survives it. Its effect is exact in `Reconcile`.
- uuid.New is modelled by ids that have never been used, and command ids by the script; a clash of command ids is a failing insert, a clash of sandbox ids cannot happen.
- failure_count, state_version and time.Duration are unbounded; memory sizes are 32-bit only in the scheduler's subtraction.
- Store.ControlStore.ListHealthyNodes: returns the nodes in table order; the source's order only matters among nodes with equal free memory.
- Store.ControlStore.ListRunningSandboxesByNode: the order by created_at is not modelled; what is proved holds for every order.
- Store.ControlStore.ListIdleSandboxes: which running rows are idle is an input, and their order is not modelled.
- Store.ControlStore.CreateCommand: does not check that the node is registered; the foreign key's refusal is one of the failures the environment may choose.
- ProtocolTheorems.NoOrphansInCleanRuns: assumes no failing CreateCommand and no acknowledgement of the two kinds in `AckOrphansIffBad`; a failed insert is only logged or returned by the source.
- ProtocolTheorems.NoOrphansInCleanRuns: does not say that the awaited command's node is the row's node, because an interleaved crash or wake uses the node of the row it read; `NoOrphanedStart` proves it for handlers one at a time.
- AtomicRuns.RouteIndexAgrees: two interleaved start acknowledgements with different ports can leave the earlier port in the route, so it is stated for handlers one at a time. A failing route update is only logged by the source and leaves the index behind; drift detection repairs its names, not its upstreams.
- AtomicRuns.DriveKeepsRoute: assumes that no route update and no second look of an acknowledgement fails, as `RouteIndexAgrees` does.
- AtomicRuns.DriveAddsRoute: assumes that the acknowledgement's calls up to the route update succeed; otherwise the source leaves the row without a route.
- HeartbeatTick.TickEmptiesMarkedNodes: assumes no failing call; a row whose placement cannot list the nodes stays pending. It also says nothing about other handlers between the steps of one tick.
- Handlers.ControlPlane.CreateSandbox: tells success from an error, but not which error it is.
- Handlers.ControlPlane.NotifyRouteAdd: the node lookup for the upstream address and its failure are not a separate call but part of the route call; the upstream is the pair of node and port, and a row without one of them is a read without effect.
- The rows of the reaper's and the rescheduler's loops are independent handlers in the interleaved runs, and one sequence in the methods.
- The route map is an upsert map keyed by @id: what Caddy does with a second object of the same @id is not part of this model.
- Caddy.AnswersIff: hosts are compared as they are written, and of several matching objects only those with a route id are considered; Caddy's order of evaluation and case folding are not part of this model.
- Drift.OnePassServes: an app that was answered before keeps its object, which may point anywhere (`WrongUpstreamIsKept`).
- Routes in the lifecycle runs change at once; when batching delays them without changing the outcome is `Batcher.BatchingRefines` and `Flights.EveryCompletionIsRightIff`.
- Batcher.BatchingRefines: failing Apply calls lose their changes, as in the source, which only logs them.
- Evidence.NoDestructionWithoutEvidence: a reported state is copied as it is, and Docker has no state named destroyed; a check that something other than the handler answered is the subject of `EvidenceIffHandlerAnswers`.
- Docker answers are arbitrary; which container a stop command's container id names is not modelled, nor is the mismatch between the labels set and filtered on.
- Node drain and removal, and cumulative memory capacity: the source does not maintain them.
