# WKBench core: a verified model

A Dafny model of the four connected cores of the benchmark kit and of two parsers
and indexes that feed them, with proofs of what they promise together.

* **Remote background tasks.** `ServerMachine` is the plugin server and
  `HostMachine` the host client, each a machine whose steps are critical sections,
  channel operations and pipe operations; a run is any sequence of steps, with
  every choice of the environment (task outcomes, contexts, broken pipes, refused
  frames) part of the step. `Session` joins the two by byte pipes that keep order.
  `ServerTasks` and `HostClient` hold the objects whose methods change the tables;
  the tables' functions in `ServerTasks` and `HostTables` are what the machines use.
  `Losses` follows a frame that finds nobody on the host through both machines.
  `*Guarantees` state what holds after every run. `Receipts` and `Dues` tell from the
  steps alone what the server receives from its tasks and what it must write, `Offers`
  and `Fates` what a task on the host is offered and how each call ends.
* **Kernel engine.** `TopoSort` and `Wiring` build the graph; `Engine`,
  `EngineProgress`, `Shutdown` and `EngineRun` are the run loop, its monitors, shutdown
  and cleanup, driven by a tape of environment choices, each recorded beside the call
  it answers; `EngineGuarantees` reads the log of a run, `EngineAnswers` the answers.
* **Traffic.** `Traffic` is the paced, bounded-concurrency send loop and its index
  arithmetic.
* **Metrics.** `MetricKeys`, `MetricStore`, `Totals` and `Percentile`.
* **Scraping.** `Exposition` is the Prometheus text parser, `Printing` the canonical
  printing it undoes, `Escapes` the grammar of quoted values, `Collector` the state kept between scrapes and its series keys.
* **Transport.** `Framing` and `Artifacts`.

Shared ground is in `Outcomes`, `Wire` (frames and requests), `Ordering` (the order
of Go strings, sorting), `Strings` and `Utf8`.

Request ids are the numbers behind the textual prefix; task ids are the numbers
behind `bg-%d`, zero being the empty id. A Go error is its text. `float64` is an
exact real, times are integers chosen by the environment. Text that is scanned or
escaped is a sequence of bytes, one character below 256 each. Stop calls on one task
do not overlap: a Stop begins when the task's Start has returned it and earlier Stops
of it have returned. After a frame for nobody the read loop shuts the client down and
goes on reading (benchkit/pluginhost/stdio_client.go:143-146); the model does the
same. A plugin call that waits for the reply to an artifact frame reads from the same
pipe as the Serve loop, and takes whatever comes next.

Where the code and expectation part:

* A counter followed by a duration under one key loses the extremes in the merge
  (`MetricStore.MixedKindsDiffer`); `MetricStore.RemoteRefinesLocal` says exactly
  when they survive.
* A minimum of zero is lost when a flush follows (`Totals.ZeroIsLost`);
  `Totals.LeastIsKept` is an equivalence.
* An unlabelled metric whose name is another metric's key shares that key
  (`MetricKeys.BracedNamesCollide`); `MetricKeys.KeysMeet` says that nothing else does,
  and `MetricStore.KeyIsMetric` what it means for a store.
* A name with an opening brace is not read back off its key (`MetricKeys.NameRecovered`,
  an equivalence).
* A mandatory input whose only provider is the unit named "" stays without a binding
  in an accepted scenario (`Wiring.NamelessProviderIsDropped`);
  `Wiring.MandatoryBoundWhen` and `Wiring.BuiltInputsBound` say exactly when every
  mandatory input is bound, and `Wiring.NamedUnitsBindAll` that named units suffice.
* A label value read through a byte escape need not be UTF-8, and then no canonical
  printing gives it back (`Printing.ByteEscapeDoesNotNormalise`);
  `Printing.AcceptedLinesNormalise` has the exact condition.
* A request can be lost to the server (`SessionGuarantees.RequestIsLost`, a run). It
  is lost exactly when a plugin call that waits for an artifact reply finds it in the
  pipe (`SessionGuarantees.OnlyArtifactCallsLose`); the server gets all others in order
  (`SessionGuarantees.RequestsAreRead`), so every one in a run without such a call
  (`SessionGuarantees.NothingLostUnlessAwaited`).
* A terminal event whose error text is not UTF-8 is dropped on a working pipe
  (`ServerGuarantees.AnnouncedIsWritten`, an equivalence).
* Series whose label values differ in stray bytes alone share a place in the collector's
  index (`Collector.StraySeriesMeet`); `Collector.KeysMeet` says exactly which do.

## Model

| member | source | states |
|---|---|---|
| SessionGuarantees.RetryNeverRefused | benchkit/pluginhost/stdio_client.go:438-489 | In every interleaving of host and server, a Stop that ends with CONFIG_ERROR on a working transport comes after an earlier Stop of the same task that returned success; so a Stop retried after any number of RUN_ERROR replies never meets CONFIG_ERROR |
| SessionGuarantees.RegisteredOrStopped | benchkit/pluginhost/stdio_client.go:741-764 | A task still registered under its id on the host is the server task issued for that very start request, and it is in the server's table unless its StopResponse is in the stream |
| SessionGuarantees.StopAppliesEverything | benchkit/pluginhost/stdio_client.go:551-593 | Once a Stop has its StopResponse, and so before it returns nil, everything the server ever publishes for the task is applied in order, unless the environment rejected one of the task's frames; the metric flush is applied exactly once, or not at all for a task without metrics, however many stop attempts there were and whatever became of the transport |
| Losses.AnsweredLosesNothing | benchkit/pluginhost/stdio_client.go:139-146 | A task one of whose Stops has its StopResponse has lost no publication, transport failed or not: once the host finds nobody for one, no stop call can still be answered |
| Losses.ExecRecorded | benchkit/pluginhost/stdio_client.go:633-650 | In every run: waiters present when a frame found nobody get nothing after it, calls begun after the next frame send nothing, replies to cut waiters find nobody either, and every publication is accounted to a stop request answered before the next is read |
| SessionGuarantees.EventReachesItsTask | benchkit/pluginhost/stdio_client.go:766-803 | A terminal event that finds a task on the host, by task id or by start request, finds the one it was written for, and carries that task's first observation on the server |
| SessionGuarantees.EventIsOffered | benchkit/pluginhost/stdio_client.go:789-803 | When the read loop settles a terminal event, the task it was written for is offered what the server first saw that task end with, and if nothing was offered before, that is what Done carries |
| SessionGuarantees.RequestsAreRead | sdk/go/wkbench/plugin/server.go:74-135 | In every run the server got the requests read from the pipe, in order, without exactly those at the positions an artifact call took; an idle server always takes the next request, whatever it is |
| SessionGuarantees.OnlyArtifactCallsLose | sdk/go/wkbench/plugin/server.go:554-557 | A run loses a request if and only if in some step of it a plugin call that waits for an artifact reply finds a request in the pipe |
| SessionGuarantees.NothingLostUnlessAwaited | sdk/go/wkbench/plugin/server.go:74-135 | In every run in which no plugin call waits for an artifact reply the server gets all requests, in order |
| SessionGuarantees.RequestIsLost | sdk/go/wkbench/plugin/server.go:554-557 | A run in which the second of two start requests never reaches the server |
| Session.ExecKeeps | sdk/go/wkbench/plugin/server.go:272-301 | The joint invariant of both ends and the two pipes is kept by every sequence of steps |
| Session.NoStranger | benchkit/pluginhost/stdio_client.go:461-466 | A stop request names a task the server knows, unless the transport has failed |
| ServerGuarantees.TerminalEventOnce | sdk/go/wkbench/plugin/server.go:404-436 | At most one event write is attempted per task, with the first observation; when the record is gone, one was attempted if and only if some receiver took something from Done |
| ServerGuarantees.EventFollowsStart | sdk/go/wkbench/plugin/server.go:259-268 | Every event frame in the stream is its task's one event and comes after that task's StartResponse |
| ServerGuarantees.AnnouncedIsWritten | sdk/go/wkbench/plugin/server.go:404-436 | On a working pipe an attempted event is in the stream, with the first observation, if and only if its error text is UTF-8; there is no other event frame of the task |
| Receipts.ReceiptsAreSends | sdk/go/wkbench/plugin/server.go:365-392 | In every run, what monitor and stop handler together receive from Done is what the task sent before it closed the channel, in order, and after that nil values only, and those only once it is closed |
| Receipts.ReceiptsAreObserved | sdk/go/wkbench/plugin/server.go:365-402 | Whatever was received is observed once, or is in the hands of the receiver that is about to; nothing else is ever observed |
| Receipts.TerminalIsSent | sdk/go/wkbench/plugin/server.go:404-436 | An event that is announced carries a value the task sent, or nil after the task closed Done and everything sent was received |
| Receipts.ErrorIsAnnounced | sdk/go/wkbench/plugin/server.go:404-436 | A task that sent exactly one error, with one value received, can only be announced with that error |
| Receipts.DrainMissesNothing | sdk/go/wkbench/plugin/server.go:382-392 | The stop handler finds nothing in Done only if everything sent so far has been received and Done is open |
| Receipts.NothingIsForgotten | sdk/go/wkbench/plugin/server.go:365-380 | A monitor leaves only after an observation or because the stop handler asks it to; a removed task was announced if anything was received from it |
| Dues.WritesWhatIsDue | sdk/go/wkbench/plugin/server.go:222-301 | In every run, the frames written, events aside, are those the plugin's doings call for, in order: each output, flush and artifact with its payload; StartResponse for a start that succeeds and its error code for one that fails; for a stop CONFIG_ERROR if the task is unknown, RUN_ERROR if Stop, the outputs or the metrics fail, and StopResponse only if none of them did |
| ServerGuarantees.NothingReadAfterEof | sdk/go/wkbench/plugin/server.go:74-135 | Once the Serve loop meets the end of its input it reads no more requests |
| ServerGuarantees.DeletedStays | sdk/go/wkbench/plugin/server.go:343-363 | After the record is deleted nothing is observed or announced for the task in any continuation |
| ServerGuarantees.FlushedOnce | sdk/go/wkbench/plugin/server.go:277-299 | However many stop attempts, at most one metric flush is written; it precedes the StopResponse, and nothing is published after that |
| ServerGuarantees.RefusedOnlyWhenGone | sdk/go/wkbench/plugin/server.go:272-276 | A stop request gets at most one frame; CONFIG_ERROR means the task was never issued or an earlier stop request already has its StopResponse |
| ServerGuarantees.StartSectionsOnTable | sdk/go/wkbench/plugin/server.go:303-333 | The machine's start and begin-stop steps change the task table exactly as the server object's methods do, and no other start step touches it |
| ServerGuarantees.StopSectionsOnTable | sdk/go/wkbench/plugin/server.go:335-341 | Of the stop handler's steps up to the StopResponse only the abort changes the task table, as the method does |
| ServerGuarantees.CloseSectionsOnTable | sdk/go/wkbench/plugin/server.go:343-402 | The steps after the StopResponse change the task table exactly as the observe, claim, halt and forget methods do |
| ServerGuarantees.MonitorSectionsOnTable | sdk/go/wkbench/plugin/server.go:365-402 | The monitor's steps change the task table exactly as the observe and claim methods do |
| ServerMachine.ExecKeeps | sdk/go/wkbench/plugin/server.go:222-436 | The server invariant (handler, tasks, events, replies, places of all frames) is kept by every sequence of steps |
| ServerTasks.PluginServer.StoreBackgroundTask | sdk/go/wkbench/plugin/server.go:303-322 | The new record gets the next id and is the only change to the table |
| ServerTasks.PluginServer.BeginStop | sdk/go/wkbench/plugin/server.go:324-333 | Finds a record exactly when the table has one, and marks it stopping |
| ServerTasks.PluginServer.AbortStop | sdk/go/wkbench/plugin/server.go:335-341 | Takes the mark back if the record is still the one in the table |
| ServerTasks.PluginServer.HaltMonitor | sdk/go/wkbench/plugin/server.go:343-353 | Asks the monitor to leave once; reports whether the record is still in the table |
| ServerTasks.PluginServer.Forget | sdk/go/wkbench/plugin/server.go:355-363 | Removes the record, and no other |
| ServerTasks.PluginServer.ObserveDone | sdk/go/wkbench/plugin/server.go:394-402 | Only the first observation of a listed record is kept |
| ServerTasks.PluginServer.ClaimEvent | sdk/go/wkbench/plugin/server.go:404-420 | Exactly one caller is told to write the event, with the observation on record |
| HostGuarantees.DoneOnce | benchkit/pluginhost/stdio_client.go:491-511 | Done carries exactly the first cause offered and is closed once; a completed task is in neither bgStarts nor bgTasks |
| Offers.OffersAre | benchkit/pluginhost/stdio_client.go:491-511 | In every run, what a task is offered for Done is, in order, the causes of the events read for it, and what those who finish it pass on: why the read loop last gave up, or how a call ended |
| Offers.NilIsEarned | benchkit/pluginhost/stdio_client.go:438-489 | A task is offered nil only by an event that carries nil or by a Stop that succeeded |
| Offers.EventRoutes | benchkit/pluginhost/stdio_client.go:766-803 | An event goes to the task of its id, else to the one its request started if that is listed, else nowhere |
| HostGuarantees.DoneSettled | benchkit/pluginhost/stdio_client.go:502-511 | Nothing that happens later changes what Done carries |
| HostGuarantees.CompletedGetsDone | benchkit/pluginhost/stdio_client.go:491-500 | A task out of the tables has its Done value, or the caller that took it out is just about to put it there |
| HostGuarantees.EventLeavesTaskListed | benchkit/pluginhost/stdio_client.go:789-815 | An early terminal event settles Done but changes no routing: later frames of the task go where they would have gone |
| HostGuarantees.NoGaps | benchkit/pluginhost/stdio_client.go:652-724 | What a request consumed, then queued, is a contiguous in-order prefix of the non-event frames with its id since it registered; nothing is missing while it is registered and the read loop is idle |
| HostGuarantees.ClosedErrorComesLast | benchkit/pluginhost/stdio_client.go:683-724 | In every run, a request that ended with the closed error had consumed every frame that was ever queued for it before it met that error, in order, and its waiter was closed because the transport had failed |
| HostGuarantees.RequestIdsDistinct | benchkit/pluginhost/stdio_client.go:667-672 | No two requests on the wire share an id |
| HostGuarantees.OverflowGivesUp | benchkit/pluginhost/stdio_client.go:652-665 | A frame is queued if there is room for it; if there is none, the read loop turns to failing everyone and the queue is left as it was |
| HostGuarantees.GivingUpEndsEveryone | benchkit/pluginhost/stdio_client.go:633-650 | Once the read loop gives up, every waiter and every task there was is closed or completed before it goes on |
| HostGuarantees.BeginSectionsOnTables | benchkit/pluginhost/stdio_client.go:610-619 | Beginning a call changes the client's tables by one new waiter under the next id |
| HostGuarantees.CallSectionsOnTables | benchkit/pluginhost/stdio_client.go:491-511 | Every step of a call changes the waiters, tasks and names exactly as the client's methods do, and no other step touches them |
| HostGuarantees.PumpSectionsOnTables | benchkit/pluginhost/stdio_client.go:633-660 | Every step of the read loop changes the waiters, tasks and names exactly as the client's methods do, and no other step touches them |
| HostMachine.ExecKeeps | benchkit/pluginhost/stdio_client.go:118-148 | The host invariant (calls, waiters, tasks, names, read loop) is kept by every sequence of steps against any frames |
| HostMachine.TakeShape | benchkit/pluginhost/stdio_client.go:683-724 | Taking from a waiter moves the head of its queue to what was consumed; the closed error is met only with an empty queue and a closed waiter, and takes nothing |
| Fates.CallEndsAsFated | benchkit/pluginhost/stdio_client.go:347-489 | In every run, a call that has returned ended as the first thing that ended it says: a failed write, a cancellation, a failed or closed waiter, a refused frame, or the frame that answers it; it returned that result, and it finished its task unless it is a Start that succeeded or a Stop answered with RUN_ERROR |
| Fates.StartAppliesInOrder | benchkit/pluginhost/stdio_client.go:396-415 | In every run, a Start applies the outputs, flushes and artifacts it takes, one by one and in order, each before it takes the next frame |
| Fates.AppliedIsTaken | benchkit/pluginhost/stdio_client.go:551-593 | In every run, what was applied for a task is what its Start and the read loop applied, in order, refused outputs aside |
| Fates.ShutExactlyWhen | benchkit/pluginhost/stdio_client.go:118-148 | In every run, the client is shut exactly if it was shut from outside, by a call cancelled with its request out or going out, or by the read loop after failing everyone because of a frame; the read loop is gone exactly if it has failed everyone because of its pipe |
| Fates.FrameRoutes | benchkit/pluginhost/stdio_client.go:129-146 | A frame that is no event goes to the call that waits for it, else, if it is an output, a flush or an artifact, to the task listed under its request, and every other one makes the read loop fail everyone |
| Fates.GivingUpTellsWaiters | benchkit/pluginhost/stdio_client.go:633-650 | When the read loop fails the waiters, each one that is registered is closed and gets the error if its queue has room; the others are left alone |
| HostClient.StdioClient.NextRequestId | benchkit/pluginhost/stdio_client.go:667-672 | The id is greater than any used before |
| HostClient.StdioClient.RegisterWaiter | benchkit/pluginhost/stdio_client.go:610-619 | One new, open, empty waiter; the others are untouched |
| HostClient.StdioClient.UnregisterWaiter | benchkit/pluginhost/stdio_client.go:621-631 | The waiter, if registered, is out of the map and closed; the others are untouched |
| HostClient.StdioClient.FailAllWaiters | benchkit/pluginhost/stdio_client.go:633-650 | Every registered waiter gets the error if it has room and is closed; unregistered ones are untouched |
| HostClient.StdioClient.DeliverWaiterResult | benchkit/pluginhost/stdio_client.go:652-660 | Queued, dropped or overflowed, as the three-way select decides; no other waiter changes |
| HostClient.StdioClient.RegisterBackgroundTask | benchkit/pluginhost/stdio_client.go:726-739 | The task is listed under its start request |
| HostClient.StdioClient.RegisterBackgroundTaskId | benchkit/pluginhost/stdio_client.go:741-752 | The id is recorded unless the task is already completed |
| HostClient.StdioClient.UnregisterBackgroundTask | benchkit/pluginhost/stdio_client.go:754-764 | The task leaves both maps, and only its own entries go |
| HostClient.StdioClient.CleanUp | benchkit/pluginhost/stdio_client.go:495-498 | The first time, the task leaves the maps and all its open artifacts are closed; afterwards nothing changes |
| HostClient.StdioClient.Finish | benchkit/pluginhost/stdio_client.go:491-500 | The first time, out of the maps and every open artifact closed once; then the cause into Done unless one is there |
| HostClient.StdioClient.BackgroundTaskForEvent | benchkit/pluginhost/stdio_client.go:766-778 | By task id first, then by start request, else nothing |
| HostClient.RemoteBackgroundTask.CompleteDone | benchkit/pluginhost/stdio_client.go:502-511 | The first cause goes into Done, which is closed with it; later causes change nothing |
| TopoSort.SortsExactlyWhenPossible | benchkit/kernel/kernel.go:790-834 | topoSort succeeds if and only if every dependency exists and none is circular; on success the order lists each unit once after all it depends on; a missing unit is depended on, a reported cycle leads from the named unit back to it |
| TopoSort.IterationOrderIrrelevant | benchkit/kernel/kernel.go:790-834 | The answer is the same whatever order the maps are iterated in |
| TopoSort.Sorter.Run | benchkit/kernel/kernel.go:790-834 | The recursive closure over the mark maps computes the specified search |
| TopoSort.Sorter.VisitUnit | benchkit/kernel/kernel.go:797-828 | One visit, with its marks and its early errors, is the specified visit |
| TopoSort.DependenciesFirst | benchkit/kernel/kernel.go:820-827 | In a sorted order every transitive dependency stands before its dependent |
| TopoSort.ReachedIsBefore | benchkit/kernel/kernel.go:820-827 | Whatever a sorted unit reaches through dependencies is in the order too, before it |
| Wiring.BuildGraph | benchkit/kernel/kernel.go:689-732 | A graph is built if and only if the version fits, there are units, all kinds are known, all inputs resolve and the dependencies can be sorted; then it is sound (nodes for all units, bindings as wired, every dependency before its dependents), else the reason given is a real one |
| Wiring.ResolutionSound | benchkit/kernel/kernel.go:734-776 | A bound input is fed by an output of its type, the one asked for or the only one outside its unit; an input stays unbound exactly when it is optional, not asked for and nothing outside its unit has its type; a refusal gives its real reason: no reference, no such output, another type, no provider, or rivals |
| Wiring.BindWires | benchkit/kernel/kernel.go:714-727 | A unit has a binding for a port name exactly if an input of that name is fed by an output of a named unit, and every binding is one of those outputs |
| Wiring.MandatoryBoundWhen | benchkit/kernel/kernel.go:714-727 | When all inputs of a unit resolve, every unbound input is optional if and only if no mandatory input is left to the unit named "" alone |
| Wiring.NamelessProviderIsDropped | benchkit/kernel/kernel.go:720-722 | A scenario of two units that is accepted, and in every graph built of it a mandatory input stays unbound |
| Wiring.BuiltInputsBound | benchkit/kernel/kernel.go:689-732 | In a built graph every mandatory input has a binding if and only if names suffice at every unit |
| Wiring.NamedUnitsBindAll | benchkit/kernel/kernel.go:689-732 | A built graph of a scenario without a unit named "" binds every mandatory input |
| Wiring.ResolveInput | benchkit/kernel/kernel.go:734-776 | The loops over the providers compute the specified resolution |
| Wiring.ParsesUnitDotOutput | benchkit/kernel/kernel.go:778-784 | A reference is accepted exactly when, blanks around it aside, it reads unit.output with one dot and two names |
| Wiring.ProvidersAre | benchkit/kernel/kernel.go:704-712 | The providers are the outputs of the scenario's units and nothing else |
| Ordering.SortIndependent | benchkit/kernel/kernel.go:790-796 | Sorting forgets the order in which a map handed out its keys |
| Ordering.ByteOrder | benchkit/kernel/kernel.go:790-796 | One string comes before another if it is a prefix of it or has the smaller byte where they first differ |
| EngineRun.Run | benchkit/kernel/kernel.go:278-471 | On every way out: the log is the work of a prefix of the order, then every started task stopped in reverse, then every closeable output closed; result keys are a prefix of the order; every error a monitor took is in the returned error once and its unit failed; no error, a completed status and completed results everywhere are equivalent; status and failed result match the first cause. Every wait has one answer, the next choice of the tape: work goes on only after answers that call for no cause, and only if nothing has arrived where Run looks; what the last answer calls for comes first in the error; every cause an answer calls for is in the error, and every cause but background failures is called for by an answer. A task's errors are that it was overdue, or else what its monitor reported, then what Stop returned; a unit's cleanup list has the outputs whose Close failed |
| EngineRun.TearDown | benchkit/kernel/kernel.go:473-480 | Stopping and cleanup end the run as promised and keep the results already given; the status becomes worker_failed exactly when the shutdown adds an error |
| Engine.NeverBlocks | benchkit/kernel/kernel.go:386-402 | A monitor with an error in hand always finds room in the channel |
| Engine.DisturbSteady | benchkit/kernel/kernel.go:386-402 | Whatever monitors and units do while Run waits keeps the accounts and changes neither results nor log |
| Engine.AskAccounted | benchkit/kernel/kernel.go:386-402 | Every wait keeps the account: the answers are the choices of the tape, one for each call in the log; each unit's outputs are what it last set them to while it could; each monitor took the first outcome its task came up with, and no other error of the task was ever taken |
| EngineProgress.CheckBackgroundErrors | benchkit/kernel/kernel.go:286-305 | Receives everything in the channel, in order, each recorded and wrapped once |
| EngineProgress.WaitBackgroundMonitor | benchkit/kernel/kernel.go:556-603 | Waits exactly if the monitor is still there, and is late exactly if the answer says so; the monitor is gone afterwards, and an error it held was sent |
| Shutdown.StopOne | benchkit/kernel/kernel.go:502-538 | One Stop is logged and answered, and the monitor waited for if it is still there; the task is settled; what the answers call for is what is added to the error, after what had arrived before; its result has exactly the errors due (overdue, or else what its monitor reported, then what Stop returned), and is failed exactly if there are any |
| Shutdown.StopBackgrounds | benchkit/kernel/kernel.go:482-541 | All active tasks are stopped once, last started first; every one is judged; all channel errors are among the causes, and the others are exactly what the answers call for |
| Shutdown.Cleanup | benchkit/kernel/kernel.go:1327-1336 | Closes exactly the targets, in order; exactly the Closes that fail are noted at their units, and nothing else changes |
| Shutdown.CleanupTargets | benchkit/kernel/kernel.go:1344-1368 | The loops compute the specified targets |
| Shutdown.ClosedOnce | benchkit/kernel/kernel.go:1344-1368 | Each closeable output of the order's units is a target exactly once, and nothing else is |
| Shutdown.LaterUnitsCloseFirst | benchkit/kernel/kernel.go:1348-1366 | Outputs of a later unit are closed before those of an earlier one |
| Shutdown.GreaterPortsCloseFirst | benchkit/kernel/kernel.go:1344-1368 | Among the outputs of one unit, those with greater names are closed first |
| EngineGuarantees.RunsAfterItsSources | benchkit/kernel/kernel.go:312-456 | A unit is run or started only after every unit it transitively depends on was run or started successfully |
| EngineGuarantees.BoundSourcesReady | benchkit/kernel/kernel.go:312-456 | In a built graph, a unit is run or started only after each unit that feeds one of its inputs succeeded |
| EngineGuarantees.StopsDependentsFirst | benchkit/kernel/kernel.go:501-538 | No background task is stopped before the tasks that transitively depend on it |
| EngineGuarantees.StoppedOnce | benchkit/kernel/kernel.go:482-541 | A background task is stopped exactly once if it was started, else never |
| EngineGuarantees.ClosesDependentsFirst | benchkit/kernel/kernel.go:1344-1368 | No output is closed before those of the units that transitively depend on its unit |
| EngineGuarantees.ClosesEachOnce | benchkit/kernel/kernel.go:1327-1336 | Every closeable output is closed exactly once, after the last Stop |
| EngineGuarantees.BuiltGraphIsRespected | benchkit/kernel/kernel.go:689-732 | In every run over a graph the engine built, units wait for all they transitively depend on, and no task is stopped and no output closed before those of its dependents |
| EngineAnswers.FailedEntryEndsWork | benchkit/kernel/kernel.go:355-437 | A Run or Start that fails is the last work call, and the error begins with its Running or Starting cause, with its text |
| EngineAnswers.ArrivedFailureEndsWork | benchkit/kernel/kernel.go:414-437 | A Run that succeeds while background failures have arrived is the last work call; it fails with the context's error, or else with the first of them, and they follow in the error |
| EngineAnswers.RefusalEndsWork | benchkit/kernel/kernel.go:320-345 | A Validate or Plan that fails is the last work call; the error begins with its cause, or with the background failures that had arrived by then, if any |
| EngineAnswers.StopsAreReported | benchkit/kernel/kernel.go:504-527 | A Stop failure is in the error if and only if a Stop of that task failed with it, and an overdue task if and only if waiting for its monitor was late |
| EngineAnswers.CleanExactlyWhenAllFine | benchkit/kernel/kernel.go:278-541 | Run returns no error, and a completed status, if and only if every call but Close answered well, no monitor took an error and none was overdue |
| EngineAnswers.FirstFailureIsReported | benchkit/kernel/kernel.go:386-402 | The background failures in the error are exactly the first outcomes of the monitored tasks from their start on, where these are failures |
| EngineAnswers.ClosedAsSet | benchkit/kernel/kernel.go:1269-1276 | Exactly the outputs are closed that a unit which was run or started left closeable: the last thing it set them to while at work, or, as a task, at any time after |
| Traffic.Run | units/traffic/send/unit.go:130-217 | At every exit the launched messages are each in exactly one place, the in-flight count is within its bound, no message was launched before its instant; on success every message has exactly one result and OK plus errors equal attempts equal the planned total. Every turn launches a message exactly if one is left, there is room and it is due or comes due first, receives the oldest result exactly if one is there and nothing may be launched or a result comes first, and ends the loop exactly if the context ends where it blocks or the result at hand is canceled |
| Traffic.LaunchesWhenDue | units/traffic/send/unit.go:163-199 | Whenever a message is left, fewer than the limit are in flight and it is due, the turn launches it there and then |
| Traffic.ContextEndsTheLoop | units/traffic/send/unit.go:166-214 | A context that ends while the loop waits, for a result or for the schedule, ends the loop |
| Traffic.NeverBlocks | units/traffic/send/unit.go:193-199 | A finished send always finds room in the results channel |
| Traffic.FinishDelivers | units/traffic/send/unit.go:193-199 | A message in flight that finishes has its result in the channel |
| Traffic.RateKept | units/traffic/send/unit.go:324-329 | The launches by any instant are bounded by the rate |
| Traffic.DueWithRate | units/traffic/send/unit.go:324-329 | A message is due in the very nanosecond in which the rate comes to allow it |
| Traffic.TotalMessages | units/traffic/send/unit.go:271-277 | At least one, and otherwise rate times duration to the nearest whole number, halves upwards |
| Traffic.ShareExact | units/traffic/send/unit.go:288-291 | A target's count after n launches is the quotient, plus one for the first remainder targets |
| Traffic.TargetsShareEvenly | units/traffic/send/unit.go:288-291 | After any number of launches two targets' counts differ by at most one |
| Traffic.SendersShareEvenly | units/traffic/send/unit.go:317-322 | Under round_robin two senders of a target have sent it equally often, give or take one |
| MetricStore.RemoteRefinesLocal | benchkit/kernel/kernel.go:1122-1155 | For any emissions and any key, plugin aggregation, one flush and the merge give the type, labels, count and sum of recording in the kernel, and the same minimum and maximum if and only if the first emission is a duration, the declared type is duration, or the least and the greatest duration are both zero (a counter at the head counting as zero) |
| MetricStore.FlushStandsForEmissions | benchkit/pluginhost/stdio_client.go:1038-1063 | A kernel store told a plugin's flush holds, key by key, what it would hold had it been told the emissions, all of it if and only if the key is faithful |
| MetricStore.OneKindAgrees | benchkit/pluginhost/stdio_client.go:1038-1063 | With one kind of emission per key the two ways agree everywhere |
| MetricStore.MixedKindsDiffer | benchkit/kernel/kernel.go:1137-1152 | A counter followed by a duration under one key loses the duration's maximum on the way |
| MetricStore.KeyIsMetric | benchkit/kernel/kernel.go:1205-1219 | A key collects exactly the emissions of one name and label set if and only if none of the others shadows it or is shadowed by it |
| MetricStore.ExtremesMean | benchkit/kernel/kernel.go:1097-1120 | Minimum and maximum bound every duration, and are durations themselves if the first emission was one |
| MetricStore.KernelMetrics.Add | benchkit/kernel/kernel.go:1083-1120 | The store stays the function of everything it was told, one emission more |
| MetricStore.KernelMetrics.Record | benchkit/kernel/kernel.go:1122-1155 | The store stays the function of everything it was told, one snapshot more |
| MetricStore.KernelMetrics.Apply | benchkit/pluginhost/stdio_client.go:1038-1063 | A flush adds its snapshots, in order, to whatever the store was told before |
| Totals.TotalsAddUp | benchkit/kernel/kernel.go:1083-1155 | After any mixture of emissions and flushes, the count and the sum under a key are those of all its entries, and there is an item exactly if something counts |
| Totals.GreatestIsKept | benchkit/kernel/kernel.go:1097-1155 | The maximum under a key of durations is the greatest any entry tells of |
| Totals.LeastIsKept | benchkit/kernel/kernel.go:1097-1155 | Of durations that are not negative, the minimum under a key is the least any entry tells of if and only if no snapshot follows the last zero there; otherwise it is too great |
| Totals.ZeroIsLost | benchkit/kernel/kernel.go:1145-1147 | A zero, then a flush with minimum one: the minimum kept is one |
| Totals.TypeIsDeclared | benchkit/kernel/kernel.go:1126-1140 | The type of a metric is the one it declares; undeclared, it is what its first entry speaks of, unless durations are flushed to it at any time |
| MetricStore.PluginMetrics.Emit | benchkit/contract/types.go:469-517 | The aggregates stay the function of everything emitted, one emission more |
| MetricStore.PluginMetrics.MetricSnapshots | benchkit/contract/types.go:528-546 | Every aggregate of what was emitted, once, in key order |
| MetricKeys.KeysMeet | benchkit/kernel/kernel.go:1205-1219 | Two metrics, whatever their names and byte-string labels, share a key if and only if they are equal, or exactly one is unlabelled and its name is the other's key |
| MetricKeys.LabelledKeysDiffer | benchkit/kernel/kernel.go:1205-1219 | Labelled metrics never share a key |
| MetricKeys.PlainNamesShadowNothing | benchkit/kernel/kernel.go:1205-1219 | A name without an opening brace, or not ending in a closing one, is nobody's key |
| MetricKeys.NameRecovered | benchkit/kernel/kernel.go:1221-1226 | The name can be read off the key if and only if it has no opening brace |
| MetricKeys.QueryEscapeReads | benchkit/kernel/kernel.go:1205-1219 | Escaped label text reads back by the rules of a query, and takes one character for every byte that stands for itself or is a blank, three for any other |
| MetricKeys.BracedNamesCollide | benchkit/kernel/kernel.go:1205-1219 | An unlabelled metric and a labelled one with the same key |
| MetricKeys.MetricKey | benchkit/contract/types.go:559-573 | The loops over the labels compute the key whatever order the map hands them out in |
| Percentile.NearestRankIsPercentile | benchkit/kernel/kernel.go:1182-1196 | The result is a sample; at least percent per cent of the samples are at most as large and fewer are smaller |
| Percentile.PercentilesOrdered | benchkit/kernel/kernel.go:1182-1196 | A higher percentage never gives a smaller value |
| Percentile.IndexIsRank | units/wukongim/metrics_collector/collector.go:414-430 | The collector's rounded index is the kernel's integer rank less one, for every percentage and count |
| Printing.LineReads | units/wukongim/metrics_collector/prometheus.go:98-115 | Reading a canonically printed sample gives back name and labels for all label values, with or without a timestamp; a value that is not UTF-8 comes back with its stray bytes replaced, so the labels are the same if and only if all are valid |
| Printing.DocumentReads | units/wukongim/metrics_collector/prometheus.go:41-63 | A document of printed samples, comments and k junk lines reads back as exactly its samples that pass the filter, with exactly k parse errors, up to the first line the scanner has no room for; it is read to its end if and only if there is no such line |
| Printing.JunkReads | units/wukongim/metrics_collector/prometheus.go:98-178 | A line counts as an error and gives no sample if it has no blank outside quotes, its name is no metric name, its value no number, its timestamp no 64-bit integer, if there are three or more words after the name, or a label key comes twice |
| Printing.AnyBlankSeparates | units/wukongim/metrics_collector/prometheus.go:117-132 | Any of the five blanks outside quotes separates |
| Printing.Int64Exactly | units/wukongim/metrics_collector/prometheus.go:143-147 | The numbers accepted as timestamps are exactly those of 64 bits |
| Escapes.UnquotesExactly | units/wukongim/metrics_collector/prometheus.go:204-207 | A quoted text stands for a value if and only if it is a sequence of runes, stray bytes and the escapes of a Go string literal between quotes, and then for what they mean one after the other |
| Printing.PrintingInjective | units/wukongim/metrics_collector/prometheus.go:98-115 | Different samples never print alike: name, labels in their order, value text and timestamp can be told from the line |
| Printing.AcceptedLinesNormalise | units/wukongim/metrics_collector/prometheus.go:98-210 | Whatever line is accepted, blanks, escapes and timestamps as they may be: some canonical printing reads back as the same sample if and only if every label value that was read is valid UTF-8 |
| Printing.ByteEscapeDoesNotNormalise | units/wukongim/metrics_collector/prometheus.go:204-207 | The line m{a="\xff"} 1 is accepted with a one-byte label value, and no printing gives that sample back |
| Printing.AcceptedIsPrintable | units/wukongim/metrics_collector/prometheus.go:98-210 | What was read of any accepted line has valid name and label keys and a value that is one word |
| Printing.LineSplits | units/wukongim/metrics_collector/prometheus.go:117-152 | The line is split at its one blank outside quotes |
| Printing.ExprReads | units/wukongim/metrics_collector/prometheus.go:154-178 | A printed name and label list is taken apart again |
| Printing.JoinedSplits | units/wukongim/metrics_collector/prometheus.go:212-248 | Pairs joined by commas are split at exactly those commas, whatever the quoted values contain |
| Printing.UnquoteQuote | units/wukongim/metrics_collector/prometheus.go:204-207 | A quoted label value is unquoted to itself with stray bytes replaced, so to itself if and only if it is valid UTF-8 |
| Utf8.ScrubKeepsValid | units/wukongim/metrics_collector/prometheus.go:204-207 | Replacing stray bytes changes a text if and only if it is not UTF-8 |
| Utf8.ScrubIsValid | units/wukongim/metrics_collector/prometheus.go:204-207 | What is left is valid UTF-8 |
| Utf8.EncodeIsRune | units/wukongim/metrics_collector/prometheus.go:204-207 | The bytes a Unicode escape stands for are one valid rune |
| Utf8.EncodeDecodes | units/wukongim/metrics_collector/prometheus.go:204-207 | Their payload bits are the number of the rune |
| Exposition.FindBreak | units/wukongim/metrics_collector/prometheus.go:117-132 | The scanner's loop finds the first blank outside quotes |
| Exposition.SplitLabelPairs | units/wukongim/metrics_collector/prometheus.go:212-248 | The scanner's loop splits at the commas outside quotes, or refuses |
| Exposition.PairsAreReal | units/wukongim/metrics_collector/prometheus.go:212-248 | No pair is empty, and there is at least one |
| Exposition.ReadLabels | units/wukongim/metrics_collector/prometheus.go:180-210 | The loop over the pairs builds the labels, with all escapes of Go string literals, or refuses a bad pair or a repeated key |
| Exposition.ReadText | units/wukongim/metrics_collector/prometheus.go:41-63 | The loop over the lines stops at the first line of 1 MiB or more; up to there it collects exactly the samples read and let through, and the error count is the number of lines that are neither blank nor comment and of which nothing can be read |
| Exposition.LinesAccounted | units/wukongim/metrics_collector/prometheus.go:41-63 | Every line is a sample, an error, or neither, and counts once |
| Collector.CollectorState.RecordLatest | units/wukongim/metrics_collector/collector.go:289-306 | After any samples the index is the function of the whole stream, by series key: the first series up to the cap with their last samples, all others dropped and counted |
| Collector.KeptOrDropped | units/wukongim/metrics_collector/collector.go:289-306 | No series key is kept and dropped at once, and every key seen is one or the other |
| Collector.LastSampleIsNewest | units/wukongim/metrics_collector/collector.go:289-306 | The sample kept of a series is the newest one of its key |
| Collector.KeysMeet | units/wukongim/metrics_collector/collector.go:375-388 | Two series have one key if and only if their names are equal and their labels are, up to which stray bytes the values have |
| Collector.ValidSeriesDiffer | units/wukongim/metrics_collector/collector.go:375-388 | A series whose label values are valid UTF-8 shares its key with no other |
| Collector.StraySeriesMeet | units/wukongim/metrics_collector/collector.go:375-388 | Two series with different stray bytes and one key, and a third with the replacement character and another key |
| Utf8.RunesMeet | units/wukongim/metrics_collector/collector.go:375-388 | Two texts have the same runes, stray bytes counting as one, if and only if they differ at stray bytes alone |
| Collector.CollectorState.RecordResult | units/wukongim/metrics_collector/collector.go:256-278 | Latencies, counts, index and the emitted counters and durations remain functions of all answers so far; a failed answer contributes no sample |
| Collector.StreamedAre | units/wukongim/metrics_collector/collector.go:256-278 | The samples recorded are exactly those of the answers that did not fail |
| Collector.EveryLatencyObserved | units/wukongim/metrics_collector/collector.go:256-260 | The latency of every answer, failed or not, is observed once, in seconds |
| Collector.CollectorState.ScrapeTick | units/wukongim/metrics_collector/collector.go:164-193 | One tick records one answer per address, up to the first whose record cannot be written, and reports whether any recorded one failed; a tick after the context has ended does nothing |
| Collector.AccountsAddUp | units/wukongim/metrics_collector/collector.go:256-287 | A node's successes and errors add up to its answers |
| Collector.CountersMatchAccounts | units/wukongim/metrics_collector/collector.go:256-287 | The success and error counters emitted for a node add up to its account, and the parse error counter to the unreadable lines of its good answers |
| Collector.Loop | units/wukongim/metrics_collector/collector.go:127-147 | Every tick before the last goes on; the loop gives up for the threshold at a tick if and only if failing is on, that tick failed and was neither unwritable nor ended, and the limit is at most one or the last `limit` ticks all failed; it ends for an unwritable record or an ended context if and only if the last tick was that |
| Collector.StreakIsRun | units/wukongim/metrics_collector/collector.go:136-147 | The streak the loop counts is the longest run of failed ticks at the end |
| Framing.StreamRoundTrip | benchkit/protocol/frame.go:23-69 | Frames written one after the other are read back in order, up to a clean end |
| Framing.ReadsFramed | benchkit/protocol/frame.go:51-69 | A frame is read back whole whatever follows it, or refused exactly when it is over the limit |
| Framing.CutStream | benchkit/protocol/frame.go:51-69 | A stream cut anywhere yields a prefix of its frames and then an end, never a different frame; the end is clean exactly if the cut is between frames or right after a header |
| Framing.CutFrame | benchkit/protocol/frame.go:51-69 | A frame cut short is never a frame: a clean end if nothing or just its header is left, else a truncated one |
| Framing.HeaderRoundTrip | benchkit/protocol/frame.go:31-32 | The four-byte length reads back |
| Framing.FrameWriter.WriteFrame | benchkit/protocol/frame.go:23-40 | Header and payload are appended, or what of them the stream has room for; nothing for a frame that cannot be marshalled or is too long; only a whole frame counts as written |
| Framing.FrameReader.ReadFrame | benchkit/protocol/frame.go:51-69 | Reads one frame, or reports a limit exceeded or the end of the stream |
| Artifacts.TransferIsLossless | sdk/go/wkbench/plugin/server.go:582-629 | For any payloads, the framed chunks are numbered 1 to k, none empty or over 64 KiB, are read within the reader limit, and carry exactly the bytes written |
| Artifacts.Receive | benchkit/pluginhost/stdio_client.go:862-918 | Open, the chunks of the whole framed stream, and Close leave a host file with exactly the bytes of all payloads in order, and report its length |
| Artifacts.WrittenCarriesAll | sdk/go/wkbench/plugin/server.go:582-603 | However the payloads are cut, the chunks are numbered in a row and carry all bytes in order |
| Artifacts.RemoteArtifactWriter.Write | sdk/go/wkbench/plugin/server.go:582-603 | A closed writer sends nothing; an open one sends its chunks in order while the pipe takes them and succeeds exactly if it takes them all; the chunks sent carry exactly the bytes reported as written, and a chunk that cannot be sent uses up its number |
| Artifacts.RunArtifactState.Open | benchkit/pluginhost/stdio_client.go:862-877 | The next handle on an empty file, or nothing |
| Artifacts.RunArtifactState.Write | benchkit/pluginhost/stdio_client.go:879-899 | The file gains what it took; an unknown handle, a failure and a short write are told apart |
| Artifacts.RunArtifactState.WriteChunks | benchkit/pluginhost/stdio_client.go:879-899 | A stream of chunks written without failure leaves exactly its bytes in the file, and their number as its size |
| Artifacts.RunArtifactState.Close | benchkit/pluginhost/stdio_client.go:901-918 | Forgets the handle and reports the number of bytes in the file, unless closing it fails or the handle is unknown |
| Artifacts.RunArtifactState.CloseAll | benchkit/pluginhost/stdio_client.go:920-928 | Every open file is closed once, with what it holds, and no other file is |

## Left out

- Handshake, Validate, Plan and foreground Run requests: they use the same waiters and add no state to background tasks.
- Grace periods and context deadlines: a wait may end at any step; no real-time bound is claimed except the pacing lower bound.
- Frames queued to the Start waiter after StartResponse: the code drops them when Start returns, and the model makes no claim about artifact frames written then.
- Which item of a Done channel becomes the event: when Done sends an error and is then closed, monitor and stop handler may take different items; the event carries whichever is observed first, and `Receipts.TerminalIsSent` says that the task sent it.
- The host task's stopping flag: nothing reads it.
- Request ids when a context has ended before the call: the code returns before taking an id; the model takes one and fails the call, which uses up a number and nothing else.
- The checks that a response carries the request's own id: frames reach a waiter by that id, so they cannot differ.
- A Start whose context ends before its request is written may fail in the model; in the code it fails once it waits.
- Replies of the host to artifact frames: a failed reply is one of the ways in which the environment refuses a frame.
- failAllWaiters and failAllBackgroundTasks in `HostMachine`: unlisting all waiters and failing them is one step; collecting the tasks is one step, each finish is two.
- Process start, kill and wait, real pipes, HTTP: environment choices.
- JSON and protobuf: `SetOutput` and snapshot payloads are uninterpreted; a series key is what its JSON text tells apart; marshalling of chunks is a parameter that can be undone.
- EngineRun.Run: timestamps, artifact results and metrics of unit results are not modelled, and the explain and plan entry points are not; an output set while cleanup is closing others is not considered.
- Traffic.Run: payload generation, client lookup and acknowledgement latencies are inside the result of a send; a run whose environment never answers ends when its tape ends, and says so.
- Traffic.ScheduledStart: the duration is computed in exact arithmetic before it is truncated to a nanosecond.
- MetricStore.RemoteRefinesLocal: percentiles are not compared, as aggregated keys have none; an environment that cannot record snapshots and replays counters instead is not modelled.
- SessionGuarantees.RequestsAreRead: the Serve loop and a waiting artifact call read from one reader without a lock, and may each get part of a frame's bytes; here each frame goes to one of them whole.
- Exposition.ParseLine: reading a number is a parameter; a text it accepts need not be one ParseFloat accepts.
- `group_send`, identity pools, person pairs, assertions, catalog, registry, scenario decoding, reports and scaffolding: easy members that no property here needs.
