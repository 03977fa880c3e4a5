# DAMCREM: a verified model of its allocator, scheduler and simulator

DAMCREM executes jobs on encrypted data.  A job is a directed acyclic graph of
macrotasks; each macrotask may run on several threads, and its measured times
say how long it takes on how many.  The server admits queries, keeps ready
macrotasks in a waiting queue ordered by a schedule method, hands out threads by
an allocate method, and delivers a job when all its macrotasks are finished.  For
evaluation the same executor runs against a simulated clock that jumps from event
to event.

This project models that simulated server from the loaded tables down to the
results, and proves:

- **A whole run.**  Under all four allocate methods and all six schedule methods
  the loop of the server ends, after at most one pass per query and per macrotask,
  and every query then has exactly one complete result (`Servers`, `Passes`).
  This needs a machine with threads, a positive limit on jobs and, under MaxParallel,
  the width of the tables of the applications that arrive; without them the loop
  goes on for ever, and that is proved too (`Servers.OfflineServer.RunFor`).  It also
  needs a client number for every query, see below (`Clients`).  `Simulation.Simulate`
  puts everything together: dependency lists and measured times are loaded, predicted
  and served, and what each part promises is what the next requires.
- **What every step keeps.**  Each ready macrotask is queued exactly once, each
  started one is in execution exactly once, the thread count is the sum over what
  is in execution and never exceeds the machine, dependency sets are what is left
  of the graph's, logged times follow the edges and the tables, ready times are the
  latest finish of the predecessors, and the operands are the outcome of an order that
  respects the graph (`Machine` states it, `Finishing`, `Starting`, `Admitting`,
  `Readiness` and `Steps` prove it, `Executors` refines it into the classes that update
  their fields in place).
- **The schedule does not change the outcome.**  If macrotasks that the graph does
  not order do not touch each other's operands, a delivered job has the operands of
  any serial execution with the scheme and constants of its client, so two servers
  give a client the same answer whatever their methods, width and load (`Operands`,
  `Delivery`, `Determinism`).
- **bits2020 is optimal where it works.**  If the binary search over the merged
  efficiencies looks up no end of a table and its total fits, it has ended at the
  best threshold, and no threshold that fits gives anybody more; for which tables
  that is so whatever waits, is stated exactly (`ExecTimeInfo`, `Thresholds`,
  `Search`, `AllocateMethods`).
- **Predictions.**  Recursive relaxation computes longest paths, the search with a
  visited set sums over exactly the descendants, and in both modes the latest start
  of a macrotask is no earlier than the arrival of its job (`Prediction`,
  `ExecTimeManager`, `Applications`).
- **Interleaved calls of `finish_task`.**  With one atomic step per edge every
  interleaving comes to rest, and then every macrotask has been found ready exactly
  once (`Interleaving`, `Endings`).
- **Round trips** of the string functions and of the wire format of queries, which is
  also laid out byte by byte (`Strings`, `Codec`, `Streams`).

## Findings

- `Job::finish_task` checks for the end of the job under another lock than the
  edges.  With several threads the end can be reported more than once, although a
  macrotask begins only after the call that found it ready has returned:
  `Interleaving.EndReportedTwice` is such a run, `Interleaving.ReportsOfRun` says how
  often for every run.  On graphs without shortcut edges it is reported exactly once in
  every run if and only if every macrotask that is not final has a successor with no
  other predecessor (`Endings.ReportsOnceIff`).  With shortcut edges that is not
  necessary (`Endings.TriangleReportsOnce`): it is enough that the other predecessors
  have resolved their edge to that successor before, which depends on the order of the
  edges (`Endings.FindersReportOnce`); and it fails where each successor of a macrotask
  has another predecessor that does not come before (`Endings.ReportedTwice`).
  The simulator calls `finish_task` from one thread, where the end is reported
  exactly once.
- bits2020 looks up the thresholds of one group in the tables of all others.  With
  speed-ups above the thread count, as in `app/1/app_exec_time_data_dummy.txt`, the
  first threshold it looks up can lie beyond a table, and it then dereferences the
  end: `Search.DummyPastEnd`.  On a machine with four threads or more it stays within
  the tables for every queue and every number of free threads if and only if all
  tables have the same greatest efficiency (`Search.InTablesIff`); that does not keep
  its two asserts, which hold besides if and only if one thread is the most efficient
  count everywhere, or there is but one efficiency to choose (`Search.SoundIff`).
  These are the tables for which a run under bits2020 is proved, on any machine.  With
  three threads, as in `options/1app/1-test.txt`, or two, more tables are safe:
  `SmallMachines.InTablesOnThreeIff`, `SmallMachines.SoundOnThreeIff` and
  `SmallMachines.SoundOnTwoIff` say which, and with two no lookup reaches an end
  (`SmallMachines.InTablesOnTwo`).  `Applications.LoadedIsElastic` says when measured data
  are of the first kind.
- MaxParallel never starts a macrotask that is wider than the machine, nor anything
  behind it in the queue (`Delivery.IdleServes`, `Delivery.TooWideIsNeverDelivered`):
  with such a macrotask among its arrivals the loop does not end
  (`Servers.OfflineServer.RunFor`, `Passes.NeverComesToEnd`).
- Client numbers are dealt from a list per application, whole copies of its clients
  until there are as many as jobs may be executed, and the simulated server puts none
  back.  An application with more queries than that reads an empty list
  (`Clients.EnoughIff`).  The clients, arrivals and limit of
  `options/1app/1-static_analysis.txt`, with two clients, 101 arrivals and one job at a
  time, would do so at the third arrival (`Clients.IdsRunOut`).
- The comment on `max_num_executing_jobs` says that 0 means no limit; with 0, its
  default, no query is ever admitted and the loop does not end
  (`Passes.NobodyIsAdmitted`, `Servers.OfflineServer.RunFor`).

## How it is built

Values of the source are datatypes, objects whose methods update their fields are
classes, and loops are loops.  `std::sort` and `std::priority_queue` are the sorted
sequences and heaps of `Sequences`; which of several equal elements a heap yields
first is left open there, so everything holds for every choice.  Efficiencies are
reals, times and counts are unbounded, and the only place where the width of an
integer decides, the subtraction of the deadline schedules, is modelled modulo 2^64.
The classes carry their history as ghost fields; `JobState.order` is the one record
without a counterpart in the source.  `Example` runs the smallest server, so the
requirements of a run can be met.

`dafny verify dfyconfig.toml` checks the whole project.

## Model

| member | source | states |
|---|---|---|
| Servers.OfflineServer.Start | src/communication/server/offline_server.cpp:10-16 | A whole simulation, from announced queries in any order: where no application has more of them than client numbers, it ends after at most one pass per query and per macrotask; the queries are what was announced, earlier ones first and at one time the smaller application, each under the next client number of its application and with that client's inputs; each has exactly one result, complete, there is no other result, and they were started in that order |
| Servers.OfflineServer.Run | src/communication/server/server.cpp:61-72 | The loop of the server ends under every schedule and allocate method; the passes and the events left over are together exactly the queries and the macrotasks; every arrival is served |
| Servers.OfflineServer.RunFor | src/communication/server/server.cpp:61-72 | The same loop on a server that may be unable to serve its arrivals, for any number of passes: once there have been as many as there are queries and macrotasks, it has ended if and only if there are no arrivals, or the server has threads, a positive limit on jobs and, under MaxParallel, the width of all their tables; otherwise its guard holds after every number of passes, and with a limit of 0 every arrival is still waiting and nothing has been delivered |
| Servers.OfflineServer.Pass | src/communication/server/server.cpp:64-70 | On any server one pass takes one event out, if there is one, and puts in exactly one for every macrotask started; the invariant between passes is kept |
| Servers.OfflineServer.Settle | src/communication/server/server.cpp:65-67 | The clock moves to the earliest event, if there is one, everything finished by then is processed, and exactly the jobs that ended get a result; nothing is started |
| Servers.OfflineServer.Admit | src/communication/server/server.cpp:68 | Arrivals that are due become jobs in their order until as many are in execution as may be; afterwards a due arrival waits only if that limit is reached |
| Servers.OfflineServer.Dispatch | src/communication/server/server.cpp:69 | Macrotasks are started, one event for each, and afterwards something is in execution if anything waits, on a server that can serve its arrivals |
| Servers.OfflineServer.InitOfflineQueue | src/communication/server/offline_server.cpp:33-70 | The queue holds what was announced, earlier queries first and at one time the smaller application; the client numbers are laid out, and the pending events are exactly the times |
| Servers.OfflineServer.LayOutClientIds | src/communication/server/offline_server.cpp:42-58 | Every application gets its client numbers, the whole list repeated until there are as many as jobs may be executed |
| Clients.FilledUpIs | src/communication/server/offline_server.cpp:55-57 | These are whole copies of the list, as few as reach the limit |
| Servers.OfflineServer.GetClientId | src/communication/server/offline_server.h:28-32 | The first client number of the application is dealt and gone, the others are left as they are |
| Clients.AssignedInTurn | src/communication/server/offline_server.cpp:83-92 | The i-th query gets the client number that is as far down the list of its application as there are queries of the application before it, and the inputs of that client |
| Clients.AssignedDeals | src/communication/server/offline_server.cpp:33-92 | The arrivals are a rearrangement of what was announced, by time and then by application, and the clients of each application take turns, round and round |
| Clients.EnoughIff | src/communication/server/offline_server.cpp:83-92 | No query finds an empty list of client numbers, if and only if no application has more queries than it has numbers, whatever their order |
| Clients.IdsRunOut | src/communication/server/offline_server.cpp:55-57 | With no more jobs executed at a time than there are clients, an application with more queries than clients runs out of numbers |
| Servers.OfflineServer.GetQueries | src/communication/server/offline_server.cpp:18-24 | Exactly the first due arrivals, at most `n`, become queries with consecutive query and job numbers, started now; it stops only at the limit, at the end, or at an arrival that is not due |
| Servers.OfflineServer.ReceiveQuery | src/communication/server/offline_server.cpp:83-92 | The front of the queue leaves it and becomes the next query of the receiver, with the next client number of its application, the inputs of that client and fresh numbers |
| Servers.OfflineServer.constructor | src/communication/server/server.cpp:10-22 | A new server meets every requirement that `Start` has of its state |
| Exchange.QueryReceiver.GetQueries | src/query_receiver.cpp:5-20 | First come, first served: a prefix of the queue of length min(n, size) leaves, each query only with its start time set; the rest stays in order |
| Exchange.QueryReceiver.AddQuery | src/query_receiver.cpp:33-38 | The query joins the end of the queue with a job number never given before |
| Exchange.ResultSender.AddResult | src/result_sender.cpp:14-27 | The result is filed under its application, client and query, or queued, and nothing else changes |
| Exchange.ResultSender.GetResult | src/result_sender.cpp:29-43 | A result is handed out at most once |
| Passes.EventPending | src/communication/server/server.cpp:64-65 | On a server that can serve its arrivals, in every state between passes, if anything waits, is in execution or is to come, the event queue is not empty, so the clock can move |
| Passes.TickKeepsEvents | src/time_manager_simulator.h:17-23 | Moving to the earliest event never goes back in time and keeps the pending events after now equal to the ends in execution plus the arrivals to come |
| Passes.DrainKeepsEvents | src/executor.cpp:81 | Taking out exactly what is finished by now keeps that equality |
| Passes.LaunchKeepsEvents | src/executor.cpp:115-123 | Starting macrotasks with one announced end each keeps that equality |
| Passes.ReceiveKeepsEvents | src/communication/server/offline_server.cpp:20-22 | Receiving due arrivals keeps that equality |
| Passes.ServesSomebody | src/executor.cpp:105-107 | On a machine with threads, under MaxParallel one as wide as the tables of the arriving applications, handing out threads never leaves an idle executor with something waiting |
| Passes.HandOverServes | src/communication/server/server.cpp:66-67 | Results stay exactly the admitted queries that are no longer in execution, each complete and under its own key |
| Passes.ArrivalsAreAdmitted | src/executor.cpp:40-52 | The admitted queries stay exactly the first arrivals, each under its own job number with its own inputs |
| Passes.ArrivalsInOrderOfStart | src/query_receiver.cpp:5-20 | In every state the queries admitted were started in the order of their arrival |
| Passes.HandOverKeepsStarts | src/executor.cpp:93-98 | Results keep the start of their query |
| Passes.ArrivalsAreInExecution | src/executor.h:30 | Every new job counts once towards the limit, and no earlier result is lost |
| Passes.StartedAreTasks | src/executor.cpp:112-114 | In every state the macrotasks started are among those of the arrivals, so that the measure of the run does not go below zero |
| Passes.EndServesAll | src/communication/server/server.cpp:64-71 | With nothing to come and all queues empty no job is in execution, every macrotask of every arrival has been started, and every arrival has its result |
| Passes.NobodyIsAdmitted | src/executor.h:30 | With a limit of 0 jobs no query has been admitted in any state between or within passes, and there is no result |
| Passes.NeverComesToEnd | src/communication/server/server.cpp:64 | Where nothing is to come and all queues are empty, the server can serve its arrivals: it has threads, a positive limit and, under MaxParallel, their widths; so for any other the guard of the loop holds for ever |
| Clock.TimeManagerSimulator.UpdateTime | src/time_manager_simulator.h:17-23 | The clock goes to a minimum of the pending events and takes exactly that one out; without events nothing changes |
| Clock.TimeManagerSimulator.PushNextEventOccuringTime | src/time_manager_simulator.h:25 | The pending events gain exactly this one |
| Executors.Executor.Init | src/executor.cpp:4-10 | An empty executor satisfies the whole invariant |
| Executors.Executor.UpdateExecutingJobs | src/executor.cpp:76-102 | Exactly the entries finished by now leave execution, earliest first; the jobs returned are exactly those that left, each once, complete; the whole invariant is kept at every entry |
| Executors.Executor.UpdateQueries | src/executor.cpp:39-52 | Exactly these queries are admitted, with their deadlines set, each as a new job; nothing is started; the whole invariant is kept |
| Executors.Executor.ExecuteTasks | src/executor.cpp:104-126 | Threads are handed out as the configured allocate method does, and exactly the macrotasks served are started, in the order of the schedule, with one event at the end of each; the whole invariant is kept |
| Executors.Executor.ProcessFinished | src/executor.cpp:83-98 | Threads given back, dependencies resolved, newly ready macrotasks queued with the finish time, and the job taken out exactly when its last final macrotask is finished; no other job changes |
| Executors.Executor.AdmitQuery | src/executor.cpp:42-49 | A job is filed under its number with macrotask 0 finished now, and exactly the macrotasks that then depend on nothing are queued with the query's start time |
| Executors.Executor.ExecuteNext | src/executor.cpp:107-124 | The head of the next queue gets its threads, is executed on its job alone, and will be finished after its table's time for these threads |
| Executors.Executor.Allocate | src/executor.cpp:106 | What waits is, by the invariant, something the allocate methods can work with; handing out keeps the invariant |
| Jobs.Job.constructor | src/job.cpp:4-21 | A copy of the graph's dependencies and final macrotasks, an empty log, a deadline, and as operands each input of the query at its own index and blank variables behind them |
| Jobs.Job.SetDeadline | src/job.cpp:23-28 | A missing deadline becomes the time of arrival plus the predicted time; a given one is kept |
| Machine.LaidOut | src/operand_data.h:44-56 | These operands are the only ones so laid out |
| Machine.InputsAreRead | src/operand_data.h:17-20 | An operation that names the i-th index behind the constants of the application reads the i-th input of the query |
| Machine.OutcomeOfInputs | src/job.cpp:30-36 | What a job computes starts from its inputs so laid out, with the scheme and the constants of the client who sent the query |
| Jobs.Job.Execute | src/job.cpp:30-36 | The start time is logged and the operations of the macrotask are applied to the operands in their order |
| Jobs.Job.FinishTask | src/job.cpp:38-58 | The loop over the edges erases the macrotask from exactly its successors' dependencies and returns exactly the successors left without any; the end is reported exactly when no final macrotask is left; the finish time is logged |
| Steps.FinishStep | src/executor.cpp:83-98 | Processing the earliest finished entry keeps the whole invariant |
| Steps.StartStep | src/executor.cpp:107-124 | Starting a macrotask with threads keeps the whole invariant |
| Steps.AdmitStep | src/executor.cpp:42-49 | Admitting a query keeps the whole invariant |
| Steps.AllocateStep | src/executor.cpp:106 | Handing out threads keeps the whole invariant |
| Steps.Tick | src/time_manager_simulator.h:17-23 | Moving the clock forward keeps the whole invariant |
| Delivery.DeliveryIsComplete | src/executor.cpp:93-98 | A job that is taken out has every macrotask executed once, after its predecessors and in the order of the logged starts; its finish time is the greatest logged finish, and macrotask 0 was finished when it was started; each finish is its start plus its table's time for a thread count that the allocate method hands out: 1 under Single and Minimum, the table's width under MaxParallel, 1 or that of a candidate under bits2020; along every edge the finish is no later than the next start; arrival, start, every log entry and delivery are in order |
| Delivery.JobHasWork | src/executor.h:24 | While a job is in execution one of its macrotasks waits, has threads or is executed, so emptiness of the queues means that no job is left |
| Delivery.IdleServes | src/allocate_method/max_parallel.cpp:6-19 | An idle executor with something waiting serves nobody if and only if the method is MaxParallel and the head of the queue is wider than the machine |
| Delivery.TooWideIsNeverDelivered | src/allocate_method/max_parallel.cpp:12-14 | Under MaxParallel a job with a macrotask wider than the machine is still in execution in every state that satisfies the invariant: such a query is never answered |
| Delivery.DependenciesFirstRespects | src/job.cpp:41-47 | Executing only what depends on nothing puts every macrotask after all that lies before it in the graph |
| Delivery.DeliveredIsSerial | src/job.cpp:30-36 | The operands of a delivered job are those of executing its macrotasks one after the other in any topological order from the inputs of its query with the scheme and the constants of its client, if macrotasks that the graph does not order do not touch each other's operands |
| Determinism.SameQuerySameOperands | src/job.h:90 | Two servers with the same applications give the same operands for the same inputs of one client, or of two with the same scheme and constants, whatever their schedule and allocate methods, width, limit on jobs and other queries, if macrotasks that the graph does not order do not touch each other's operands |
| Finishing.SolvedBecomeReady | src/job.cpp:41-47 | The successors returned are exactly the macrotasks that become ready by this finish |
| Finishing.EndIsExact | src/job.cpp:49-57 | The set of final macrotasks is empty if and only if every macrotask of the job is finished |
| Finishing.StillInFlight | src/executor.cpp:93-98 | Whatever is still in execution belongs to a job that is not finished, so no entry refers to an erased job |
| Finishing.FinishKeepsWaiting | src/executor.cpp:89-91 | Every ready macrotask that is not started is queued exactly once, and nothing else is |
| Finishing.FinishKeepsFlight | src/executor.cpp:83-84 | Every macrotask started and not finished is in execution exactly once, and nothing else is |
| Finishing.FinishKeepsAccount | src/executor.cpp:86 | The thread count stays the sum over what is in execution, so giving threads back does not wrap |
| Finishing.FinishKeepsDependencies | src/job.cpp:41-57 | Dependency and final sets stay what is left of the graph's when finished macrotasks are removed |
| Finishing.FinishKeepsLogs | src/job.h:51-55 | Logged times keep following the edges and the tables |
| Finishing.FinishKeepsFinish | src/executor.cpp:83-87 | Taking the earliest first keeps every announced finish time equal to the logged start plus the table's time, and no earlier than anything finished |
| Readiness.SolvedSince | src/executor.cpp:89-91 | What becomes ready is queued with the greatest logged finish of its predecessors |
| Readiness.FinishKeepsReady | src/executor.cpp:83-98 | In every state the ready time of whatever waits, by which three of the schedules go, is the greatest logged finish of its predecessors |
| Readiness.AdmitKeepsReady | src/executor.cpp:48-49 | For what waits for macrotask 0 only it is the start of the query |
| Starting.NextIsReady | src/executor.cpp:107-112 | What has threads is ready and was never started |
| Starting.StartKeepsWaiting | src/executor.cpp:112 | A started macrotask is queued nowhere any more, all other ready ones still exactly once |
| Starting.StartKeepsFlight | src/executor.cpp:123 | A started macrotask is in execution exactly once |
| Starting.StartKeepsAccount | src/executor.cpp:110 | The thread count stays the sum over what is in execution, and with what is to be started within the machine |
| Starting.StartKeepsLogs | src/job.cpp:30-31 | A start is logged no earlier than the finish of every predecessor |
| Starting.StartKeepsFinish | src/executor.cpp:115-120 | The new entry will be finished at its start plus its table's time, and no later finish is overtaken |
| Starting.StartKeepsStarts | src/job.cpp:30-31 | Macrotasks stay recorded in the order of their logged starts |
| Starting.StartKeepsOrders | src/job.cpp:30-36 | The operands stay the outcome of the macrotasks started, in an order that respects the graph |
| Starting.StartKeepsWidth | src/allocate_method/max_parallel.cpp:11-16 | Under MaxParallel nothing wider than the machine is ever started |
| Admitting.FirstReady | src/executor.cpp:48-49 | Finishing macrotask 0 of a new job yields exactly its ready macrotasks |
| Admitting.AdmitKeepsWaiting | src/executor.cpp:48-49 | After admission every ready macrotask that is not started is queued exactly once |
| Admitting.AdmitKeepsJobs | src/executor.cpp:45-48 | A new job is in execution exactly because it is not finished, with dependencies in step with the graph |
| Admitting.AllocateKeepsWaiting | src/executor.cpp:106 | Handing out threads loses and duplicates no macrotask |
| Queues.MacrotaskQueue.WaitingQueueTop | src/macrotask_queue.h:17 | The top is one that no waiting macrotask is to be taken out before |
| Queues.MacrotaskQueue.WaitingQueueEmplace | src/macrotask_queue.h:54-56 | The waiting macrotasks gain exactly this one, and the heap stays one |
| Queues.MacrotaskQueue.WaitingQueuePopFront | src/macrotask_queue.h:58-59 | Exactly the top leaves |
| Queues.MacrotaskQueue.ExecutingQueueSimulatorEmplace | src/macrotask_queue.h:97-101 | The executing macrotasks gain exactly this one |
| Queues.MacrotaskQueue.ExecutingQueueSimulatorFinishedEmt | src/macrotask_queue.cpp:24-31 | The loop takes out exactly the entries finished by the given time, in the order of finish time and schedule, and leaves the others |
| Queues.MacrotaskQueue.ExecNextQueuePopFrontMove | src/macrotask_queue.h:68-73 | The front leaves, the rest keeps its order |
| Queues.MacrotaskQueue.Clear | src/macrotask_queue.h:42-49 | All queues are empty |
| AllocateMethods.Single | src/allocate_method/single.cpp:5-17 | As many of the first in the queue as there are free threads get one each; nobody is lost or passed over |
| AllocateMethods.Minimum | src/allocate_method/minimum.cpp:5-20 | The same outcome as Single, by a check per macrotask |
| AllocateMethods.MaxParallel | src/allocate_method/max_parallel.cpp:5-21 | Everybody served gets the full width, within the free threads and in queue order, and the first who does not fit stops all behind |
| AllocateMethods.Bits2020 | src/allocate_method/bits2020.cpp:5-85 | On tables of any kind: with no more free threads than waiting macrotasks one thread each; otherwise it fails, at the end of a table or at an assert, exactly if the search over the thresholds of its queue is not sound, and if it does not fail the whole queue is served within the free threads, everybody with a width valid in its own table: at the best common threshold where there are two thresholds or more, with one thread each where there are not |
| AllocateMethods.ShareOut | src/allocate_method/bits2020.cpp:5-85 | With tables of any kind: it fails only where the search over the thresholds of its queue does, and otherwise serves the queue as described |
| AllocateMethods.WorkableCanShare | src/allocate_method/bits2020.cpp:55-80 | With workable tables it never fails |
| AllocateMethods.CalculateAllocatedComputationalResource | src/executor.h:41-45 | Whichever method is configured, on tables of any kind, nobody is lost, duplicated or passed over, those served are in the order of the schedule, the free threads suffice, and the outcome is that of the method; only bits2020 can fail, where its search does |
| AllocateMethods.GivenAsAllotted | src/executor.h:41-45 | Whoever is served gets a thread count of the method: 1 under Single and Minimum, the full width under MaxParallel, 1 or that of a candidate under bits2020 |
| AllocateMethods.DrainWaiting | src/allocate_method/bits2020.cpp:21-25 | The waiting heap is emptied into a list with the same macrotasks in the order of the schedule, so that the next queue keeps it |
| AllocateMethods.Allot | src/allocate_method/bits2020.cpp:74-82 | Every queued macrotask gets exactly the width noted for its group |
| AllocateMethods.ChosenFits | src/allocate_method/bits2020.cpp:74-80 | At the best threshold the widths handed out sum to no more than the free threads, and everybody gets at least one thread and at most its table's width |
| AllocateMethods.TotalOfChosen | src/allocate_method/bits2020.cpp:50-60 | The threads handed to single macrotasks sum to the total computed from the histogram |
| Thresholds.TotalStrictlyIncreases | src/allocate_method/bits2020.cpp:46-57 | The total is strictly increasing in the index of the descending list of distinct efficiencies, from the first one on at which no lookup reaches the end of a table |
| Thresholds.BestIsOptimal | src/allocate_method/bits2020.cpp:62-71 | No efficiency at all, listed or not, at which every lookup finds a candidate and whose total fits, gives any macrotask more threads |
| Thresholds.CountTotalNumThreads | src/allocate_method/bits2020.cpp:50-60 | The sum of count times width over the histogram is the sum of the widths of the single macrotasks, and every group is given its width; or some macrotask of the queue has no candidate at the threshold, and then a lookup yields the end of its table |
| Thresholds.CountedTogether | src/allocate_method/bits2020.cpp:27-44 | The histogram counts macrotasks together exactly if they belong to one group of one application |
| Thresholds.Collect | src/allocate_method/bits2020.cpp:27-47 | The histogram counts every macrotask of the queue under its application and group, and the thresholds are exactly the efficiencies of these groups, descending, each once |
| Thresholds.FirstThresholdIsOne | src/allocate_method/bits2020.cpp:46-47 | The list starts with efficiency 1, where everybody gets one thread |
| Search.SearchThreshold | src/allocate_method/bits2020.cpp:45-72 | The binary search with its early exit and its recount, on tables of any kind: it reaches the end of a table exactly if one of the thresholds it looks up, which `Search.Probes` lists, lies beyond one; otherwise `total_num_threads` and the widths are those of the threshold where it ends, or nothing is computed if there are less than two |
| Search.EndIsLast | src/allocate_method/bits2020.cpp:62-71 | It ends at the last threshold whose total fits, or at the first of all |
| Search.SoundIsBest | src/allocate_method/bits2020.cpp:62-72 | If no lookup reaches an end and the total fits at the assert in line 72, the search has ended at the best threshold |
| Search.ElasticIsSound | src/allocate_method/bits2020.cpp:55-80 | Where one thread is the most efficient count of every table, no lookup reaches an end and the total left at line 72 fits |
| Search.InTablesIff | src/allocate_method/bits2020.cpp:55 | On a machine with four threads or more, for every queue and every number of free threads the search stays within the tables, if and only if all tables have the same greatest efficiency |
| Search.SoundIff | src/allocate_method/bits2020.cpp:55-80 | On such a machine, for every queue and every number of free threads both asserts hold besides, if and only if one thread is the most efficient count of every table, or every table has one candidate only, all of the same efficiency |
| SmallMachines.InTablesOnTwo | src/allocate_method/bits2020.cpp:55 | On a machine with two threads or less the search always stays within the tables |
| SmallMachines.SoundOnTwoIff | src/allocate_method/bits2020.cpp:55-80 | With two threads both asserts always hold, if and only if no table with more than one candidate asks for more than two threads at its most efficient |
| SmallMachines.InTablesOnThreeIff | src/allocate_method/bits2020.cpp:55 | With three threads the search always stays within the tables, if and only if for any two tables with different tops the two widths at the lower top are together 3, and halving the number of thresholds comes to its index |
| SmallMachines.SoundOnThreeIff | src/allocate_method/bits2020.cpp:55-80 | With three threads both asserts always hold, if and only if any two tables, one and the same among them, fit together: with equal tops there is no choice or the two most efficient counts are at most 3, with different ones the greater top is the only candidate and the two counts are exactly 3 |
| Search.DummyPastEnd | src/allocate_method/bits2020.cpp:55 | With the measured times shipped for macrotasks 1 and 3 of application 1 and a lower bound of at most 0.9, at least one of each in the queue and nobody else, the search looks up the efficiency of 5434/2828 first, the third of five, and reaches the end of the table of macrotask 1, whatever the number of free threads |
| ExecTimeInfo.MacrotaskExecTimeInfo.Init | src/application/macrotask_exec_time_info.cpp:14-45 | The candidates are exactly the efficient thread counts that no larger one equals or beats, ascending in efficiency and descending in threads; the table is cut after the largest efficient count; it fails exactly when the time for prediction does not exist |
| ExecTimeInfo.MacrotaskExecTimeInfo.SetDeadline | src/application/macrotask_exec_time_info.h:37-40 | The predicted distance to the deadline follows the deadline |
| ExecTimeInfo.MakeCandidates | src/application/macrotask_exec_time_info.cpp:22-34 | Sorting, cutting and dropping dominated entries yields exactly the frontier, and the largest thread count seen is the widest efficient one |
| ExecTimeInfo.RemoveDominated | src/application/macrotask_exec_time_info.cpp:31-33 | The stateful removal keeps exactly the entries that no entry before them with more threads dominates |
| ExecTimeInfo.PartitionPoint | src/application/macrotask_exec_time_info.cpp:28-30 | The cut separates the efficient from the others |
| ExecTimeInfo.ChosenIsWidest | src/application/macrotask_exec_time_info.h:30-33 | The lookup finds an entry if and only if some thread count is efficient enough, and then the largest such count of the measured table |
| ExecTimeInfo.OneThreadTopIff | src/application/macrotask_exec_time_info.cpp:22-34 | One thread at efficiency 1 is the last candidate if and only if the lower bound is at most 1 and every other thread count is less efficient than one thread |
| Prediction.CriticalPath | src/application/macrotask_exec_time_info_manager.cpp:55-61 | The recursive relaxation ends, and for every macrotask the cost is the greatest total predicted time over all paths from behind it to a final macrotask |
| Prediction.Relax | src/application/macrotask_exec_time_info_manager.cpp:44-53 | One call only raises costs, never above the true longest path, settles the edges into its macrotask and unsettles no other |
| Prediction.LongestExists | src/application/macrotask_exec_time_info_manager.cpp:44-61 | On an acyclic graph every macrotask has such a greatest total |
| Prediction.SumBehind | src/application/macrotask_exec_time_info_manager.cpp:34-41 | The search with a visited set ends even on cyclic graphs, visits exactly what lies behind the start list and was not visited before, and sums each once |
| Prediction.DescendantSum | src/application/macrotask_exec_time_info_manager.cpp:63-66 | The sum of the predicted times of exactly the macrotasks behind the given one |
| Prediction.DescendantsBoundPath | src/application/macrotask_exec_time_info_manager.cpp:55-68 | On an acyclic graph that sum is at least the longest-path cost |
| ExecTimeManager.MacrotaskExecTimeInfoManager.Predict | src/application/macrotask_exec_time_info_manager.cpp:26-68 | The totals are the sum of all predicted times and the critical path or that sum; each group keeps the cost of its last member as its deadline |
| ExecTimeManager.MacrotaskExecTimeInfoManager.SetDeadlines | src/application/macrotask_exec_time_info_manager.cpp:60 | With shared tables the last member of a group decides |
| ExecTimeManager.LoadTables | src/application/macrotask_exec_time_info_manager.cpp:16-31 | Loading fails exactly when a table names no macrotask or cannot be computed; otherwise the members of a group share one table and different groups have different ones |
| ExecTimeManager.PredictionFits | src/application/macrotask_exec_time_info_manager.cpp:55-68 | In both modes a macrotask's own time plus its cost is at most the total of the job |
| ExecTimeManager.LatestStartFits | src/application/macrotask_exec_time_info_manager.cpp:55-68 | The same for the stored prediction of every macrotask, although groups share tables |
| Applications.LoadedIsWellFormed | src/application/macrotask_exec_time_info_manager.cpp:16-31 | Loaded tables with some efficient width in each group are what the executor requires |
| Applications.LoadedIsMeasured | src/application/macrotask_exec_time_info_manager.cpp:16-31 | Each loaded table is what was measured for its group, up to the widest count that is efficient enough, and its candidates are the best of that |
| Applications.PredictedIsOfTables | src/application/macrotask_exec_time_info_manager.cpp:26-68 | The total and every stored prediction are the longest path or the descendant sum over the times that the loaded tables hold for one thread or for the full width, for a group those of its last member |
| Applications.LoadedIsResizable | src/application/macrotask_exec_time_info.cpp:16-36 | Loaded tables have candidates, none behind its table, and are what the conditions on the search suppose: one thread has efficiency 1 and some count is no less efficient |
| Applications.LoadedIsElastic | src/application/macrotask_exec_time_info.cpp:16-36 | One thread is the most efficient count of all loaded tables if and only if the lower bound is at most 1 and more threads always cost more thread time |
| Applications.PredictedIsTimely | src/application/macrotask_exec_time_info_manager.cpp:55-68 | After prediction no macrotask is predicted to be longer before the end than the whole job takes |
| Applications.LatestStartDoesNotWrap | src/schedule_method/deadline.cpp:4-16 | For a job that came without a deadline the unsigned subtraction does not wrap, and the latest start is no earlier than the arrival |
| Applications.WaitingIsInTime | src/schedule_method/deadline.cpp:4-16 | In every state of a run every waiting macrotask has a latest start no earlier than the arrival of its job, and the subtraction does not wrap, unless arrival and prediction together exceed the 64 bits |
| Applications.WaitingGoesByLatestStart | src/schedule_method/deadline.cpp:4-16 | So in every state of a run the deadline schedule orders the waiting queue by latest start |
| Simulation.LoadApplication | src/application/application.h:15-25 | From the dependency lists and measured times of one application: it fails exactly where a successor or a table belongs to no macrotask; otherwise its tables are what was measured, its predictions are those of the tables in the mode asked for, everything else is as read, and it meets every requirement of the executor, of bits2020 where its data are sublinear, and of the deadline schedules |
| Simulation.NarrowFits | src/allocate_method/max_parallel.cpp:12-14 | The tables are as wide as the largest efficient count, so files without an efficient count above the machine's threads give tables that MaxParallel can serve |
| Simulation.LoadAll | src/application/application_list.h:8-14 | All applications are made so, and no others; it fails exactly where one of them does |
| Simulation.Simulate | example/server/simulation_evaluation.cpp:27-28 | From files, options and announced queries to the results: it fails exactly where loading does, and otherwise every query announced, in order and with its client and inputs, has its result, complete, from a server as the options say |
| Graphs.Build | src/application/macrotask_graph.cpp:24-35 | Predecessor sets and final set are exactly those of the successor lists; it fails if and only if some successor is no macrotask |
| Graphs.FinalsImplyAll | src/job.cpp:49-57 | Closed under predecessors and holding every final macrotask means holding all |
| Graphs.ReadyExists | src/job.cpp:41-47 | In an acyclic graph some unfinished macrotask has all its predecessors finished |
| Operands.OrderIrrelevant | src/scheme.h:77-111 | Two orders of the same macrotasks that respect the graph leave the same operands, if unordered macrotasks do not touch each other's operands |
| Operands.DisjointCommute | src/scheme.h:77-111 | Two operations that do not touch each other's target commute, also where they throw |
| Operands.ExecuteFrame | src/operand_data.h:26-28 | An operation changes at most its target |
| Operands.ExecuteLocal | src/operand_data.h:17-28 | What an operation does depends only on the operands it touches |
| Operands.ExecuteByCode | src/scheme.h:77-111 | For each of the fifteen codes which operand is written, with which as source, constants first in the numbering, and that nothing else changes or that it throws |
| Operands.ConstantsByClient | src/application/operand_data_const.h:20-24 | Constants are those of the client, or of client 0 for a client without its own, and of nobody else |
| Tasks.SchemeByClient | src/application/application.h:49 | Keys go by application and client; without one every operation throws |
| Operands.ClientsDiffer | src/application/operand_data_const.h:20-24 | Constants are looked up by client: one operation on equal operands leaves two clients different operands |
| Tasks.WhatIsCompared | src/schedule_method/deadline_deadline.cpp:4-22 | What each of the six schedules compares, in terms of the ready times, arrivals and deadlines that the entries hold and the predictions that the tables hold; who is compared earlier is taken out earlier, and entries in execution go by finish time first |
| Tasks.OrderIsLexicographic | src/schedule_method/fifo_fifo.cpp:5-21 | For all six schedule methods the two operators mirror each other and are the lexicographic order of a pair of numbers |
| Tasks.OrdersAreStrictWeak | src/macrotask_queue.h:17-34 | Both comparisons given to priority queues are strict weak orders |
| Tasks.DeadlineGoesByLatestStart | src/schedule_method/deadline.cpp:4-16 | Where the stored predictions do not exceed deadlines the wrapped comparison is that of deadline minus prediction |
| Interleaving.StepKeeps | src/job.cpp:38-58 | Each atomic step of any number of interleaved calls keeps the invariant |
| Interleaving.EmittedAfterPredecessors | src/job.cpp:41-47 | In every interleaving a macrotask is found ready only after all its predecessors have erased themselves |
| Interleaving.QuietIsComplete | src/job.cpp:38-58 | An interleaving that has begun and cannot go on has finished every macrotask, each found ready by exactly one call, and left no final macrotask |
| Alone.CallIsFinishTask | src/job.cpp:38-58 | A call that nothing interrupts does, step by step, what the method does: the same dependencies, final set, successors found ready and report of the end |
| Endings.RunIsBounded | src/job.cpp:38-58 | Every step of an interleaving makes progress: there are at most two and one for each edge per macrotask |
| Endings.ComesToRest | src/job.cpp:38-58 | Every interleaving can be continued to a complete one |
| Interleaving.ReportsOfRun | src/job.cpp:49-57 | With interleaved calls the end of the job is reported once, plus once by every call that was still between its edges and its return when the last final macrotask was taken; exactly once if and only if there was none |
| Interleaving.EndHappens | src/job.cpp:49-57 | In every complete interleaving there is a step that takes the last final macrotask |
| Interleaving.EndReportedTwice | src/job.cpp:49-57 | An interleaving of four macrotasks, each begun only after the call that found it ready had returned, that reports the end twice |
| Endings.FindersReportOnce | src/job.cpp:49-57 | On every graph, shortcut edges or not: if every macrotask that is not final has a successor whose other predecessors have all resolved their edge to it before that macrotask can begin, the end is reported exactly once in every complete interleaving |
| Endings.ReportedTwice | src/job.cpp:49-57 | On every graph: if some macrotask that is not final shares each of its successors with a macrotask that does not come before it, there is a complete interleaving that reports the end twice |
| Endings.TriangleReportsOnce | src/job.cpp:49-57 | A graph with a shortcut edge that reports the end exactly once, although a macrotask that is not final has no successor of its own |
| Endings.ReportsOnceIff | src/job.cpp:49-57 | On graphs without shortcut edges the end is reported exactly once in every complete interleaving if and only if every macrotask that is not final has a successor with no other predecessor |
| Strings.SplitStr | src/util/string.h:38-58 | The scan cuts at the leftmost non-overlapping occurrences; an empty delimiter throws exactly when the string is not empty |
| Strings.Strip | src/util/string.h:60-68 | Exactly the spaces at both ends go |
| Strings.JoinStr | src/util/string.h:82-88 | The pieces with the delimiter between them |
| Strings.ReplaceStr | src/util/string.h:90-92 | Splitting at the one word and joining with the other |
| Strings.JoinOfSplit | src/util/string.h:38-88 | Joining what was split gives the string back, for every string and delimiter |
| Strings.NoPieceContains | src/util/string.h:45-57 | No piece contains the delimiter |
| Strings.SplitOfJoin | src/util/string.h:38-88 | Splitting what was joined gives the pieces back if and only if there are none, or they are not just one empty piece, no delimiter is found in the last and none before the end of any other followed by the delimiter |
| Strings.OneCharacter | src/util/string.h:38-88 | For a delimiter of one character that means that no piece contains it |
| Strings.ReplaceBack | src/util/string.h:90-92 | A replacement is undone by replacing back, if the new word cannot be taken for something else |
| Codec.QueryRoundTrip | src/communication/data/query_c2s.h:39-85 | Reading what was written for a query, followed by anything, gives the query and leaves exactly what follows |
| Codec.PlainRoundTrip | src/scheme/dummy.h:56-118 | The same for a plaintext of every level and ring dimension |
| Codec.CipherRoundTrip | src/scheme/dummy.h:72-133 | The same for a ciphertext of every length, level and ring dimension |
| Codec.WordBytes | src/util/stream.h:96-119 | The eight bytes of a word, least significant first |
| Codec.PlainLayout | src/scheme/dummy.h:108-118 | The level of a plaintext, then word j of row i at its own offset |
| Codec.CipherLayout | src/scheme/dummy.h:120-133 | Length and level of a ciphertext, then polynomial k at its own offset |
| Codec.QueryLayout | src/communication/data/query_c2s.h:71-85 | Application, client and query number, the number of plaintexts and these one behind the other, the number of ciphertexts and these |
| Codec.WordRoundTrip | src/util/stream.h:96-119 | The same for a 64-bit word, least significant byte first |
| Streams.SendAndReceive | src/communication/data/query_c2s.h:39-85 | The two directions of the stream code put together |
| Streams.OutStream.WriteQuery | src/communication/data/query_c2s.h:71-85 | A well-shaped query is written as its encoding, after what is already there |
| Streams.OutStream.SavePlaintext | src/scheme/dummy.h:108-118 | The nested loops write the encoding of a well-shaped plaintext; they throw exactly when data is missing |
| Streams.OutStream.SaveCiphertext | src/scheme/dummy.h:120-133 | The same for a ciphertext |
| Streams.InStream.ReadQuery | src/communication/data/query_c2s.h:39-53 | The reads return what the decoding of the stream is, and leave the bytes behind it |
| Streams.InStream.LoadPlaintext | src/scheme/dummy.h:56-70 | The nested loops return the decoding of a plaintext |
| Streams.InStream.LoadCiphertext | src/scheme/dummy.h:72-90 | The same for a ciphertext |

## Left out

- Streams.InStream.ReadQuery: a stream that ends too early gives no query here; the code does not look at the state of the stream after a read and goes on with whatever the variables hold.
- Streams.InStream.LoadPlaintext: the same for a plaintext, where the code returns true.
- Streams.InStream.LoadCiphertext: the same for a ciphertext.
- Streams.OutStream.WriteQuery: where `at` throws, what has been written before is not stated.
- Streams.OutStream.SavePlaintext: what is written of data that is larger than its shape, or before `at` throws, is not stated.
- Streams.OutStream.SaveCiphertext: the same for a ciphertext.
- Jobs.Job.Execute: an operation that throws leaves the job without operands and the run goes on, so that the claims about the run hold for every outcome; in the code the exception leaves the server's loop.
- Clock.TimeManagerSimulator.UpdateTime: the time before the first event is 0; in the code the variable is not initialised, and it is not read before the first event.
- AllocateMethods.Bits2020: where a lookup yields the end of a table, or an assert fails, it gives no grant here; what the code reads behind the end is undefined, and without asserts it goes on with more threads than are free.
- ExecTimeInfo.MacrotaskExecTimeInfo.Init: requires measured times above 0; with a time of 0 the code divides by zero, and its efficiencies are infinite or not numbers.
- Operands.OrderIrrelevant: what an operation computes is an uninterpreted function of its operands; the number of threads is not an argument of it. The homomorphic arithmetic of the dummy scheme, where `mul` overwrites and `sub` of a plaintext adds, is not modelled.
- Servers.OfflineServer.Start: takes the times of arrival and the inputs of the clients as they are read from files. Where a query would find no client number left, the deque of the source is read empty, which is undefined, so a run is stated for enough of them only. Numbers are never given back, because the loop files results without `OfflineServer::add_result`.
- Servers.OfflineServer.LayOutClientIds: requires that no list of clients is empty; with an empty list and a positive limit the loop of the source does not end.
- Endings.FindersReportOnce: between it and `Endings.ReportedTwice` there are graphs with shortcut edges for which neither says how often the end is reported.
- Simulation.Simulate: under bits2020 it requires sublinear data, with which one thread is the most efficient count; the other tables with which bits2020 works are left to `Servers.OfflineServer.Start`.
- Executors.Executor.UpdateExecutingJobs: the version for real threads, with futures polled in `MacrotaskQueue::executing_queue_finished_emt` and the wall clock, is not modelled; of it only the interleaving of `finish_task` is.
- Graphs.Build: takes the dependency lists already parsed; the regular expressions of the application files are not modelled.
- ExecTimeManager.LoadTables: takes the measured times already parsed, above 0 as in `Init`, and requires that each group is given a line; without one the code dereferences a null pointer.
- Prediction.CriticalPath: sums of times do not overflow.
- Strings.SplitStr: `do_remove_empty` discards the result of `std::remove_if` and is not modelled, nor are the conversions to numbers; stripping is `Strings.Strip`, piece by piece.
- Networking, callbacks, the client, option and path handling, printing of results, and the tools are plumbing over libraries that are not part of this model.
- Which of its operands a job returns (`result_ct_indices=`) is not modelled; its result is all of them. Constants and schemes do not change during a run, as they do by the callbacks of the networked server.
- `Query::read_from_stream` and `Query::write_to_stream` copy raw object bytes and are not modelled.
- The schedule and allocate methods named dummy only throw and are not modelled.
