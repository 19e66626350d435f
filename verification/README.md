# Verified model of the Autellix schedulers

Autellix schedules the calls of agentic programs on LLM engines. Its logic sits in a discrete-time
simulator, an online scheduler with a shared program table, a coordinator with worker processes, the
batch planners for vLLM and SGLang, and the code that moves KV memory to the host and back. This project
models these parts in Dafny and proves what they promise.

`dafny verify dfyconfig.toml` checks the whole project.

## What is modelled

**Simulator** (`SimModel`, `SimQueues`, `Simulator`). `SimModel` is the simulator as a state machine on
call records: release, scheduling with frozen windows, prefetching, demotion, promotion and swap
penalties, execution tick by tick, clock skips, several engines, and the policies FCFS, MLFQ, PLAS, ATLAS,
DAG-ATLAS and round robin. What the load balancer and the execution model decide is an arbitrary table
(engine, model time at least 1, scheduler time at least 0) and an arbitrary nonnegative penalty function.
Class `Simulator` keeps the deques, lists and windows of the program, and each of its methods is proved
equal to the state machine. The other `Sim...` modules prove theorems about every state of every run:
conservation (`SimInvariant`, `SimSteps`, `SimGantt`), termination (`SimTermination`), response and
critical-path bounds (`SimPaths`), makespan bounds (`SimGraham`, `SimMakespan`), priorities and program totals
(`SimAtlas`, `SimEntries`), releases, levels and slots (`SimPolicies`, `SimSeats`) and the absence of starvation
(`SimStarvation`, `SimPromotions`).

**Programs as graphs** (`Dag`, `Programs`, `SequentialPrograms`). Both acyclicity checks, the two
longest-path computations, and the test for sequential programs, as the loops they are.

**Queues** (`Levels`). The simulator's deques and the runtime's bare `(queue, order)` keys are the same
first-come-first-served queues.

**Runtime accounting** (`ProgramTable`, `AtlasChains`, `RuntimeScheduler`). The shared table, the exact
meaning of the ATLAS rule over any interleaving of admissions and finishes, and the wall-clock accounts.

**Coordinator protocol** (`Coordinator`, `Protocol`). Coordinator, workers and table as interleaved steps
over FIFO channels, with refused and failed admissions, cancellations, late events, broken workers, worker
deaths that lose part of the event queue, session ends and shutdown in any order.

**Batch planning** (`Window`, `PaperPlan`, `PaperLaws`). The frozen window, and the paper-mode planner for
every answer that the block manager may give.

**KV memory** (`DeviceKV`, `HostKV`, `Pressure`). Slots, free list and radix cache by contract; saving and
restoring, including failures half way; releasing reserves and retracting calls under memory pressure.

**Streaming** (`Mailbox`). The one-slot mailbox between the event thread and the HTTP stream, with every
queue operation as one step.

Conventions: times and measured seconds of the runtime are `real`; a dictionary is a `map`; a Python
exception is a result value, with the state the code leaves behind. Calls of the simulator carry numbers,
in the order (program arrival, program id, call id) in which a tick releases them. Call and engine records
are values held in fields of `Simulator`, so two names for one record do not occur.

## Model

| member | source | states |
|---|---|---|
| Levels.SortedUnique | autellix/core/simulator.py:247-249 | a set of calls has only one listing sorted by (queue, order) |
| Levels.FlattenIsSort | autellix/runtime/policy.py:325-327 | sorting all live calls by (queue, order) gives exactly the FIFO deques read level by level |
| Levels.PushAgrees | autellix/core/schedulers.py:51-67 | appending to a deque and handing out a fresh stamp keep deques and keys the same queues |
| Levels.TakeAgrees | autellix/core/schedulers.py:144-151 | removing a call keeps deques and keys the same queues |
| Levels.MoveAgrees | autellix/core/schedulers.py:126-132 | leaving one level and joining the tail of another equals one fresh stamp on the new level |
| Levels.RefreshAgrees | autellix/core/schedulers.py:144-159 | a whole refresh on deques and one on keys reach the same queues, for any demotions and promotions |
| Levels.RefreshShape | autellix/core/schedulers.py:144-159 | after one refresh a level holds first the calls that stayed, in order, then the movers in their old global order |
| Dag.Kahn | autellix/core/models.py:75-96 | the worklist visits every call exactly if a topological order exists, with repeated parents allowed |
| Dag.ReadyRounds | autellix/runtime/benchmark.py:43-47 | the ready-set rounds accept exactly the graphs with a topological order |
| Dag.ResolvePaths | autellix/runtime/benchmark.py:149-156 | the unresolved loop ends on every acyclic graph, with the heaviest path weight of every call |
| Dag.Visit | autellix/core/simulator.py:327-340 | the memoised visit returns the heaviest path weight and keeps the memo right |
| Dag.LongestBounds | autellix/core/simulator.py:327-340 | no dependency path that ends at a call is heavier than the computed value |
| Dag.LongestAttained | autellix/core/simulator.py:327-340 | some dependency path that ends at the call weighs exactly the computed value |
| Programs.CheckProgram | autellix/core/models.py:66-97 | the constructor's checks, in their order, report the first fault of a program |
| Programs.VerdictTells | autellix/core/models.py:66-97 | each verdict is reported exactly for the programs it describes: the first rule that is broken, and of the calls the first one that breaks it |
| Programs.ValidateProgram | autellix/runtime/benchmark.py:30-46 | accepts exactly the sound programs; reports a cycle exactly for well-named cyclic ones |
| Programs.ValidateWorkload | autellix/runtime/benchmark.py:20-49 | accepts exactly nonempty lists of sound programs with distinct ids |
| Programs.ChecksAgree | autellix/core/models.py:66-97 | the two checks accept the same programs, those with a topological order, apart from foreign calls and negative think times, which only one of them looks at |
| Programs.CriticalPaths | autellix/runtime/benchmark.py:149-156 | each value bounds every dependency path that ends at the call and is attained by one |
| SequentialPrograms.IsSequential | autellix/core/simulator.py:20-36 | true exactly for programs whose calls form one parent chain |
| SimInvariant.ReachInv | autellix/core/simulator.py:171-181 | in every state of every run: each call in one place, slots within limits, time accounts balanced, parents before children |
| SimInvariant.StepInv | autellix/core/simulator.py:171-181 | a step keeps the invariant and moves the clock forward |
| SimInvariant.ReleaseUpToCalls | autellix/core/simulator.py:203-214 | the release loop admits exactly the pending calls that are due and touches no other |
| SimInvariant.SelectLists | autellix/core/simulator.py:251-265 | a scheduling decision cuts the line into running, prefetched and queued calls |
| SimInvariant.FillLists | autellix/core/schedulers.py:100-106 | filling moves the head of the prefetched list to the tail of the running list |
| SimInvariant.TickedLists | autellix/core/simulator.py:267-308 | a tick removes exactly the finished calls from the running list |
| SimSteps.StepCall | autellix/core/simulator.py:171-181 | one step seen from one call: it stays, is released, or goes on and perhaps ends |
| SimSteps.DueParents | autellix/core/simulator.py:216-231 | within the time limit a due call has all parents finished, because the sentinel lies past the limit |
| SimPolicies.ReleasesInRun | autellix/core/simulator.py:203-231 | from any state of any run exactly the pending calls that may start are released, each with its costs, priority, level and quantum |
| SimPolicies.LevelsClimb | autellix/core/schedulers.py:42-48 | with boundaries climbing from 0 to infinity every service has exactly one level, and more service never a smaller one |
| SimPolicies.ReadyWhenAllowed | autellix/core/simulator.py:216-231 | in every state of every run a released call was ready no earlier than arrival, submission, parents and delays allow |
| SimPolicies.ClockInRun | autellix/core/simulator.py:171-201 | the clock moves by one tick, or with nothing live to a time at which some call may start, skipping no earlier one |
| SimPolicies.BoundaryMoves | autellix/core/schedulers.py:120-172 | at a boundary a spent quantum costs one level, and waiting of beta times the service lifts a call to the first level with both windows cleared |
| SimSeats.BoundarySeats | autellix/core/simulator.py:233-265 | at a boundary batch and reserve slots go to the first places of the line, as many as there are slots or calls, and the window starts anew |
| SimSeats.BoundaryCosts | autellix/core/simulator.py:250-261 | exactly the displaced residents pay, each the penalty for their number; first starts are stamped |
| SimSeats.TickWindow | autellix/core/simulator.py:302-306 | a tick uses up one step of the window exactly if some call of the engine executes |
| SimPromotions.LevelsInRun | autellix/core/simulator.py:171-181 | every live call of every run moves between levels only at a boundary and as quantum and waiting demand, and then advances by one tick |
| SimPromotions.LevelRules | autellix/core/schedulers.py:120-172 | over any step of a run: starved calls rise to the first level at the next boundary, a level number falls only then, and demotion is by one |
| SimEntries.TotalsInRun | autellix/core/schedulers.py:174-198 | in every state of every run the waiting and service totals of every program are those of its finished calls under its policy |
| SimTermination.StepBudget | autellix/core/simulator.py:233-308 | a step with live calls uses up budget, although new swap penalties may be charged |
| SimTermination.IdleStep | autellix/core/simulator.py:186-194 | a step with nothing live skips the clock by no more than outstanding delays pay for |
| SimTermination.DeadlineHolds | autellix/core/simulator.py:109-113 | the deadline of every reachable state is at most the bound of the run |
| SimTermination.RunFinishes | autellix/core/simulator.py:109-113 | every valid workload finishes by a bound computed from its costs, without raising the limit error |
| SimPaths.TimeAccount | autellix/core/simulator.py:267-308 | finish - ready = wait + model + swap + scheduler time, and the same account holds at every moment of a live call |
| SimPaths.ParentsFirst | autellix/core/simulator.py:216-231 | no call is released before every parent has finished and the release delay has passed |
| SimPaths.PathSpan | autellix/core/simulator.py:320-342 | responses along a dependency path fit between its first release and its last finish |
| SimPaths.CriticalPath | autellix/core/simulator.py:320-342 | computes the heaviest path of responses, or last finish minus arrival for sequential programs |
| SimPaths.ProgramResult | autellix/core/simulator.py:344-392 | the reported figures of a finished program are the totals of its calls |
| SimPaths.TotalsBalance | autellix/core/simulator.py:344-392 | the reported totals account for all the time the calls of a program spent in the system |
| SimPaths.CriticalPathBounds | autellix/core/simulator.py:320-342 | for every finished program: longest chain of model times <= critical-path response <= response |
| SimPaths.FinalTime | autellix/core/simulator.py:109-113 | in a finished run some call ends exactly at the final clock reading and none later |
| SimGantt.ChartIsExact | autellix/core/simulator.py:287-295 | one chart row per executed tick, model-time many for a finished call, at most one per slot and clock reading |
| SimGantt.TickShows | autellix/core/simulator.py:287-295 | a row is added only for a running call that owes no overhead, with its level |
| SimGraham.GrahamTick | autellix/core/simulator.py:267-308 | a tick fills every slot or runs every ready call, and either way pays for itself |
| SimGraham.GrahamBound | autellix/core/simulator.py:203-308 | with batch size B: W <= B * makespan <= W + (B - 1) * heaviest chain |
| SimMakespan.ChainBound | autellix/core/simulator.py:216-231 | under any policy, engines, costs and delays no finished run is shorter than a dependency chain |
| SimMakespan.MakespanBounds | autellix/core/simulator.py:203-308 | in the list-scheduling setting the makespan lies between the two classical bounds |
| SimMakespan.TwoPolicies | autellix/core/schedulers.py:80-118 | no policy is worse than another by more than the factor 2 - 1 / B |
| SimAtlas.Sandwich | autellix/core/schedulers.py:244-261 | at release: critical-path service <= ATLAS priority <= completed work of the program, which is the PLAS priority |
| SimAtlas.ServiceIsCriticalPath | autellix/core/simulator.py:310-318 | the explicit service of a released call is the heaviest path of model times through its ancestors |
| SimAtlas.SequentialPriorities | autellix/core/simulator.py:20-36 | on sequential programs PLAS, ATLAS and DAG-ATLAS give a call the model time of the calls before it |
| SimAtlas.SequentialAgree | autellix/core/schedulers.py:236-261 | two runs under any two of these policies, on any engines, agree on the priorities of a sequential program |
| SimStarvation.WaitingStep | autellix/core/schedulers.py:126-172 | while a call waits in queue 0 nobody gets ahead of it, and each step brings its start one tick closer |
| SimStarvation.StartsInTime | autellix/core/simulator.py:233-308 | a call that waits in queue 0 starts within the bound computed from the calls ahead |
| SimStarvation.ReachFair | autellix/core/schedulers.py:80-159 | waiting calls have an unused quantum, and the resident calls of queue 0 are the oldest of that queue |
| SimPromotions.StarvedStarts | autellix/core/schedulers.py:161-172 | a starved call on any level starts within the bound for the first level, unless the time limit ends the run |
| SimQueues.PopNextQueued | autellix/core/schedulers.py:114-118 | pops the head of the first nonempty level |
| SimQueues.CandidatesLine | autellix/core/simulator.py:240-249 | running, queued and prefetched calls together, sorted, are the line of the engine |
| SimQueues.RefreshUnseated | autellix/core/schedulers.py:144-159 | refreshing depends on queues and quanta only, not on which seat a call holds |
| Simulation.Simulator.Enqueue | autellix/core/schedulers.py:51-67 | the deques and record after an admission are those of the state machine |
| Simulation.Simulator.ReleaseReadyCalls | autellix/core/simulator.py:203-214 | the loop over pending calls is the release phase of the state machine |
| Simulation.Simulator.FillFromPrefetch | autellix/core/schedulers.py:100-106 | the lists after filling are those of the state machine |
| Simulation.RequeueOne | autellix/core/schedulers.py:126-156 | demotion and promotion of one call on real deques |
| Simulation.SendBack | autellix/core/simulator.py:243-249 | clearing the lists and dealing the sorted candidates back gives deques that agree with the keys |
| Simulation.Refresh | autellix/core/schedulers.py:144-159 | the refresh loop over a snapshot is the refresh of the state machine |
| Simulation.Seat | autellix/core/schedulers.py:80-98 | popping queues into batch and prefetch slots seats the head of the line, in order |
| Simulation.ChargeVictims | autellix/core/simulator.py:256-261 | every resident call that lost its place pays the penalty for the number of victims |
| Simulation.Decide | autellix/core/simulator.py:237-265 | the whole scheduling decision of one engine is that of the state machine |
| Simulation.Work | autellix/core/simulator.py:273-297 | the first loop of a tick serves swap, scheduler and model ticks and lists the finished calls |
| Simulation.Complete | autellix/core/schedulers.py:174-198 | the second loop settles the finished calls with their programs |
| Simulation.Await | autellix/core/schedulers.py:134-142 | every waiting call is charged one tick of waiting |
| Simulation.Simulator.ScheduleOn | autellix/core/simulator.py:233-265 | one engine's scheduling turn equals the state machine |
| Simulation.Simulator.Schedule | autellix/core/simulator.py:233-265 | the loop over engines equals the schedule phase |
| Simulation.Simulator.TickOn | autellix/core/simulator.py:267-308 | one engine's tick equals the state machine |
| Simulation.Simulator.ExecuteOneTick | autellix/core/simulator.py:267-308 | the loop over engines equals the tick phase |
| Simulation.Simulator.AnyEngineBusy | autellix/core/simulator.py:186-188 | some list is nonempty exactly if some call is live |
| Simulation.Simulator.StepOnce | autellix/core/simulator.py:171-181 | one step of the object is one step of the state machine, or the limit error with nothing changed |
| Simulation.Simulator.Run | autellix/core/simulator.py:109-113 | the run ends in a state that the state machine reaches: all finished, or the limit error |
| ProgramTables.ProgramTable.Open | autellix/runtime/policy.py:152-156 | a new row, or an error with the table unchanged |
| ProgramTables.ProgramTable.Admit | autellix/runtime/policy.py:158-171 | a request row and one more active call, returning the service found; errors change nothing |
| ProgramTables.ProgramTable.Finish | autellix/runtime/policy.py:178-193 | the request row goes, and only then the program is charged and perhaps deleted |
| ProgramTables.ProgramTable.End | autellix/runtime/policy.py:195-204 | marked as closing, and deleted once no call is active |
| ProgramTables.FinishTwice | autellix/runtime/policy.py:178-193 | a repeated finish changes nothing, whatever it reports |
| ProgramTables.ErrorFinish | autellix/runtime/engine.py:265-270 | a zero-valued finish returns the request and changes no service or waiting time |
| ProgramTables.FinishCommutes | autellix/runtime/policy.py:178-193 | concurrent calls may finish in either order: the table is the same |
| AtlasChains.ServiceIsHeaviestChain | autellix/runtime/policy.py:178-193 | after any interleaving a program's ATLAS service is the heaviest chain of calls each admitted after the previous one finished |
| AtlasChains.InheritedIsHeaviestChain | autellix/runtime/policy.py:275-284 | an admitted call inherits the heaviest chain that had finished when it was admitted |
| RuntimeSchedulers.QueueOf | autellix/runtime/policy.py:49-50 | returns the first level whose upper boundary exceeds the service |
| RuntimeSchedulers.LevelIsUnique | autellix/runtime/policy.py:49-50 | every nonnegative service lies in exactly one level, the returned one |
| RuntimeSchedulers.WaitBalances | autellix/runtime/policy.py:291-296 | bringing the clock up to date keeps waited + scheduled time equal to time since admission, and windows within totals |
| RuntimeSchedulers.RanBalances | autellix/runtime/policy.py:338-348 | reporting an execution keeps that account exactly if the call was on the batch or no time has passed |
| RuntimeSchedulers.RequeuedAccounts | autellix/runtime/policy.py:303-322 | demotion and promotion never touch lifetime totals |
| RuntimeSchedulers.RefreshQueues | autellix/runtime/policy.py:298-323 | the keys after a refresh describe the queues that one demotes and promotes by hand |
| RuntimeSchedulers.LineIsFlatten | autellix/runtime/policy.py:325-327 | sorting by key reads the real queues level by level |
| RuntimeSchedulers.RefreshLayout | autellix/runtime/policy.py:298-323 | in the runtime too a refresh leaves stayers first, then movers in their old global order |
| RuntimeSchedulers.NobodyOvertakes | autellix/runtime/policy.py:275-323 | while a call keeps its place in queue 0, admission, refresh and removal put nobody new ahead of it |
| RuntimeSchedulers.RuntimeScheduler.Admit | autellix/runtime/policy.py:275-284 | the call joins the tail of the first level above its inherited service with that level's quantum; a refusal changes nothing |
| RuntimeSchedulers.RuntimeScheduler.Line | autellix/runtime/policy.py:298-303 | the snapshot of a refresh is the real queues read level by level |
| RuntimeSchedulers.RefreshLevels | autellix/runtime/policy.py:303-321 | a spent quantum costs exactly one level, a call otherwise stays, and a level number falls only to 0, exactly if waiting reaches beta times the service |
| RuntimeSchedulers.RuntimeScheduler.Refresh | autellix/runtime/policy.py:298-323 | level, quantum, windows and accounts of every call after a refresh, with queues, keys and accounts still in step |
| RuntimeSchedulers.RuntimeScheduler.Begin | autellix/runtime/policy.py:329-336 | everybody's clock is brought up to date and the batch is marked; accounts still balance |
| RuntimeSchedulers.RuntimeScheduler.Executed | autellix/runtime/policy.py:338-350 | every mention up to the first unknown call is charged the full duration; the accounts survive exactly if each of these calls was on the batch or no time has passed |
| RuntimeSchedulers.RuntimeScheduler.Finish | autellix/runtime/policy.py:352-361 | the reported waiting time plus time on batches is the whole time since admission |
| RuntimeSchedulers.RuntimeScheduler.FailAll | autellix/runtime/policy.py:363-365 | every call gives its request back |
| Coordinators.ResolveKeeps | autellix/runtime/engine.py:245-291 | resolving a request gives back its load, rows and future once, and touches no other request |
| Coordinators.FailReplicaKeeps | autellix/runtime/engine.py:303-314 | failing a replica resolves exactly its pending requests |
| Coordinators.AllReclaimed | autellix/runtime/engine.py:177-181 | with nothing pending and all sessions ended the table is empty |
| Coordinators.Coordinator.StartSession | autellix/runtime/engine.py:160-167 | a session and its row appear together, or not at all |
| Coordinators.Coordinator.EndSession | autellix/runtime/engine.py:169-175 | the session closes, and disappears once nothing of it is pending |
| Coordinators.Coordinator.CleanupSession | autellix/runtime/engine.py:177-181 | a closing session with nothing pending leaves the table and the sessions |
| Coordinators.Coordinator.LeastLoadedReplica | autellix/runtime/engine.py:219-222 | the first healthy replica of least load, or none exactly if none is healthy |
| Coordinators.Coordinator.Submit | autellix/runtime/engine.py:212-243 | refused exactly for a closed session, a used call id or want of a healthy replica; long prompts stay on the replica of their session, others go to the least loaded |
| Coordinators.FailReplicaFutures | autellix/runtime/engine.py:303-314 | failing a replica fails exactly the waiting futures of its pending requests |
| Coordinators.Coordinator.ResolveEvent | autellix/runtime/engine.py:245-291 | a waiting future gets the result, the cancellation or the error that the event says, once; every other future is untouched |
| Coordinators.Coordinator.FailReplicaAt | autellix/runtime/engine.py:303-314 | the object fails a replica as the state machine does, whatever the order of its requests |
| Coordinators.Coordinator.CloseDown | autellix/runtime/engine.py:344-349 | after the last part of a shutdown nothing is booked and every future is done |
| Protocol.NextOk | autellix/runtime/engine.py:58-107 | every enabled step of coordinator or worker keeps the protocol invariant |
| Protocol.BookkeepingHolds | autellix/runtime/engine.py:205-314 | in every interleaving loads, futures, request rows and active counts match the pending requests |
| Protocol.StepFutures | autellix/runtime/engine.py:245-314 | a done future never changes; a waiting one is resolved, failed or cancelled exactly by the delivery, replica failure or cancel that calls for it |
| Protocol.FutureHistory | autellix/runtime/engine.py:245-314 | in every interleaving how a future ended tells what happened to its request while it waited |
| Protocol.DoneForGood | autellix/runtime/engine.py:272-286 | in every interleaving a future that is done stays done in the same way |
| Protocol.CancelledByClient | autellix/runtime/engine.py:237-241 | in every interleaving a future is cancelled only by its client |
| Protocol.CompletionHistory | autellix/runtime/engine.py:98-101 | in every interleaving a completion was reported by a worker that held the call and finished it |
| Protocol.NothingLeft | autellix/runtime/engine.py:169-181 | in every interleaving: nothing pending and all sessions ended means an empty table |
| Protocol.ShutdownReclaims | autellix/runtime/engine.py:333-349 | after a shutdown nothing is booked and every future is done, whatever happened before |
| Windows.SelectKeeps | autellix/runtime/window.py:10-32 | a selection keeps active the prefix of the cohort, reserve the rest, and the step count within the interval |
| Windows.ActiveStays | autellix/runtime/window.py:16-28 | between boundaries an active call stays active while it is available |
| Windows.FrozenWindow | autellix/runtime/window.py:10-48 | over any events between boundaries, cuts included, the cohort is what was spared of it in its old order, and an active call stays active until it leaves or is cut off |
| Windows.DecodesBetweenRefreshes | autellix/runtime/window.py:10-48 | at most one interval of decode steps passes between two refreshes, and then the next selection refreshes |
| Windows.WindowLength | autellix/runtime/window.py:16-36 | after a refresh the next one comes after exactly the interval of decode steps, or when nobody of the cohort is left |
| Windows.RefreshTakes | autellix/runtime/window.py:19-32 | a refresh takes the calls of least key, as many as batch and reserve hold or all there are, in key order, for a whole interval |
| Windows.LeastOf | autellix/runtime/window.py:20 | the available calls of least key, in key order |
| Windows.SchedulingWindow.Select | autellix/runtime/window.py:10-32 | at a boundary the cohort is the least keys; the two returned sets disjointly cover it |
| Windows.SchedulingWindow.Execute | autellix/runtime/window.py:34-36 | a decode uses up one step and a prefill none |
| Windows.SchedulingWindow.DropReserve | autellix/runtime/window.py:38-41 | the cohort is cut to the capacity and the reserve is empty |
| Windows.SchedulingWindow.RetainPrefix | autellix/runtime/window.py:43-48 | the cohort is cut and split again into active and reserve |
| PaperPlans.EvictOutsiders | integrations/vllm/paper.py:57-62 | exactly the running groups outside the cohort move to the swapped queue |
| PaperPlans.AdmitOne | integrations/vllm/paper.py:83-155 | the next cohort member gets its place exactly if it fits the budget and both answers for its own queue; otherwise admission ends, and how is determined by the state at the start of the step |
| PaperPlans.Admit | integrations/vllm/paper.py:82-155 | admission stops at the first member that does not fit; queues, slots, batch and arrivals are exactly those of the members before it |
| PaperPlans.FastPath | integrations/vllm/paper.py:64-80 | inside a prepared decode window the active groups are exactly those that the admission loop would schedule |
| PaperPlans.EndsOnce | integrations/vllm/paper.py:82-155 | for given answers admission can end in one way only |
| PaperPlans.StepIsSafe | integrations/vllm/paper.py:17-159 | queues stay a partition, a step that swaps out does nothing else, nobody runs past a group that did not fit; prefills precede decodes, each in cohort order |
| PaperLaws.WhoIsSwappedOut | integrations/vllm/paper.py:48-139 | swapped out are all running groups outside the cohort, or the running member of least priority behind a member for which the block manager has no blocks |
| PaperLaws.Raises | integrations/vllm/paper.py:90-157 | the step raises exactly if the request of highest priority alone exceeds the budget or must wait with nobody of lower priority running |
| PaperLaws.BatchWithinBudget | integrations/vllm/paper.py:90-94 | every batch that admission builds is within the token budget |
| PaperLaws.WhoRuns | integrations/vllm/paper.py:87-89 | a batch that executes is exactly the active members of the cut cohort and the reserves that still have to prefill |
| PaperLaws.WhoMoves | integrations/vllm/paper.py:94-148 | groups come to the GPU and get slots only with the block manager's consent for their own queue; who leaves is reported; who is prepared is exact |
| PaperLaws.SlotsInOrder | integrations/vllm/paper.py:82-148 | slots are given in the order of the cohort |
| PaperLaws.CutIsForced | integrations/vllm/paper.py:90-145 | the cohort is cut only before a member that exceeds the budget or has no blocks, and then nobody behind it could have made room |
| PaperLaws.AdmitsEverybody | integrations/vllm/paper.py:82-159 | if the block manager agrees to everything and all tokens are within the budget, everybody is admitted |
| PaperLaws.WhatIsKept | integrations/vllm/paper.py:20-26 | prepared groups are still there; only departed and swapped-out ones are forgotten; a boundary gives back all slots |
| PaperPlans.RunsWithinBudget | integrations/vllm/paper.py:64-94 | in every run, prepared decode windows stay within the token budget too, given that a prefilling group has tokens left |
| PaperPlans.OrderedTokens | integrations/vllm/paper.py:33-35 | putting prefills before decodes leaves the token count unchanged |
| PaperPlans.DecodesAreActive | integrations/vllm/paper.py:86-90 | scheduled groups are running cohort members, and decoding ones active, so at most capacity many |
| PaperPlans.PaperPlan.NextStep | integrations/vllm/paper.py:17-159 | what the step returns or raises, whom it moves, and the window, slots and prepared groups it leaves, in terms of the state before it |
| DeviceKVs.MatchIsLongest | integrations/sglang/swap.py:38-40 | exactly the prefixes up to the matched length are cached |
| DeviceKVs.InsertKeeps | integrations/sglang/swap.py:59 | inserting keeps cached paths and slots, and caches each missing prefix in its own slot |
| DeviceKVs.DropKeeps | integrations/sglang/swap.py:49-50 | a longest unlocked path is a leaf, and can be evicted without losing a slot |
| DeviceKVs.DeviceKV.Evict | integrations/sglang/swap.py:49-50 | only unlocked paths leave; it gives up early only when everything left is locked |
| HostKVs.TotalSplits | integrations/sglang/swap.py:13-16 | the sum of backup sizes does not depend on the order of the backups |
| HostKVs.HostKV.Discard | integrations/sglang/swap.py:13-16 | the backup goes and its bytes are given back |
| HostKVs.HostKV.Save | integrations/sglang/swap.py:18-30 | refused exactly if the bytes exceed the budget, failed exactly if the copy raises; otherwise exactly the values of the slots, and on any failure the old backup stays |
| HostKVs.HostKV.Restore | integrations/sglang/swap.py:32-67 | every exit keeps locks, slots and backups; success makes the path readable, refusal means nothing was left to evict |
| HostKVs.UndoneConserves | integrations/sglang/swap.py:60-62 | a restore that failed half way owns nothing, and every cached value is as before |
| HostKVs.SuccessConserves | integrations/sglang/swap.py:59-64 | a restore that succeeded moved free slots into the cache, lost none and owns none twice |
| HostKVs.SuccessReads | integrations/sglang/swap.py:55-59 | the missing suffix reads what was saved, the shared prefix what it read before |
| HostKVs.SavedIsFaithful | integrations/sglang/swap.py:18-30 | a backup taken from slots with the right KV is right |
| HostKVs.RestoreIsExact | integrations/sglang/swap.py:32-67 | on every exit the whole cache stays right; on success the path reads back exactly what was saved, shared prefix included |
| DecodePressure.PinnedIsMatched | integrations/sglang/reserve.py:13-15 | a locked reserve is always completely cached, so that error never occurs |
| DecodePressure.Scheduler.ReleaseReserves | integrations/sglang/reserve.py:4-20 | each reserve is saved before its lock goes; it stops exactly at the first refused save, which leaves its lock and all later ones |
| DecodePressure.LowestPriority | integrations/sglang/pressure.py:17-18 | the batch member that comes last in the plan |
| DecodePressure.Scheduler.RetractAt | integrations/sglang/pressure.py:19-33 | the victim is saved, then gives up slots and lock and is requeued; nothing changes exactly if its save is refused |
| DecodePressure.RetractOwned | integrations/sglang/pressure.py:25-30 | after a retraction every survivor still owns its slots alone and holds its lock |
| DecodePressure.TailsBecomeFree | integrations/sglang/pressure.py:25-30 | over a whole step a slot becomes free exactly if it lies beyond the cached prefix of a retracted request; cached prefixes stay |
| DecodePressure.ServesNext | integrations/sglang/pressure.py:34-35 | cutting the cohort at the victim keeps every survivor and no victim |
| DecodePressure.Scheduler.RetractUntil | integrations/sglang/pressure.py:12-35 | ends with room, or with one request that does not fit, or at a victim whose save is refused |
| DecodePressure.Scheduler.MakeDecodeRoom | integrations/sglang/pressure.py:4-35 | nothing changes if the batch fits; otherwise reserves go first, then a suffix of the plan, each saved first and requeued once; an error names a refused save |
| DecodePressure.NoErrorExpected | integrations/sglang/pressure.py:4-35 | if no copy fails and the budget holds all reserves and requests, the step ends with room or with a single request that does not fit |
| DecodePressure.LongestFittingPrefix | integrations/sglang/pressure.py:12-18 | the survivors are a prefix of the plan's order, and no longer prefix fits |
| Mailboxes.StreamingIsExact | autellix/runtime/server.py:106-137 | in every interleaving the emitted deltas form a prefix of the final text, and all of it once the stream stopped |
| Mailboxes.StopsSoon | autellix/runtime/server.py:115-137 | once the result is set the stream stops within seven of its own steps, having sent the final text |
| Mailboxes.EngineAdvances | autellix/runtime/engine.py:27-37 | a slow client never holds the event thread up |
| Mailboxes.InferenceFuture.Update | autellix/runtime/engine.py:27-37 | the newest text replaces an unread one, and the first nonempty text is timed once |
| Mailboxes.UpdateAlone | autellix/runtime/engine.py:27-37 | undisturbed, the single steps of an update do what the method does |

## Left out

- SRPT scheduling: its queues do not follow the (queue, order) keys.
- `add_call`, `step` and `run_until_idle` of the simulator: calls that appear during a run are not modelled.
- The counters of the simulator that feed reports only (highest queue, prefetch count, slot utilisation, thread metadata, cache figures).
- Process entries are present from the start with zero totals; the program creates them at the first release.
- Execution cost formulas, load balancers and swap penalties: arbitrary values in their place.
- Floating-point rounding: service, waiting time and clock readings are reals.
- SQLite: each transaction is one atomic step; the result, activity timing and trace tables are left out.
- Request ids come from `uuid` and are taken to be unique.
- Tokenization requests.
- Coordinators.ResolveKeeps: the second finish, under the id that SGLang workers give the request row, is left out; a request has one row.
- Coordinators.Coordinator.ResolveEvent: covers generation requests; tokenization replies and the second SGLang finish are left out.
- Coordinators.Coordinator.FailReplicaAt: covers generation requests; pending tokenization requests of the replica are left out.
- Events travel in one FIFO channel per worker; the program's shared event queue may only mix them further.
- Protocol.ShutdownReclaims: the worker processes are taken to be gone when the last part of a shutdown runs.
- PaperPlans.RunsWithinBudget: a group in its prefill phase is taken to have tokens left to compute, as the engine's sequence data arranges.
- PaperPlans.PaperPlan.NextStep: a swapped group moves at least one block, and the block manager is asked about each group at most once before and once after its admission.
- The compat path of the vLLM scheduler, and the SGLang scheduler hooks around native admission.
- DecodePressure.Scheduler.MakeDecodeRoom: that every member of the decode batch is active in the window is a precondition, as the scheduler hooks arrange.
- HostKVs.HostKV.Restore: the copy may raise at any layer; `insert` of the radix cache is taken to complete or to change nothing.
- SimPaths.ProgramResult: prefill and decode times, token counts and token latencies are not reported, since the cost formulas are left out.
- The order in which the radix cache evicts unlocked entries, and its node layout: any leaf may go first.
- HTTP routing, tokenizers, plots, datasets, workload generators and statistics.
- Mailboxes.StreamingIsExact: disconnects, cancelled futures and backends that revise their text are not part of the interleavings.
