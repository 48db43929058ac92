# Actor runtime: a verified model

The repository is an actor runtime in Rust: a multi-threaded `Runtime` of worker threads with
round-robin mailboxes, a single-threaded `ActorSystem`, supervisors, and actors that cycle through
states. This project models its protocols in Dafny and proves what they keep over every run.

`dafny verify dfyconfig.toml` checks everything.

## How the model is built

* `Actors` fixes the vocabulary. Actor states, messages and replies are arbitrary. A handler is a
  deterministic function from an actor, its state and a message to a new state and a reply, a stop
  request, or a panic. `RunActor` is the reference: what becomes of one actor, and of each envelope,
  when the actor is offered its envelopes one after the other.
* `SchedulerSpec`, `SchedulerClass` and `Fairness` are the mailbox scheduler: its value, the object
  that changes it in place, and the round-robin promise over any sequence of turns.
* `RuntimeModel` is the multi-threaded runtime as a state machine. A step is a lock section, an
  atomic operation or a channel operation of some thread, with what the thread does next to it on its
  own data; the few steps that take in two shared operations are listed under "Left out". Worker
  threads have a program counter (read control, drain, turn, handling, wait, stopping, exited),
  clients and handlers send and spawn at any time. `Places`, `Mail` and `History` are its invariant in
  three parts (where actors are, where envelopes are, what has been computed), kept by every one of
  the twenty-one kinds of step. `Reachable`, `Spawning`, `AddrModel`, `Blocking`, `BlockingRuns`,
  `ShutdownProtocol`, `Stops`, `FairRuns`, `Confluence` and `Quiescence` draw the conclusions. A lemma
  that requires `Inv` holds in every reachable state, by `Reachable.ReachableInv`. `Runs` puts runs
  together; `Frames` says what each step does to counters, spawns under way and stops.
* `WorkerRuns` and `WorkerClass` are the worker thread as it is programmed, loops and updates in
  place; each of its methods performs a run of the state machine.
* `SystemSpec`, `SystemClass` and `SystemRun` are the single-threaded runtime, its test harness, and
  the conditions under which its event loop returns.
* `SupervisorSpec` and `SupervisorClass` are supervision; `SupervisedRuntime` puts a supervisor into an
  actor of the multi-threaded runtime, where its factories spawn while all other threads go on.
* `StateMachines`, `PlacementSpec` and `SpawnerClass` are cyclic actors and the two counters behind
  identities and placement. `Modular` holds the arithmetic of wrapping counters.

The history fields of the model (tickets, places, homes, births, logs) are never read by a modelled
operation.

## Where the code and its documentation differ

The model follows the code.

* DEVELOPMENT.md, line 235, says that workers exit when all addresses are dropped. They do not: every
  worker keeps senders to its own channel (`ShutdownProtocol.NeverDisconnected`).
* src/supervisor.rs, line 9, says that all children are stopped and restarted. Siblings of the failed
  child are not stopped (`SupervisedRuntime.CallStopsNobody`, `SupervisedRuntime.RestartsPileUp`).
* A restart is meant to use the failed child's own factory. It uses the factory at the child's present
  position (`SupervisorSpec.FactoryShift` says exactly when the two agree).
* src/stateful.rs, line 65, says that a machine starts in `initial_state()`. It starts at the head of
  its sequence (`StateMachines.CyclesBeginInInitialState`).
* src/system.rs, line 59, says that `run` exits when `shutdown()` is called. `run` holds the system
  exclusively and sets the flag itself, so only the loss of all senders ends it.
* src/addr.rs, lines 53 to 55, warns of a deadlock for a blocking send on the same runtime. It is
  certain on the same worker (`Blocking.SelfSendNeverReturns`) and avoidable across workers
  (`BlockingRuns.UpwardRunsNeverDeadlock`).

## Model

| member | source | states |
|---|---|---|
| Actors.RunActorAfterEnd | src/runtime.rs:74-78 | once an actor has stopped or panicked, every later envelope for it is dropped and no earlier fate changes |
| Actors.RunActorPrefix | src/runtime.rs:71-118 | the fate of an envelope does not depend on later envelopes |
| Actors.ForActorIncreasing | src/scheduler.rs:26-32 | filtering by actor keeps acceptance order |
| SchedulerClass.Scheduler.Enqueue | src/scheduler.rs:26-32 | the envelope goes to the back of its mailbox, its actor joins the ready queue unless it is there, and a settled scheduler stays settled |
| SchedulerClass.Scheduler.NextReady | src/scheduler.rs:36-47 | pops, in place, to the first actor with mail; in a settled scheduler it yields nobody exactly when nobody has mail |
| SchedulerClass.Scheduler.Dequeue | src/scheduler.rs:50-52 | hands out the oldest envelope of the mailbox, leaves the rest of it in order and all others alone, nothing exactly if it is empty; in mid-turn the agreement stays and the envelope is the actor's |
| SchedulerClass.Scheduler.RequeueIfReady | src/scheduler.rs:56-62 | back of the queue, or the empty mailbox goes; restores full agreement after the actor's turn |
| SchedulerClass.Scheduler.RemoveActor | src/scheduler.rs:65-68 | mailbox and queue entries of one actor go, all others stay in order; a settled scheduler stays settled |
| SchedulerClass.Scheduler.CleanupEmpty | src/scheduler.rs:77-85 | nobody's mail changes and no empty mailbox of the actor is kept; after the turn of an actor without mail the full agreement is back |
| SchedulerSpec.EnqueueAllBox | src/runtime.rs:50-52 | after draining the channel each mailbox has gained exactly its own envelopes, in arrival order |
| SchedulerSpec.NextReadySettled | src/scheduler.rs:36-47 | between turns nothing is skipped: the head of the queue is served, and nobody is served exactly when all mailboxes are empty |
| SchedulerSpec.TurnBeginSettled | src/scheduler.rs:50-52 | in mid-turn queue and mailboxes agree but for the actor being served |
| SchedulerSpec.RequeueSettled | src/scheduler.rs:56-62 | the unchecked push makes no duplicate if the actor is the one being served |
| SchedulerSpec.RequeueDuplicates | src/scheduler.rs:56-58 | the unchecked push makes a duplicate exactly when the actor has mail and is queued already |
| SchedulerSpec.RequeueNeedsProtocol | src/scheduler.rs:56-58 | and from any settled scheduler one enqueue leads to such a state |
| SchedulerSpec.RemoveSettled | src/scheduler.rs:65-68 | removal, also in mid-turn, restores agreement, and the requeue after it does nothing |
| Fairness.RoundsSettled | src/runtime.rs:50-58 | ready queue without duplicates, equal to the actors with mail, no empty mailbox kept: after any sequence of turns, arrivals and stops |
| Fairness.MovesUp | src/scheduler.rs:36-62 | a turn that does not serve an actor moves it up exactly one place and loses none of its mail |
| Fairness.ServedOnItsTurn | src/scheduler.rs:6-10 | the actor at position p is served on exactly turn p + 1, with its oldest envelope, whatever else arrives or stops |
| Fairness.BoundedWaiting | src/scheduler.rs:6-10 | an envelope with m others ahead is dispatched, or discarded with its stopped actor, within p + 1 + m * n turns, n bounding the actors with mail |
| Fairness.DrainsOut | src/runtime.rs:54-58 | when nothing more arrives, all mailboxes are empty after at most as many turns as there were envelopes |
| FairRuns.TurnsAreRounds | src/runtime.rs:50-58 | in every run, whatever other threads do, a worker about to take a turn has the scheduler that the rounds read off the run make of the one it started with |
| FairRuns.WaitingIsBounded | src/scheduler.rs:6-10 | in every interleaving, an envelope at position (p, m) has met its fate once its worker has completed p + 1 + m * n rounds |
| Reachable.InitInv | src/runtime.rs:150-191 | the invariant holds when the worker threads have just been started |
| Reachable.StepInv | src/runtime.rs:30-135 | every step of every thread keeps the invariant |
| Reachable.ReachableInv | src/runtime.rs:29-231 | places, mail and history agree in every reachable state, for any number of workers and any interleaving |
| Places.StepPlaces | src/spawner.rs:50-89 | every step keeps each identity in exactly one place: in its started hook, queued, in its home map, in dispatch, stopped, or never placed |
| Mail.StepMail | src/runtime.rs:50-66 | every step keeps the undecided envelopes of an actor, in order, in its home worker's slot, mailbox and channel and nowhere else |
| History.StepHistory | src/runtime.rs:71-118 | every step keeps each actor on its reference run over the envelopes accepted for it |
| Reachable.HeldIsPending | src/spawner.rs:67-67 | an envelope in a dispatch slot, mailbox or channel is an accepted one without a fate, at its actor's home worker |
| Reachable.EnvelopeNotTwice | src/scheduler.rs:50-68 | no envelope is in two spots of the runtime |
| Reachable.EnvelopeConserved | src/runtime.rs:30-118 | an accepted envelope has met its fate exactly when it waits nowhere |
| Reachable.NonePendingAfterExit | src/runtime.rs:39-42 | after its worker has exited no envelope is undecided |
| Reachable.SendOutcome | src/addr.rs:64-73 | a decided send has the result of the reference run over the earlier envelopes, or was dropped by the shutdown of its worker |
| Reachable.ActorNotTwice | src/runtime.rs:74-93 | no identity is in two maps, queues, dispatches or logs at once, so at most one handler runs per actor and a child never sits where its parent is put back |
| Places.DispatchedIsOut | src/runtime.rs:91-93 | while a handler runs its actor's key is absent from the map, so putting it back overwrites nobody |
| Reachable.AddressedIsPlaced | src/runtime.rs:198-215 | an actor with an address is in its home worker's map, in that worker's dispatch, or stopped |
| Spawning.SpawnReturned | src/runtime.rs:198-215 | every confirmed spawn can return, and its caller then has an address that leads to the actor's home and works exactly as long as that worker lives; nobody else's address changes |
| Spawning.ChildReturned | src/context.rs:76-98 | so has the caller of a context spawn; the child is in its worker's map in exactly the given state, and nothing else moves |
| Spawning.SpawnsGoOn | src/spawner.rs:50-68 | no spawn under way is ever stuck by itself: its next step is possible, or its worker is alive to take it |
| Spawning.SpawnSucceeds | src/runtime.rs:198-215 | a whole spawn on a worker reading its empty control queue: the actor is there in the given state, addressed, and can be sent to |
| Spawning.FirstSpawn | src/runtime.rs:150-191 | a freshly started runtime is ready for it: the first spawn becomes actor 1 on worker 0 |
| Spawning.AddressWorks | src/addr.rs:72-72 | in every reachable state a message sent by an address is taken exactly if the worker of its actor has not exited |
| Reachable.AbsentHasStopped | src/runtime.rs:75-78 | the branch for a missing actor is only taken for one that has stopped |
| Reachable.RunLater | src/addr.rs:73-73 | along every run fates are final, the log of stops only grows, homes never change |
| Reachable.StoppedForGood | src/runtime.rs:94-117 | after its stopped hook an actor is in no map and in no dispatch, in any continuation |
| Stops.LivesUntilItsEnd | src/runtime.rs:94-127 | over every run an actor stays alive on its worker exactly if no step of the run ended its own handler by a stop request or a panic or removed it in the shutdown of its worker |
| Stops.LeavesTheMap | src/spawner.rs:86-89 | an actor leaves its map exactly in its own turn and when the shutdown of its worker removes it |
| AddrModel.RefusedIffExited | src/addr.rs:72-72 | a send fails with RuntimeShutdown exactly when the worker of its actor has exited, and then changes nothing |
| AddrModel.EverySendAppends | src/addr.rs:79-94 | every send, by a client or a handler, blocking or not, makes the channel take exactly this one message for this actor, behind everything the actor was sent before; no other actor's mail changes |
| AddrModel.DeliverAccepts | src/addr.rs:72-72 | an accepted call waits for the answer to its own message: the envelope of its ticket carries its target and its message and is undecided |
| AddrModel.SendReturns | src/addr.rs:56-74 | the whole call over every run: what it returns is the reference's answer to this message after the envelopes accepted before it, or that a shutdown dropped it; RuntimeShutdown if it was refused |
| AddrModel.ExitedForGood | src/runtime.rs:39-42 | a worker that has exited never runs again |
| AddrModel.RefusedForGood | src/addr.rs:93-93 | once one send to an actor is refused every later one is |
| AddrModel.AnswerIsFinal | src/addr.rs:56-74 | a blocking send returns at most once |
| AddrModel.AnswerMeans | src/addr.rs:64-73 | over every run: Ok(reply) exactly if a step of the run ended the handler of this envelope with that reply; ActorNotRunning exactly if a step ended it by a panic or the envelope was dropped; never RuntimeShutdown once accepted |
| AddrModel.DecidingStep | src/runtime.rs:84-117 | an undecided envelope gets a fate other than a drop exactly in the step that ends its own handler, as that handler ended |
| AddrModel.AnswerIsExpected | src/addr.rs:56-74 | what the caller gets is what the reference run yields, unless a shutdown dropped the envelope |
| AddrModel.AnsweredAtExit | src/runtime.rs:30-69 | no blocking send to an exited worker's actor is left waiting |
| AddrModel.WaitsOnlyWhenIdle | src/runtime.rs:54-65 | a worker waits exactly when none of its actors has mail |
| Blocking.OthersStep | src/spawner.rs:72-84 | a step of another thread can only append to a worker's control queue and channel and insert into its map |
| Blocking.SelfSendNeverReturns | src/addr.rs:51-74 | a handler's blocking send to an actor of its own worker never returns, in any continuation |
| Blocking.SelfSpawnNeverReturns | src/spawner.rs:58-66 | a handler's `Runtime::spawn` that is placed on the handler's own worker never returns, in any continuation |
| Blocking.ChildIsLocal | src/context.rs:76-98 | a child spawned through the context lives on its parent's worker for good |
| Blocking.SomeWorkerCanStep | src/runtime.rs:54-58 | if handlers block, in sends and in runtime spawns, only on workers of higher rank, then whenever a worker has work some worker with work can step |
| BlockingRuns.UpwardRunsNeverDeadlock | src/addr.rs:51-74 | if in a run from the start every blocking send and every `Runtime::spawn` of a handler goes to a worker of higher rank, all waits in the state it leads to go upwards, and whenever a worker has work some worker with work can step |
| ShutdownProtocol.NeverDisconnected | src/runtime.rs:60-64 | the disconnected exit of the loop is unreachable while the worker runs |
| Spawning.DroppedHandleEndsNoLoop | src/runtime.rs:60-64 | nor is it reachable after the runtime handle has been dropped, in any continuation |
| ShutdownProtocol.StopsOnlyOnRequest | src/runtime.rs:39-42 | a worker starts stopping only on a shutdown request at the head of its control queue |
| ShutdownProtocol.AheadIsAnswered | src/runtime.rs:30-46 | every spawn queued ahead of the shutdown request is inserted, in the state it was requested with, and confirmed before the worker stops |
| ShutdownProtocol.AtMostOneMoreDispatch | src/runtime.rs:30-58 | once a shutdown request is queued the worker begins at most one more dispatch, in every run |
| ShutdownProtocol.ExitStopsAll | src/runtime.rs:129-135 | at exit every actor ever placed on the worker has stopped, once, or came after the shutdown snapshot; the latter are exactly those left in the map |
| ShutdownProtocol.LateOnlyByClientHook | src/context.rs:76-98 | only a child that a client's started hook inserts into a stopping worker comes too late |
| ShutdownProtocol.LateIsNeverStopped | src/runtime.rs:129-135 | a child inserted into a worker that is shutting down has not been stopped when the worker has exited, in any continuation |
| ShutdownProtocol.AllStoppedIff | src/runtime.rs:120-135 | over every run, per worker: at exit every actor ever placed on it has been stopped if and only if no spawn raced with its shutdown |
| ShutdownProtocol.UnstoppedChild | src/context.rs:76-98 | a run of one worker in which the race happens and an actor is left unstopped |
| ShutdownProtocol.CleanShutdown | src/runtime.rs:120-135 | without that race every actor has stopped exactly once by the time its worker has exited, and none is left in its map |
| ShutdownProtocol.ClientsCanPreventRace | src/runtime.rs:198-231 | what clients can do: if no client spawn placed on the worker is inside its started hook when the shutdown is requested, and none is placed there later, there is no race and every actor has stopped exactly once at exit |
| Confluence.QuietOnReference | src/runtime.rs:71-118 | an actor with nothing left in its worker is exactly what the reference run of its accepted envelopes makes of it, fate by fate |
| Confluence.InterleavingsAgree | src/scheduler.rs:26-68 | two runs, on any numbers of workers, that accept the same messages for an actor leave it in the same state with the same fates, once quiet |
| Confluence.RoundRobinAgreesWithFifo | src/system.rs:75-110 | the multi-threaded runtime and the single-threaded one end with the same actor, the same replies in order, the same stops and the same discarded envelopes |
| Quiescence.Drains | src/runtime.rs:30-66 | a worker that is neither shutting down nor blocked drains: finitely many of its own steps leave every actor at home there with nothing to do |
| Quiescence.SendIsAnswered | src/addr.rs:56-74 | a send to an actor of such a worker is taken, and finitely many of the worker's own steps bring the caller exactly the reference's answer to this message |
| Quiescence.DrainsLikeFifo | src/system.rs:75-110 | and then its actor agrees with the drained single-threaded runtime that was sent the same messages |
| WorkerClass.WorkerThread.DrainControl | src/runtime.rs:32-46 | a run of the state machine; confirms exactly the spawns ahead of the first shutdown request, in order, and goes on exactly if there is none; else all actors are stopped |
| WorkerClass.WorkerThread.DrainMessages | src/runtime.rs:50-52 | a run of the state machine; the whole channel is in the mailboxes, in order |
| WorkerClass.WorkerThread.Dispatch | src/runtime.rs:71-118 | the actor as the reference offers it the envelope, put back or gone from map and mailboxes with its stopped hook called once |
| WorkerClass.WorkerThread.Turn | src/runtime.rs:54-58 | a run of the state machine and one round of the fairness theorems; serves nobody exactly when nobody is ready |
| WorkerClass.WorkerThread.Wait | src/runtime.rs:60-63 | a run of the state machine that takes at most one envelope |
| WorkerClass.WorkerThread.RemoveActor | src/runtime.rs:120-127 | the stopped hook is called exactly if the actor was in the map; its mailbox goes in any case |
| WorkerClass.WorkerThread.StopAllActors | src/runtime.rs:129-135 | a run of the state machine to the end of the thread; the map is empty and each actor of it had its hook called, once |
| WorkerClass.WorkerThread.Pass | src/runtime.rs:31-66 | one pass of the loop is a run of the state machine; as long as the thread runs its scheduler makes one round of the fairness theorems, with the channel as arrivals |
| SystemSpec.DispatchOk | src/system.rs:92-103 | receiving one envelope keeps every actor and every fate on the reference, and every actor alive or stopped once |
| SystemSpec.SpawnOk | src/system.rs:36-55 | so does spawning under an identity that neither an actor nor an envelope has had before |
| SystemSpec.SpawnedHandles | src/system.rs:36-55 | the first message sent to a new actor of a drained system gets the reply of the handler on exactly the spawned state |
| SystemSpec.FirstEnvelope | src/system.rs:92-103 | and in any system the first envelope ever received for an actor is handled by the state it was spawned with |
| SystemSpec.AcceptAppends | src/addr.rs:79-94 | a sent message waits in the one channel behind all others, and nothing else changes |
| SystemSpec.DispatchLighter | src/system.rs:75-82 | if handlers send at most b messages of lower rank, every dispatch makes the channel lighter in the measure of (b + 1) to the rank |
| SystemSpec.DrainsByRank | src/system.rs:75-82 | and draining then ends, after at most as many dispatches as the channel weighs |
| SystemSpec.EndsByRank | src/system.rs:60-72 | and so does the event loop, whatever the rest of the program sends |
| SystemSpec.LoopEndCarries | src/system.rs:60-72 | whatever arrives at the loop is accepted, in order, and received by the time it ends |
| SystemSpec.DrainOk | src/system.rs:75-82 | draining the channel ends on the reference |
| SystemClass.ActorSystem.Spawn | src/system.rs:36-55 | a new identity, the one after the last; the actor is held under it in exactly the given state, and nobody else and no envelope has changed |
| SystemClass.ActorSystem.Dispatch | src/system.rs:92-103 | in place, the specified dispatch; what the handler sends goes to the back of the channel |
| SystemClass.ActorSystem.RemoveActor | src/system.rs:105-110 | afterwards a spawned actor is gone and has stopped, once, whether it was there or not, and no other actor has changed or stopped |
| SystemClass.ActorSystem.RunOnce | src/system.rs:75-82 | whenever it ends: the channel is empty, and the result is exactly the number of envelopes processed |
| SystemClass.ActorSystem.StopAllActors | src/system.rs:112-117 | no actor is left and each has stopped once |
| SystemClass.ActorSystem.Run | src/system.rs:60-72 | whenever the event loop returns: every message that arrived was accepted, in the order of arrival, every envelope is decided by the reference, the channel is empty, and every actor ever spawned has stopped exactly once |
| SystemClass.TestKit.RunUntilIdle | src/testkit.rs:51-53 | without outside senders the first pass does all the work and the next one finds nothing |
| SystemRun.ReturnsOnlyWhenDone | src/system.rs:60-72 | in every interleaving with clients, the loop returns only when no address is left outside, in an actor or in a message; then every accepted envelope is decided by the reference and every actor stopped once |
| SystemRun.RunKnown | src/addr.rs:35-43 | addresses being made from addresses only, envelopes are only ever sent to spawned actors |
| SystemRun.ClosedForGood | src/system.rs:62-63 | once no sender is left nothing is ever accepted again |
| SystemRun.ReturnsOnceClosed | src/system.rs:65-71 | and the loop can then always run on to its return |
| SystemRun.ReturnsWhenDropped | src/system.rs:57-59 | so when no actor and no message holds an address, the program can end the loop by dropping its own |
| SystemRun.LeakedAddressWorks | src/addr.rs:35-43 | an address a handler passes out can be sent to, and what is sent waits behind everything else |
| SystemRun.HeldAddressPreventsReturn | src/system.rs:57-72 | an actor that keeps an address and never stops keeps the loop from returning, in any continuation |
| SupervisorClass.Supervisor.RegisterChild | src/supervisor.rs:42-47 | touches no child, and makes no report fail that did not fail before |
| SupervisorClass.Supervisor.StartAll | src/supervisor.rs:50-56 | the loop appends one child per factory, in order, each with count zero |
| SupervisorClass.Supervisor.HandleFailure | src/supervisor.rs:61-83 | in place, the specified response to a failure: removal at the limit, else the strategy |
| SupervisorClass.Supervisor.RestartOne | src/supervisor.rs:90-112 | replaces the child at its position, moving its count on by one; unknown children and positions beyond the factories change nothing |
| SupervisorClass.Supervisor.RestartAll | src/supervisor.rs:114-131 | the loops overwrite the first children, append the missing ones, and leave counts of zero for exactly the new ones |
| SupervisorSpec.FailCurrent | src/supervisor.rs:61-83 | a current child at its limit is removed, any other is restarted, and its position never exceeds the factories |
| SupervisorSpec.FailUnknown | src/supervisor.rs:97-111 | a report about a stale or unknown child does nothing |
| SupervisorSpec.RestartBudget | src/supervisor.rs:68-73 | over every sequence of reports: at most maxRestarts restarts per registered child, exactly that many for a removed one, restarts and remaining budget add up to children times maxRestarts |
| SupervisorSpec.EachFailureSpends | src/supervisor.rs:90-112 | a failure of a current child spends exactly one unit of the remaining budget, or removes the child if its lineage has used maxRestarts |
| SupervisorSpec.FactoryShift | src/supervisor.rs:96-108 | the replacement is made by the child's own factory minus the number of removed children registered before it; by its own exactly when there are none |
| SupervisorSpec.AlignedWithoutRemoval | src/supervisor.rs:50-56 | on every run without a removed child, child i was made by factory i |
| SupervisorSpec.StartKeeps | src/supervisor.rs:50-56 | start_all keeps every child it finds, with position and count, and puts one new child per factory, with count zero, behind them |
| SupervisorSpec.StartAgainKeeps | src/supervisor.rs:50-56 | so, over every sequence of calls, a further start changes no child's position and no child's count |
| SupervisorSpec.RestartAllAt | src/supervisor.rs:114-131 | the new children take the first positions, a child beyond the factories stays, and only the new ones have counts |
| SupervisorSpec.RemovalKeeps | src/supervisor.rs:68-73 | a child at its limit goes with its count, all others close up in order with theirs |
| SupervisorSpec.ReplacementKeeps | src/supervisor.rs:90-112 | a replacement takes the failed child's position with one restart more, all others keep position and count |
| SupervisorSpec.IndexSafeIff | src/supervisor.rs:97-105 | over every sequence of registrations, starts and reports: no report can index the factories out of bounds if and only if the strategy is all for one or every child beyond the factories is at its limit |
| SupervisorSpec.NoFactoryAt | src/supervisor.rs:103-103 | and a report does so exactly if it is about such a child |
| SupervisorSpec.StartTwiceFails | src/supervisor.rs:103-103 | the shortest witness: one factory, started twice |
| SupervisorSpec.AllForOneForEver | src/supervisor.rs:114-131 | over every sequence of reports after one start, stale ones included: counts for exactly the children, all zero; a positive limit is never reached and every report restarts all, a limit of zero removes each reported child and restarts nothing |
| SupervisorSpec.AllForOneNeverCounts | src/supervisor.rs:61-83 | each single report keeps that |
| SupervisorSpec.SiblingsLiveOn | src/supervisor.rs:114-131 | in the bookkeeping of live actors, each report of a current child changes their number by the number of factories less one |
| SupervisorSpec.AllForOnePilesUp | src/supervisor.rs:9-9 | k failures of current children of n factories leave n + k * (n - 1) live actors |
| SupervisedRuntime.CallStopsNobody | src/supervisor.rs:50-131 | in the runtime, in every interleaving and under both strategies: between the call of `start_all` or `handle_failure` and its return nobody leaves the map of the supervisor's worker, no stopped hook of theirs runs, and everyone the call made is in that map |
| SupervisedRuntime.CallCanRun | src/context.rs:76-98 | and every such call can run: each factory spawns by exactly one begin and one insert of the calling worker's handler |
| SupervisedRuntime.LiveOrStopped | src/supervisor.rs:50-131 | over every run, any calls and any stops: the supervisor is what its calls make of it, and of everyone it ever made exactly those are in the worker's map or dispatch whose stopped hook has not run; their numbers add up to the factory calls |
| SupervisedRuntime.RestartsPileUp | src/supervisor.rs:114-131 | all for one, in every run: after the start of n factories and k reports of anybody, those alive and those stopped are n + k * n |
| SupervisedRuntime.SiblingsLiveOnInRuntime | src/supervisor.rs:9-9 | so if exactly the reported children have stopped, maps and dispatch hold exactly the live actors of that bookkeeping, n + k * (n - 1) of them |
| StateMachines.StateMachine.Handle | src/stateful.rs:124-131 | message k is handled in state k modulo the cycle; moves on also when stopping, but not on a panic; and is what the machine does as an actor of the runtime |
| StateMachines.HandleAll | src/stateful.rs:64-131 | a machine from `new` through any sequence of messages: message k is handled in state k modulo the cycle by the wrapped actor as the messages before left it, until one stops it or panics |
| StateMachines.RunCycles | src/stateful.rs:124-131 | message k of a machine meets its fate in state k modulo the cycle, for every sequence of messages |
| StateMachines.KthMessageInKthState | src/stateful.rs:10-20 | in every reachable state of the runtime, whatever is interleaved, the k-th envelope accepted for a machine was handled in state k modulo the cycle, unless a shutdown discarded it |
| StateMachines.MachineGoesOn | src/stateful.rs:124-131 | while the machine has not stopped, its wrapped actor was there for the k-th message and replied from that state |
| StateMachines.CyclesBeginInInitialState | src/stateful.rs:64-75 | cycles begin in the initial state if and only if the sequence does |
| PlacementSpec.IdentitiesCollide | src/spawner.rs:41-43 | two allocations give the same identity exactly when a multiple of 2^64 of them lies between, never below 2^64 |
| PlacementSpec.RunIdentities | src/spawner.rs:41-43 | in every run of the runtime the next identity is the one after those allocated so far, from 1 on |
| PlacementSpec.LoadsBalanced | src/spawner.rs:45-47 | loads differ by at most one until the counter wraps and by at most one more per wrap; by at most one for ever if the workers divide its range |
| PlacementSpec.WrapsUnbalance | src/spawner.rs:45-47 | otherwise each wrap adds exactly one to the difference of the first and the last worker |
| PlacementSpec.RunBalanced | src/runtime.rs:198-200 | in every run of the runtime, for any range of the placement counter and whatever the order of the spawning threads, their shares obey that bound |
| PlacementSpec.RunUnbalanced | src/spawner.rs:45-47 | and runs that pass wraps meet it: if the workers do not divide the range, some run leaves the first worker exactly one spawn per wrap ahead of the last |
| SpawnerClass.SpawnShared.AllocateId | src/spawner.rs:41-43 | in place, the next identity of the wrapping counter |
| SpawnerClass.SpawnShared.PickWorker | src/spawner.rs:45-47 | in place, the next worker of the wrapping counter |

## Left out

- Threads, memory orderings, mutex poisoning and real time: lock sections, atomics and channel operations are single steps; the timeouts of the wait and of `Runtime::run` are steps that can happen at any time.
- Steps that take in two shared operations: confirming a spawn (insert into the map, then answer), ending a handler (the reply, then the put-back or the stopped hook), removing an actor at shutdown (out of the map, then its stopped hook), and the end of a thread (control receiver, message receiver and scheduler are dropped together). The moments in between are not states of the model.
- Type erasure, downcasting and panic texts: a dispatch closure is a function on the actor it is made for.
- What handlers send and spawn in the multi-threaded model is not tied to the handler: it is any send or spawn step at any moment while the handler runs, which includes whatever a given handler does. So is the `Runtime::spawn` a handler waits for: any request that is queued.
- A handler's outcome depends on its actor's state and its message only, not on the answers to its own blocking sends; a handler whose `Runtime::spawn` is abandoned by an exiting worker ends as that outcome says, where the code panics.
- Stopped hooks are one event each; a stopped hook that itself sends, spawns or panics is not modelled, nor are sends of started hooks in the single-threaded system.
- Panics in the single-threaded runtime: it does not catch them, so its handlers do not panic in the model.
- Dropping the `Runtime` is a shutdown request to each worker and the loss of the handle, as two kinds of step; joining the threads is not modelled.
- The identity counter of the runtime machine stops at its last value; what happens when it wraps is stated by `PlacementSpec.IdentitiesCollide`.
- WorkerClass.WorkerThread.Pass: describes a pass undisturbed by other threads, with a handler that only computes; interleaved steps are the business of the state machine, of which the pass is a run, and of `FairRuns`. The endless outer loop is its repetition.
- SystemClass.ActorSystem.Run: is given what the rest of the program sends as a finite list of batches, one before each receive; what others send while a handler runs counts for the next receive. The statement for arbitrary interleavings is `SystemRun.ReturnsOnlyWhenDone`. Its condition on the handlers is that the loop ends.
- SystemRun.ReturnsOnceClosed: says that a return is always possible, not that a scheduler of threads brings it about.
- Factories of a supervisor are known by their order of registration and return identities of a given supply, fresh for the theorems over runs; in the runtime the supply is what the identity counter hands out. A factory spawns one actor through the context of the calling handler; what else it does is any step of the runtime.
- `actor_count`, `num_workers`, `children`, the accessors of `StateMachine` and `TestProbe`, `Display`, the unused global counter of src/actor.rs, examples and the main program: they would add easy members only.
