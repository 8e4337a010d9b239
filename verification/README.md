# FEO in Dafny

A model of the FEO runtime (Fixed Execution Order) and proofs about it. FEO runs a graph of
activities once per cycle. A scheduler sends signals to worker threads, directly or through relays
between processes; workers run the activities, which exchange data over topics in shared memory.

`dafny verify dfyconfig.toml` checks the project.

## What is modelled

- **Signalling protocol** (`Protocol`, `Lanes`, `Bodies`). Scheduler and workers form one transition
  system. A move is one send or receive of the scheduler, or one receive, one atomic memory access or
  one answer of a worker. Graph, assignment to workers, activity code and the order of moves are
  arbitrary. `Invariants` and `Preservation` hold the inductive invariant; `ExecutionOrder`,
  `Progress`, `Conservation` and `Shutdown` state what follows from it, `TopicSafety` and
  `Determinism` combine it with the lock and with a sequential reference semantics (`Sequential`).
- **Scheduler and worker code** (`Scheduler.dfy`, `Worker.dfy`) as classes whose loops are proved to
  stay inside the protocol, against every behaviour of the surroundings (`Surroundings`), to end for
  the stated causes only, and to get done what there is to do where the surroundings answer.
- **Access-control word** (`AccessWord`, `LockMachine`, `AccessControl.dfy`): every load and every
  compare-exchange is one step; the retry loops run against arbitrary interference.
- **Composite optimiser** (`Composites`, `Optimizer`, `Configuration`, `Placement`,
  `CompositeActivity.dfy`): chain search, graph transformation, and why it preserves meaning.
- **Sockets** (`Codec`, `Connection.dfy`, `Server.dfy`): the encoding, the receive buffer over an
  arbitrarily fragmented stream, the receive call over many connections.
- **Relays** (`Relay`, `Replies`, `RelayConnectors`): both directions of relayed signalling as
  refinements of one FIFO per worker.

## Where code and documentation differ

The model follows the code.

- The design of the shutdown says that all activities are confirmed to be shut down before the
  termination phase, and that Ready confirms a shutdown. After a failure or timeout in a cycle a Ready
  of an unfinished step confirms it just as well (`StaleExample.StaleConfirmation`), and the wait may
  end by timeout. `Shutdown.TruthfulConfirmation` gives the exact condition, and
  `Shutdown.ShutdownRanOnce` what holds in any case.
- The relay hello has an encoding but no decoding, and times above 64 bits are encoded but not decoded:
  `Codec.RoundTrip` states both sides.
- The second renaming of map keys in the optimiser never applies, because the last activity of a chain
  was removed from the keys just before. It is not in the model.

- The consistency check accepts an activity that is assigned to two workers. The optimiser then changes
  what workers run (`Placement.SecondWorkerLoses`); `Placement.RunsAsBefore` gives the exact condition
  under which it does not.

## Reading the model

- `Lane` keeps the history of the two channels of one worker: requests sent and how many were taken,
  answers given and how many were received. The queues are the parts in between.
- A shared answer channel of all workers is modelled as one queue per worker from which the scheduler
  may take in any order, which admits every order of a shared queue and more.
- Time enters as nondeterminism: any receive may time out, any deadline may have passed.
- `Disciplined` is the assumption of the shared-memory backend: one writer per topic, and every reader
  depends on it, directly or through others.
- `Relay.Valid` describes a wired system: a remote worker has at least one activity, since a secondary
  relay knows its workers through their activities only.
- `environment`, `arrivals`, `others` and `incoming` list what the surroundings do; the contracts hold
  for all of them. An `Event` of the scheduler's environment is what happens while it waits once: the
  moves of the workers, whose answers may be delivered then, and whether a deadline has passed. The
  flag of the event after a complete cycle is the stop flag.
- An event is `Prompt` if it is in time and delivers some answer whenever one is due. Results that say
  that something does happen assume prompt events (`Surroundings`), and `Attentive` shows that there
  are some. `calm` means that no activity fails.
- `Front` is what one connection has within reach: its window, and what its stream will deliver.

## Model

| member | source | states |
|---|---|---|
| `Preservation.ReachableInv` | src/feo/src/scheduler.rs:100-188 | In every reachable state of scheduler and workers, for every graph and interleaving: per worker the k-th answer answers the k-th request and Terminate comes last; per activity everything asked is one lifecycle, and open requests, triggered, ready and ever-ready flags agree |
| `Preservation.MoveKeepsInv` | src/feo/src/scheduler.rs:100-349 | Each send, receive, timeout or stop of the scheduler and each receive, memory access or answer of a worker keeps that invariant |
| `ExecutionOrder.DependencyOrder` | src/feo/src/scheduler.rs:191-211 | The k-th step of an activity begins only after the k-th step of each of its scheduled dependencies has succeeded |
| `ExecutionOrder.TransitiveOrder` | src/feo/src/scheduler.rs:191-211 | The same along any chain of dependencies |
| `ExecutionOrder.CycleBarrier` | src/feo/src/scheduler.rs:137-158 | No activity begins step k+1 before all have completed step k, so completed step counts differ by at most one |
| `ExecutionOrder.StartupsFirst` | src/feo/src/scheduler.rs:117-134 | No step of any activity begins before the startup of every activity has succeeded |
| `ExecutionOrder.LifecycleLanguage` | src/feo/src/worker/mod.rs:119-162 | The calls on an activity are a prefix of: one startup, some steps, one shutdown |
| `Progress.AlwaysWorking` | src/feo/src/scheduler.rs:148-158 | On an acyclic graph, while not all activities are ready, stepping leaves one triggered and not ready, so the wait has something to wait for |
| `Progress.ReadyIsNews` | src/feo/src/scheduler.rs:361-393 | Every Ready received in the two waiting loops makes one more activity ready |
| `Progress.CycleLength` | src/feo/src/scheduler.rs:137-158 | During a cycle all activities are ready if and only if exactly as many Ready signals have been received as there are activities |
| `Progress.CyclesNeverRun` | src/feo/src/scheduler.rs:191-211 | Members of a set in which everybody depends on another member are never asked to step, and the first cycle never ends |
| `Progress.NeverTriggered` | src/feo/src/scheduler.rs:201-209 | An activity on, or downstream of, a dependency cycle is never asked to step |
| `Progress.OnlyAcyclicCompletes` | src/feo/src/scheduler.rs:137-158 | A second cycle begins only if the graph is acyclic |
| `Conservation.OneOutstanding` | src/feo/src/scheduler.rs:141-158 | Queued requests plus the running call plus queued answers of an activity are one while it is triggered and not ready, else none; during startup one from its Startup until its Ready |
| `Conservation.ChannelsNeverFull` | src/feo/src/signalling/common/mpsc/primitives.rs:22-29 | During startup and stepping all channels together hold at most as many signals as there are activities, so with at most 128 of them no send blocks |
| `Shutdown.ShutdownRanOnce` | src/feo/src/scheduler.rs:237-310 | Once a worker has received Terminate, each of its activities ever recorded as ready has been through startup, steps and exactly one shutdown, last; the others had their startup only; nothing is left in the channel |
| `Shutdown.ShutdownBeforeTerminate` | src/feo/src/scheduler.rs:242-310 | When Terminate is sent, Shutdown is in the channel of exactly the activities that were ever ready |
| `Shutdown.TruthfulConfirmation` | src/feo/src/scheduler.rs:281-296 | An answer that takes an activity off the pending set answers its own Shutdown if and only if it had no unanswered request when the shutdown began |
| `Shutdown.StaleAtCycleEnd` | src/feo/src/scheduler.rs:179-187 | After a completed cycle no activity has an unanswered request, so all confirmations are truthful |
| `Shutdown.StaleAtStartup` | src/feo/src/scheduler.rs:117-134 | A shutdown during startup finds no unanswered request of any started activity |
| `Shutdown.StaleInCycle` | src/feo/src/scheduler.rs:148-158 | A timeout in a cycle leaves unanswered exactly the requests of the activities that are triggered and not ready |
| `Shutdown.StaleAfterFailure` | src/feo/src/scheduler.rs:371-377 | A failure in a cycle leaves the same ones unanswered, except the one that failed |
| `StaleExample.StaleConfirmation` | src/feo/Design/shutdown_sequence.md:38-46 | A concrete reachable state in which a Ready left over from a step is about to confirm a shutdown the worker has not received |
| `Surroundings.OnlyNewsArrives` | src/feo/src/scheduler.rs:361-394 | While waiting, nothing but Ready and ActivityFailed of scheduled activities can arrive: the two branches for other signals are dead and the state lookup cannot fail |
| `Surroundings.WorkIsRun` | src/feo/src/worker/mod.rs:69-117 | Every run of the workers is one of the things that may happen during an event, so the events quantified over leave nothing out |
| `Surroundings.ReadyArrives` | src/feo/src/scheduler.rs:361-393 | While some activity works and none fails, an event in which a due answer is delivered brings a Ready |
| `Surroundings.ConfirmProgress` | src/feo/src/scheduler.rs:273-297 | While confirmations are pending an answer is due, and an event that delivers one leaves one fewer to receive |
| `Surroundings.AckProgress` | src/feo/src/scheduler.rs:332-345 | While a remote agent has not acknowledged an answer of one of its workers is due, and an event that delivers one leaves one fewer to receive |
| `Attentive.TurnsArePrompt` | src/feo/src/worker/mod.rs:69-117 | Surroundings that answer everything exist: where steps wait for nothing, a turn for every worker delivers an answer in every reachable state in which one is due |
| `Schedulers.StepsSent` | src/feo/src/scheduler.rs:191-211 | Between two reachable states of one cycle, an activity got one Step if it was triggered in between, and nothing otherwise |
| `Schedulers.Visited` | src/feo/src/scheduler.rs:194-210 | The outcome of stepping does not depend on the order in which the map is iterated |
| `Schedulers.Scheduler.constructor` | src/feo/src/scheduler.rs:54-90 | The initial flags make a reachable state |
| `Schedulers.Scheduler.StepReadyActivities` | src/feo/src/scheduler.rs:191-211 | Exactly the untriggered activities whose scheduled dependencies are ready become triggered, and each of them, and nobody else, gets one Step |
| `Schedulers.Scheduler.StartActivities` | src/feo/src/scheduler.rs:106-114 | Startup goes to every activity once, in ascending order of ids, into the channel of its worker and no other |
| `Schedulers.Scheduler.WaitNextReady` | src/feo/src/scheduler.rs:361-393 | The outcome is the signal that the next event delivers, after the work of the others in it: a Ready makes one activity that was not ready ready; a failure, or nothing delivered, starts the shutdown with exactly the ever-ready activities pending and leaves the flags |
| `Schedulers.Scheduler.WaitForStartup` | src/feo/src/scheduler.rs:116-134 | Ends with all ready, or enters the shutdown because the next event is past the deadline or brings no Ready; no event past the deadline is waited for; with one answering event per activity and no failure it ends with all ready |
| `Schedulers.Scheduler.RunCycle` | src/feo/src/scheduler.rs:137-158 | One pass of the task chain ends with all activities ready, or enters the shutdown because an event brings no Ready, and by then every activity whose dependencies are ready has been asked to step; on an acyclic graph, with two answering events per activity and no failure, it ends with all ready |
| `Schedulers.Scheduler.AskAll` | src/feo/src/scheduler.rs:148-150 | Before each wait whatever can run has been asked to, and on an acyclic graph somebody is at work then |
| `Schedulers.Scheduler.Pause` | src/feo/src/scheduler.rs:163-183 | After a complete cycle the next one begins exactly if something more happens and the stop flag is not set then |
| `Schedulers.Scheduler.WaitForConfirmations` | src/feo/src/scheduler.rs:273-297 | Waiting ends when no confirmation is pending, at the first event past the deadline, or when nothing more happens, and not before; with as many answering events as answers are due nothing is pending at the end |
| `Schedulers.Scheduler.ConfirmNext` | src/feo/src/scheduler.rs:281-296 | One turn of the wait receives exactly what the event delivers, and nothing past the deadline |
| `Schedulers.Scheduler.WaitForAcknowledgements` | src/feo/src/scheduler.rs:332-345 | Waiting ends when every remote agent has acknowledged, at the first event past the deadline, or when nothing more happens, and not before; with as many answering events as answers are due all agents with workers have acknowledged |
| `Schedulers.Scheduler.AcknowledgeNext` | src/feo/src/scheduler.rs:332-345 | One turn of the wait receives exactly what the event delivers, and nothing past the deadline |
| `Schedulers.Scheduler.ReceiveConfirmation` | src/feo/src/scheduler.rs:281-295 | Ready and ActivityFailed take their activity off the pending set; other signals change nothing |
| `Schedulers.Scheduler.ShutdownGracefully` | src/feo/src/scheduler.rs:237-302 | Terminates whatever arrives; goes on to the termination only with all confirmations, late, or when nothing more happens; with enough answering events nothing is missing in either wait |
| `Schedulers.Scheduler.TerminateAllAgents` | src/feo/src/scheduler.rs:305-349 | Terminate goes to every worker; the run ends only with all acknowledgements, late, or when nothing more happens |
| `Schedulers.Scheduler.Run` | src/feo/src/scheduler.rs:100-188 | For every behaviour of workers, clock and stop flag: why the run stopped (startup or cycle given up, stop flag, or no more events) and in which state; no cycle follows a pause with the stop flag set; each activity was asked for startup, its steps, and a shutdown exactly if it was ever ready, and Terminate is last in every channel; on an acyclic graph with surroundings that answer and no failure, the number of cycles begun is bounded below by the number of events |
| `Schedulers.EnoughFor` | src/feo/src/scheduler.rs:137-184 | With events enough for k cycles, more than k cycles are begun |
| `Workers.Worker.Run` | src/feo/src/worker/mod.rs:69-117 | Leaves after the first arrival that makes it leave, for the stated cause; until then one signal was taken per delivery and answered as the activity returned, in order; calls are the requests taken, in order; with reliable channels and expected signals it leaves cleanly exactly if a Terminate was among the signals delivered |
| `Workers.Worker.HandleActivitySignal` | src/feo/src/worker/mod.rs:119-162 | An unknown activity is an error without call or answer; otherwise the method is called once and answered with Ready or ActivityFailed |
| `Workers.ServesLane` | src/feo/src/worker/mod.rs:69-117 | What such a worker leaves in its channels satisfies the protocol law for its lane |
| `TopicSafety.NoOverlap` | src/feo/src/scheduler.rs:191-211 | Of two activities in the middle of a step, neither depends on the other |
| `TopicSafety.TopicExclusion` | src/feo-com/src/linux_shm/mod.rs:20-25 | With one writer per topic and all readers depending on it, no step that may read a topic overlaps one that may write it, in any reachable state |
| `TopicSafety.OnlyTooManyReaders` | src/feo-com/src/linux_shm/shared_memory.rs:85-137 | Under the task chain an access panics if and only if it opens a read guard while 65534 are held; in particular the drop check after send passes |
| `TopicSafety.NobodyPanics` | src/feo-com/src/linux_shm/shared_memory.rs:200-212 | Over whole runs with fewer than 65534 read guards per topic no lock assertion fires |
| `Guards.ActKeeps` | src/feo-com/src/linux_shm/shared_memory.rs:85-137 | Guards are held only by activities in the middle of a step that uses the topic, whatever atomic access comes next |
| `Determinism.CycleIsSequential` | src/feo-com/src/linux_shm/mod.rs:20-25 | Any interleaved run of a complete cycle leaves exactly the topic values and activity states of running the steps one by one in any legal order, and those steps all finish |
| `Determinism.RunsAgree` | src/feo/src/scheduler.rs:136-158 | Two complete runs of a cycle from one state end with the same topic values and activity states, however they interleave |
| `Determinism.CompleteMeansAcyclic` | src/feo/src/scheduler.rs:148-158 | A cycle can complete only if the graph is acyclic |
| `Sequential.OrderIffAcyclic` | src/feo/src/scheduler.rs:201-205 | An order that respects the scheduled dependencies exists if and only if the graph is acyclic |
| `Sequential.LegalIsTopological` | src/feo/src/scheduler.rs:201-205 | A legal order lists every activity once, after its scheduled dependencies |
| `AccessWord.AtomicKeeps` | src/feo-com/src/linux_shm/shared_memory.rs:85-137 | One load or compare-exchange of any operation keeps word and guards consistent and takes no guard from another thread |
| `LockMachine.LockWordInvariant` | src/feo-com/src/linux_shm/shared_memory.rs:85-137 | Whatever the threads do and however their accesses interleave, the word is 65535 exactly while a write guard is held, without any read guard, and otherwise the number of read guards, at most 65534 |
| `LockMachine.WhichAssertionsFire` | src/feo-com/src/linux_shm/shared_memory.rs:88-136 | For each operation, in any reachable situation, exactly when its assertion fails in terms of the guards held |
| `LockMachine.SentGuardCanPanic` | src/feo-com/src/linux_shm/shared_memory.rs:200-212 | Without the task chain a correctly sent write guard can panic: a concrete interleaving |
| `AccessControl.RunOfOthers` | src/feo-com/src/linux_shm/shared_memory.rs:85-137 | Every run of the other threads is among the interferences the operations below are proved against |
| `AccessControl.ReadWriteAccessControl.LockRead` | src/feo-com/src/linux_shm/shared_memory.rs:85-99 | The retry loop ends with one more read guard, or panics on a writer or 65534 readers, under any interference; the steps are a run of the lock machine |
| `AccessControl.ReadWriteAccessControl.UnlockRead` | src/feo-com/src/linux_shm/shared_memory.rs:101-115 | Gives back one read guard; neither assertion fails under any interference |
| `AccessControl.ReadWriteAccessControl.LockWrite` | src/feo-com/src/linux_shm/shared_memory.rs:117-124 | Takes the write guard if no guard is held, else panics |
| `AccessControl.ReadWriteAccessControl.Send` | src/feo-com/src/linux_shm/shared_memory.rs:200-212 | The unlock never fails; the drop check after it fails exactly if somebody else holds a guard by then |
| `AccessControl.ReadWriteAccessControl.DropUnsent` | src/feo-com/src/linux_shm/shared_memory.rs:206-212 | Dropping an unsent write guard always panics and leaves the word locked |
| `Composites.FindComposites` | examples/rust/cycle-benchmark/src/composites.rs:93-175 | Returns exactly the maximal chains, each once, in any iteration order of the maps, and terminates on every graph |
| `Composites.Walk` | examples/rust/cycle-benchmark/src/composites.rs:141-166 | Following links from a start never returns to a visited activity and ends where no link goes on |
| `Composites.LinkByMaps` | examples/rust/cycle-benchmark/src/composites.rs:99-125 | The two collected relations together hold exactly for links: single dependant, single dependency, same worker |
| `Composites.SkipTest` | examples/rust/cycle-benchmark/src/composites.rs:132-139 | The skip test is true exactly for activities some link leads to |
| `Composites.ChainsDisjoint` | examples/rust/cycle-benchmark/src/composites.rs:130-172 | Two maximal chains that share an activity are the same chain |
| `Composites.NoRepeats` | examples/rust/cycle-benchmark/src/composites.rs:144-166 | A chain with a start contains no activity twice, on cyclic graphs too |
| `Composites.OneWorker` | examples/rust/cycle-benchmark/src/composites.rs:115-123 | All activities of a chain run on one worker |
| `Composites.LinksCovered` | examples/rust/cycle-benchmark/src/composites.rs:93-175 | On an acyclic graph every link lies on a maximal chain |
| `CompositeActivities.CompositeActivity.constructor` | examples/rust/cycle-benchmark/src/composites.rs:30-39 | A composite starts with its components and no calls made |
| `CompositeActivities.CompositeActivity.Startup` | examples/rust/cycle-benchmark/src/composites.rs:48-53 | Components are started in order up to the first failure, which is the result |
| `CompositeActivities.CompositeActivity.Step` | examples/rust/cycle-benchmark/src/composites.rs:56-62 | Components are stepped in order up to the first failure, which is the result |
| `CompositeActivities.CompositeActivity.Shutdown` | examples/rust/cycle-benchmark/src/composites.rs:65-70 | Components are shut down in order up to the first failure, which is the result |
| `CompositeActivities.StepExpanded` | examples/rust/cycle-benchmark/src/composites.rs:56-62 | Stepping composites one after the other is stepping their components in the expanded order |
| `CompositeActivities.OptimisedCycle` | examples/rust/cycle-benchmark/src/config.rs:178-239 | Stepping the composites in any legal order of the optimised graph computes the topic values and activity states of any complete cycle of the original system |
| `CompositeActivities.OptimisedOrder` | examples/rust/cycle-benchmark/src/config.rs:178-239 | For an acyclic original such an order exists, and it steps every original activity exactly once after its dependencies |
| `Optimizer.ExactQuotient` | examples/rust/cycle-benchmark/src/config.rs:199-219 | Between activities of different composites a transitively depends on b in the original graph if and only if the composite of a depends on that of b in the optimised one; no acyclicity needed |
| `Optimizer.AcyclicityKept` | examples/rust/cycle-benchmark/src/config.rs:199-219 | The optimised graph is acyclic if and only if the original is |
| `Optimizer.RepCases` | examples/rust/cycle-benchmark/src/config.rs:188-193 | Each activity lies in at most one chain and is represented by the first of it, or by itself |
| `Optimizer.EntryEdge` | examples/rust/cycle-benchmark/src/config.rs:207-219 | From outside a chain only its last activity is depended on, so dropping the others from dependency lists loses nothing |
| `Configuration.ActivityWorkerMap` | examples/rust/cycle-benchmark/src/config.rs:104-109 | Every assigned activity is mapped to a worker it is assigned to |
| `Configuration.ReplaceStep` | examples/rust/cycle-benchmark/src/config.rs:205-219 | Working off one more chain turns the quotient by the chains so far into the quotient by one more |
| `Configuration.ReplaceAllIsQuotient` | examples/rust/cycle-benchmark/src/config.rs:199-236 | Working off all chains one by one yields the graph of the representatives |
| `Configuration.Confluent` | examples/rust/cycle-benchmark/src/config.rs:199-236 | The result does not depend on the order in which the chains are worked off |
| `Configuration.OptimizeComposite` | examples/rust/cycle-benchmark/src/config.rs:178-239 | The loop over the chains yields the graph of the representatives and the chains as composites; every worker keeps exactly those of its activities that are still scheduled and gets no other; the result passes the consistency check |
| `Configuration.AssignmentsExact` | examples/rust/cycle-benchmark/src/config.rs:221-232 | For every worker and activity: assigned afterwards exactly if assigned before and still scheduled |
| `Placement.RunsWhere` | examples/rust/cycle-benchmark/src/config.rs:140-175 | A worker of the optimised configuration runs an activity exactly if the activity that represents it was assigned to that worker |
| `Placement.StillRuns` | examples/rust/cycle-benchmark/src/config.rs:104-109 | Every activity still runs on the worker the chain search took it to be on |
| `Placement.RunsAsBefore` | examples/rust/cycle-benchmark/src/config.rs:178-239 | Every worker runs exactly the activities it ran before if and only if the activities of each chain are assigned to the same workers |
| `Placement.UniqueRunsAsBefore` | examples/rust/cycle-benchmark/src/config.rs:178-239 | In particular if no activity is assigned to two workers |
| `Placement.SecondWorkerLoses` | examples/rust/cycle-benchmark/src/config.rs:301-346 | A configuration with an activity on two workers that passes the consistency check, and of which the second worker runs nothing once it is optimised |
| `Configuration.ConsistencyKept` | examples/rust/cycle-benchmark/src/config.rs:301-346 | What check_consistency demands holds again of the optimised configuration |
| `Configuration.CompositesKeyed` | examples/rust/cycle-benchmark/src/config.rs:234-235 | Every chain is found under the id of its first activity |
| `Configuration.MembersExact` | examples/rust/cycle-benchmark/src/config.rs:178-239 | Stepping k runs exactly the activities k stands for |
| `Configuration.MembersOnce` | examples/rust/cycle-benchmark/src/config.rs:221-232 | Each of them once, all on the worker of k |
| `Configuration.OrderPreserved` | examples/rust/cycle-benchmark/src/config.rs:178-239 | A legal order of the optimised graph with every composite replaced by its chain is a legal order of the original graph |
| `Codec.RoundTrip` | src/feo/src/signalling/common/socket/mod.rs:162-287 | Decoding an encoding followed by any bytes yields the signal and its exact length if it is not a relay hello and its times fit in 64 bits; otherwise decoding panics |
| `Codec.StrictPrefix` | src/feo/src/signalling/common/socket/mod.rs:217-230 | Every strict prefix of an encoding is recognised as incomplete |
| `Codec.FrontOfStream` | src/feo/src/signalling/common/socket/mod.rs:217-287 | At the front of a stream of encodings cut off anywhere the decoder sees the first signal once it is complete, and asks for more until then |
| `Codec.UniqueDecoding` | src/feo/src/signalling/common/socket/mod.rs:153-160 | A concatenation of encodings determines the signals |
| `Codec.TagRoundTrip` | src/feo/src/signalling/common/socket/mod.rs:312-350 | Tags determine signal kind and layout, except the tag of the relay hello, which the decoder does not know |
| `Codec.DataRoundTrip` | src/feo/src/signalling/common/socket/mod.rs:87-150 | Little-endian fields are read back as written; conversion fails exactly for times above 64 bits |
| `Codec.LeRoundTrip` | src/feo/src/timestamp.rs:181-188 | A number read back from its little-endian bytes is the number written |
| `Codec.EncodeTo` | src/feo/src/signalling/common/socket/mod.rs:162-215 | Writing tag, length and fields one after the other puts exactly the encoding into the buffer, at most 26 bytes |
| `Connections.Connection.constructor` | src/feo/src/signalling/common/socket/connection.rs:49-60 | An empty window is the beginning of the encodings of the messages to come |
| `Connections.Connection.Read` | src/feo/src/signalling/common/socket/connection.rs:85-103 | For any fragmentation and any placement of WouldBlock, nothing is skipped: a returned message is the next pending one and is taken off the bytes within reach, which are the window and what the stream has before it blocks; Nothing exactly if no message is within reach and the stream is in order, and then everything up to the WouldBlock is in the window; an error exactly if the stream ends before a message is complete and before the buffer is full |
| `Connections.Connection.ReadFromStream` | src/feo/src/signalling/common/socket/connection.rs:138-164 | Never called with a full buffer; goes on until WouldBlock, an error, or a full buffer; the mark is lowered only at a WouldBlock with everything before it appended to the window |
| `Connections.UpToStop` | src/feo/src/signalling/common/socket/connection.rs:138-164 | What reading leads up to, in terms of positions: the bytes of all chunks before the first arrival that is none, that arrival, and what follows it |
| `Connections.Connection.ParseFromBuffer` | src/feo/src/signalling/common/socket/connection.rs:167-189 | Takes exactly the first message out of the window if it is complete, else lowers the flag; the window then starts in the first half of the buffer |
| `Connections.Connection.ShiftBuffer` | src/feo/src/signalling/common/socket/connection.rs:192-203 | Moves the window to the front of the buffer and keeps its content |
| `Connections.Connection.Roomy` | src/feo/src/signalling/common/socket/connection.rs:167-189 | A window without a complete message ends before byte 90 of 128 |
| `Connections.Connection.Send` | src/feo/src/signalling/common/socket/connection.rs:106-118 | Appends the encoding of the message to the stream |
| `Connections.ParseStep` | src/feo/src/signalling/common/socket/connection.rs:167-189 | What is parsed from the window is the first pending message, and what remains is the encoding of the rest |
| `Connections.StreamRead` | src/feo/src/signalling/common/socket/connection.rs:138-164 | A read delivers a prefix of the next chunk and keeps the rest; zero bytes into a non-empty space mean a closed stream |
| `Servers.SocketServer.ReceiveOnReadableConnections` | src/feo/src/signalling/common/socket/server.rs:133-143 | No message exactly if no connection has one within reach and all streams are in order, and then every readable stream was read until it blocked; else the next message or the error of one connection, while the others were left alone or read in vain |
| `Servers.SocketServer.MarkReadable` | src/feo/src/signalling/common/socket/server.rs:80-90 | Exactly the known connections named by the events are marked as readable, and nothing else changes |
| `Servers.SocketServer.Receive` | src/feo/src/signalling/common/socket/server.rs:61-98 | If a connection has a message before the poll, one is returned without polling; else the outcome is that of the connections with the reported ones marked: a message complete before the next WouldBlock on a reported connection rules out an empty result, and on an empty result everything readable was read until it blocked |
| `Relay.RelayInvisible` | src/feo/src/signalling/relayed/connectors/relays.rs:246-321 | No step of a secondary relay changes the abstract inbox of any worker |
| `Relay.RefinesDirect` | src/feo/src/signalling/relayed/connectors/scheduler.rs:77-95 | In every run without resets, what a worker has received and what is on its way to it are exactly what the direct channel would contain, in order |
| `Relay.Simulates` | src/feo/src/signalling/relayed/connectors/scheduler.rs:89-164 | Every move of the relayed system is a send, a receive or nothing on the direct channel of each worker, and a worker that receives gets what is next there |
| `Relay.DeliveredOnce` | src/feo/src/signalling/relayed/connectors/relays.rs:281-321 | When nothing is on its way, every request for a worker has reached it once and in order, and Terminate once and last |
| `Relay.NotStuck` | src/feo/src/signalling/relayed/connectors/relays.rs:246-321 | While something is on its way to a worker with an empty queue, its relay can move |
| `Relay.TakeInvisible` | src/feo/src/signalling/relayed/connectors/relays.rs:216-243 | Nothing is lost in the wait for synchronisation, because StartupSync is in front |
| `RelayConnectors.SchedulerConnector.SendToActivity` | src/feo/src/signalling/relayed/connectors/scheduler.rs:89-95 | Exactly the channel that leads to the owning worker grows by the signal; an unknown activity is an error; a wired connector never fails otherwise |
| `RelayConnectors.SchedulerConnector.SendToWorker` | src/feo/src/signalling/relayed/connectors/scheduler.rs:77-87 | The exact error, or delivery to the local queue or the agent link |
| `RelayConnectors.SchedulerConnector.SyncTime` | src/feo/src/signalling/relayed/connectors/relays.rs:359-368 | StartupSync is the first signal on every link |
| `RelayConnectors.SchedulerConnector.BroadcastTerminate` | src/feo/src/signalling/relayed/connectors/scheduler.rs:156-164 | Terminate is added once to every link and every local queue |
| `RelayConnectors.SchedulerConnector.ConnectedAgentIds` | src/feo/src/signalling/relayed/connectors/scheduler.rs:132-138 | The connected agents are exactly those with a worker and the remote agents |
| `RelayConnectors.SecondaryReceiveRelay.ThreadMain` | src/feo/src/signalling/relayed/connectors/relays.rs:198-322 | Each local queue grows by exactly the signals routed to it that follow the first StartupSync and precede the loss of the link, in order |
| `RelayConnectors.SecondaryReceiveRelay.Forward` | src/feo/src/signalling/relayed/connectors/relays.rs:281-320 | A request goes to its activity worker, Terminate and StartupSync to all, anything else to nobody |
| `Replies.RelayInvisible` | src/feo/src/signalling/relayed/connectors/relays.rs:65-113 | No step of the two relays on the way back changes the abstract outbox of any worker |
| `Replies.AnswersInOrder` | src/feo/src/signalling/relayed/connectors/relays.rs:402-435 | In every run the answers of each worker received by the scheduler and those on their way are exactly the answers given, in order |
| `Replies.SchedulerTakes` | src/feo/src/signalling/relayed/connectors/scheduler.rs:140-150 | The scheduler receives the first answer of the outbox of its sender |

## Left out

- Real sockets, polling, accepting connections, thread creation, shared-memory mapping and topic
  discovery are foreign calls; streams, events and channels are parameters.
- The other communication backends, tracing, logging, timing statistics and the example activities.
- Wall-clock time, sleeping and time synchronisation; only the conversions of the encoding remain.
- Startup and shutdown bodies of activities do not touch topics in the model; step bodies do.
- Time stamps are erased in the protocol, since no component branches on them.
- Failing sends of the scheduler: channels are reliable and nothing is reset until Terminate.
- Relay.RefinesDirect: covers runs without connection resets, because the primary receive relay ends with the first one.
- Connections.Connection.Read: assumes a peer that sends encodings of decodable messages, because the decoder panics on anything else.
- Memory ordering: atomics are sequentially consistent.
- Connection handshakes: models start with connected channels. A multi receiver counts as connected even
  if its handshake loop ended by timeout; that state is not modelled.
- The direct connectors route by the same owner map without a relay; their plain lookups add nothing to the lanes.
- Which worker counts for an activity assigned to several is left open by `ActivityWorkerMap`, as it depends on the iteration order.
- Placement.RunsWhere: starts from a configuration without composites, which is what the benchmark builds (config.rs line 291).
- Panics leave the panicking activity stuck in its step; unwinding and its effect on other threads are not modelled.
