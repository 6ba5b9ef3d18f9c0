# LCI protocols and data structures in Dafny

LCI is a multithreaded communication runtime. This project models the parts of it whose correctness
is hard to see from the code: lock-free and lock-based structures shared by many threads, the
dataflow executor, the collectives, the rendezvous and eager protocols, and the process-management
fence. It proves what they promise on every interleaving, every rank count and every input.

`dafny verify dfyconfig.toml` checks the project.

## How the model is built

Sequential code keeps its form: classes with the source's fields (`QueueEngine`, `MapEngine`,
`LocalSet`, `Builder`, `ImmTagArchive`), methods with the source's loops, each proved against a
specification function or a stated property.

Concurrent code is a state machine. A thread has a program counter; one step is one atomic access,
one backend call, one socket message or one critical section, as the file says. `Exec` runs any list
of (thread, choice) pairs; a choice that is not possible changes nothing, so the theorems about
`Exec` hold for every interleaving, every backend answer and every spurious failure of a weak
compare-exchange. States carry history (what was sent, returned, accepted, run); the steps write
history and never read it to decide anything. The files `ShmRingCalls`, `BacklogCalls` and
`FaaQueueCalls`, `TcpFenceProof.PutBefore` and `PacketPool.Wanted` tie that history to the calls in the
list itself: what is in the ring, the backlog, the queue or the store is what callers passed.

The collectives share one engine (`Rounds`): ranks go through rounds of at most one receive and one
send over FIFO channels, entering whenever they like. Its theorems (`Determined`, `NeverStuck`,
`RunsAreBounded`, `NothingLeftOver`) hold for any schedule in which every send meets a receive; each
collective then proves that its locally computed schedules meet that condition for every rank count
and says what value comes out. A rank's rounds are a completion graph; `StagedGraph` proves that the
graphs the collectives build meet the conditions of the theorems about the executor and keep the
rounds in order.

| file | models |
|---|---|
| `ShmRing`, `ShmRingProof`, `ShmRingAnswers`, `ShmRingCalls` | `src/shm/ring.cpp` |
| `Matching`, `MatchingMap` | `src/matching_engine/matching_engine_queue.hpp`, `src/matching_engine/matching_engine_map.hpp` |
| `CompletionGraph`, `CompletionGraphProof`, `CompletionGraphLimits`, `CompletionGraphRestart` | `src/comp/graph.hpp` |
| `StagedGraph` | the shape of the graphs that the barrier and both broadcasts build |
| `Rounds`, `RoundsProof` | what the collectives have in common |
| `BinomialTree`, `TreeBroadcast`, `TreeReduce` | `src/collective/broadcast.cpp` (tree), `src/collective/reduce.cpp` |
| `Barrier`, `RingBroadcast` | `src/collective/barrier.cpp`, `src/collective/broadcast.cpp` (ring) |
| `EagerEncoding` | `src/core/communicate.cpp`, `src/core/progress.cpp`, `src/util/misc.hpp` |
| `Rendezvous`, `RendezvousProof`, `RendezvousArchive`, `RendezvousEnds`, `RendezvousInsertions` | `src/core/rendezvous.hpp`, `src/core/progress.cpp`, `src/data_structure/imm_tag_archive.hpp` |
| `PacketPool` | `src/data_structure/mpmc_set.hpp` |
| `Backlog`, `BacklogProof`, `BacklogCalls` | `src/backlog_queue/backlog_queue_inline.hpp`, `src/network/endpoint_inline.hpp` |
| `TcpFence`, `TcpFenceProof`, `TcpFenceEnds` | `lct/pmi/pmi_wrapper_tcp.cpp` |
| `FaaQueue`, `FaaQueueLimits`, `FaaQueueCalls` | `lct/data_structure/queue/queue_array_atomic_faa.hpp` |
| `RecvCredits` | `src/network/device_inline.hpp` |
| `Modular`, `Sums`, `Options` | arithmetic and types shared by the above |

## What the proofs found

- Ring broadcast: chunks tile the buffer if and only if
  `(nsteps - 1) * step_size <= size <= nsteps * step_size` (`TilesIff`, for every size). If the first
  part fails, the unsigned subtraction for the last chunk wraps around; the second part fails exactly
  when the sum in the rounded-up division wraps around, and then every chunk is empty
  (`WrappedSumFails`). The default number of steps, `nranks - 1`, does not always meet the condition:
  400 ranks and 65537 bytes do not (`DefaultStepsOverrun`), and this size selects the ring algorithm
  by default.
- Eager immediate data: the runtime asserts only that the two field widths add up to at most 31, but
  the receiver reads fixed 16- and 15-bit fields. On every network, messages always come through if
  and only if the tag field has at most 16 bits and the handler field at most 15, or the handler field
  has none (`RoundTripIff`).
- Array queue: nothing goes wrong as long as no push overwrites a cell whose previous position was not
  popped to the end (`ReturnedOnceNoneSkipped`), and the first push that does so with a different value
  puts a value where it does not belong (`OverfillMisplaces`). The debug assertion in `push` tests
  exactly this (`AssertionIsOverfillTest`); the other build does not test it. A caller that keeps the
  number of values between `bot` and `top` within the capacity is safe if and only if at most one
  thread pops (`CountSufficesIff`). With two, for every capacity, a popper that has claimed a value and
  is slow to read it gets the value of the next lap, which is then returned twice (`TwoPoppersFail`).
- Completion graph: `test` waits for the signals to END only. Its answer "done" means that nothing is
  in flight, in every run, if and only if every edge that leaves START or a node on the way to END
  leads to END or to a node with a path to END (`QuietIff`). Under the same condition a graph with a
  completion object is deleted only when nothing is in flight (`DeletionIff`). "Done" means that every
  node has completed if and only if every node has a path to END (`TruthfulIff`, `AcyclicTruthfulIff`).
  A graph whose END never gets all its signals is the trivial exception to all three. With the edges
  START to 2 and START to END, `test` reports done, and the graph is deleted, while node 2 is not done
  (`TwoEdgesFail`). The graphs that the collectives build meet the conditions (`StagedIsSound`).
- Completion graph, freeing: a graph without a completion object may be freed after `test` has
  reported done if and only if the call that sent the last signal has returned and no thread is
  between raising a counter and comparing it with the expected count, which is a field of the graph or
  of a node (`FreeingIsSafeIff`). The answer of `test` does not say so: on every graph with an edge
  to END that can finish, some run has `test` report done while the last signaller has still to read
  the graph's completion object (`FreeingTooEarly`). The blocking collectives free their graph at this
  point (`src/collective/barrier.cpp:101-108`). The deletion inside `mark_complete` needs the part about
  comparisons only (`DeletionIsSafeIff`); a two-node graph shows that it can fail, and that the log line
  after a node's function can read a deleted node (`ReadsAfterDeletion`).
- Rendezvous with write-with-immediate: an insertion into the tag archive can fail if and only if there
  are more transfers than slots (`InsertionsNeverFailIff`). A bound on the transfers that are live at a
  time helps little, because slots are freed behind the probe and filled again before it: with at most
  L live transfers an insertion can fail if and only if L is at least 2 and there are, over the whole
  run, more transfers than slots and at least `2 * slots + 2 - L` of them (`LimitedInsertionsIff`). Two
  live transfers are enough in a run of twice as many transfers as slots.

Where code and comments differ the model follows the code: the branch commented "receive from the
right" in the tree loops receives from the left.

## Model

| member | source | states |
|---|---|---|
| `ShmRingProof.InitializeAt` | src/shm/ring.cpp:65-95 | after initialization at any position, the next slot_count positions find their slots reusable for exactly them |
| `ShmRingProof.RingStaysConsistent` | src/shm/ring.cpp:182-346 | in every interleaving the producer is at most one generation ahead of the consumer, and no thread takes an inconsistency exit; reserve is fatal only at the maximum position |
| `ShmRingProof.LiveSlotsDisjoint` | src/shm/ring.cpp:151-156 | reserved, published, claimed and releasing positions never share a slot, also with one slot |
| `ShmRingProof.DeliveredExactlyOnceInOrder` | src/shm/ring.cpp:221-320 | every message is delivered exactly once, claims follow position order, and what is delivered is what was published there |
| `ShmRingProof.ViewShowsMessage` | src/shm/ring.cpp:268-320 | a view handed out shows rank, immediate data, size and bytes of its message until it is released |
| `ShmRingProof.ReserveDecision` | src/shm/ring.cpp:182-219 | a producer that loads the word of the current position goes on to its compare-exchange exactly when the slot is free; otherwise, whatever others do before its second look, it reports retry_nomem exactly when the position has not moved, and tries again when it has |
| `ShmRingAnswers.NomemWasTrue` | src/shm/ring.cpp:182-219 | in every run, a send that returns retry_nomem was in progress at a moment when the slot of the next position belonged to a message not yet released |
| `ShmRingProof.PollDecision` | src/shm/ring.cpp:268-320 | a consumer that loads the word of the current position goes on to its compare-exchange exactly when the next message is published; otherwise it reports an empty ring exactly when the position has not moved, and tries again when it has |
| `ShmRingAnswers.EmptyPollWasTrue` | src/shm/ring.cpp:268-320 | in every run, a poll that returns false was in progress at a moment when nothing was published at the next position, or had used up its attempts |
| `ShmRingProof.AvailableIsUpperBound` | src/shm/ring.cpp:131-139 | the approximate count covers every position between consumer and producer at its second load, never exceeds the slot count, and is exact if the consumer has not moved since the first load |
| `ShmRingProof.SoloSend` | src/shm/ring.cpp:182-252 | an undisturbed send, from its first load on, finishes and publishes its message at the producer position if that slot is free |
| `ShmRingProof.SoloPoll` | src/shm/ring.cpp:268-320 | an undisturbed poll hands out the next published message |
| `ShmRingCalls.SentByCalls` | src/shm/ring.cpp:254-266 | in every run, each message in the ring is rank, immediate data and bytes of one send that an idle thread began, and different positions come from different calls |
| `ShmRingCalls.TakenByCalls` | src/shm/ring.cpp:268-320 | in every run, each claimed position was claimed by one poll, and different positions by different polls |
| `ShmRingCalls.AnswersAreRight` | src/shm/ring.cpp:131-346 | in every run, a send returns done exactly when it has a position, where its message is published, and a fatal error for its arguments exactly when the rank is negative or the data too long; it gives up only after that many reservations by others as it has attempts; a poll is true exactly when it has claimed a position and handed its message out; a release is true exactly when the view was there, and its slot is free again; a count lies between what was there all the time and what was there at any time |
| `ShmRingCalls.PollRetries` | src/shm/ring.cpp:268-320 | in every run, a poll that has failed k times has seen k positions claimed by others, spurious failures apart |
| `ShmRingCalls.CallsAreBounded` | src/shm/ring.cpp:131-346 | every call takes a number of its own steps that is bounded by its arguments and the numbers of attempts, whatever other threads do |
| `ShmRingCalls.SendAlone` | src/shm/ring.cpp:254-266 | an undisturbed send with good arguments into a free slot is done, with exactly its message at the producer position |
| `ShmRingCalls.SendAloneFull` | src/shm/ring.cpp:182-219 | an undisturbed send without a free slot returns retry_nomem and changes nothing |
| `ShmRingCalls.PollAlone` | src/shm/ring.cpp:268-320 | an undisturbed poll hands out the next published message |
| `ShmRingCalls.PollAloneEmpty` | src/shm/ring.cpp:268-320 | an undisturbed poll without one returns false and changes nothing |
| `ShmRingCalls.ReleaseAlone` | src/shm/ring.cpp:322-346 | an undisturbed release of a view frees its slot for the position one generation later |
| `ShmRingCalls.ReleaseAloneUnknown` | src/shm/ring.cpp:322-346 | a release of a view that is not there returns false and changes nothing |
| `ShmRingCalls.AvailableAlone` | src/shm/ring.cpp:131-139 | an undisturbed count is the number of positions between consumer and producer |
| `Matching.LeftOver` | src/matching_engine/matching_engine_queue.hpp:14-39 | after any inserts, what waits under a key is the surplus of the longer side, in order: never both kinds |
| `Matching.PairsInOrder` | src/matching_engine/matching_engine_queue.hpp:14-39 | the i-th send of a key meets the i-th receive of that key: an insert returns its partner's value when that is there already, and nothing otherwise |
| `Matching.QueueEngine.Search` | src/matching_engine/matching_engine_queue.hpp:51-62 | removes and returns the first entry of the key and leaves the others in order |
| `Matching.QueueEngine.Insert` | src/matching_engine/matching_engine_queue.hpp:14-39 | the two lists follow first-come-first-served pairing |
| `MatchingMap.TakeFirst` | src/matching_engine/matching_engine_map.hpp:77-137 | takes the oldest value out of slots or node and counts the rest |
| `MatchingMap.Pop` | src/matching_engine/matching_engine_map.hpp:77-137 | returns the oldest value and keeps the rest in order, through node removal and the return to slots |
| `MatchingMap.ToSlots` | src/matching_engine/matching_engine_map.hpp:77-137 | a node with at most two values becomes slots with the same values in order |
| `MatchingMap.PushToSlots` | src/matching_engine/matching_engine_map.hpp:139-180 | appends, also when full slots turn into a linked node |
| `MatchingMap.PushToNodes` | src/matching_engine/matching_engine_map.hpp:139-180 | appends to the last node or to a new one |
| `MatchingMap.Push` | src/matching_engine/matching_engine_map.hpp:139-180 | the contents of the queue grow by the value at the end |
| `MatchingMap.SetupContents` | src/matching_engine/matching_engine_map.hpp:182-193 | a queue set up for a key holds exactly the value |
| `MatchingMap.ScanBucket` | src/matching_engine/matching_engine_map.hpp:331-354 | finds the live queue of the key and says of which kind, and the first empty queue |
| `MatchingMap.Unlink` | src/matching_engine/matching_engine_map.hpp:356-361 | taking a bucket of empty queues out of the chain loses nothing |
| `MatchingMap.Search` | src/matching_engine/matching_engine_map.hpp:329-364 | the search over the chain, with removal of empty buckets, loses nothing, finds a live queue of the key with its kind or shows that there is none, and any empty queue it reports is empty |
| `MatchingMap.AddQueue` | src/matching_engine/matching_engine_map.hpp:371-383 | a key without a queue gets one, an empty queue or one of a new bucket, holding exactly its value; nothing else changes |
| `MatchingMap.InsertInChain` | src/matching_engine/matching_engine_map.hpp:313-394 | a chain follows first-come-first-served pairing for its keys |
| `MatchingMap.MapEngine.Insert` | src/matching_engine/matching_engine_map.hpp:313-394 | the hash map follows first-come-first-served pairing for any hash function |
| `MatchingMap.DriveBoth` | src/matching_engine/matching_engine_map.hpp:313-394 | on every sequence of non-null inserts both engines return the same values |
| `CompletionGraph.Builder.AddNode` | src/comp/graph.hpp:176-182 | a new node expects no signal; the expected counts of the others stay right |
| `CompletionGraph.Builder.AddEdge` | src/comp/graph.hpp:184-203 | the expected count of every node, and of END, is its number of incoming edges |
| `CompletionGraphProof.RunsOnceAfterPredecessors` | src/comp/graph.hpp:90-174 | a node's function is called at most once per start, and only after all predecessors completed; on any graph that is started again only when nothing is in flight, which a graph without dead ends sees to itself |
| `CompletionGraphProof.CountersNeverOvershoot` | src/comp/graph.hpp:135-159 | the over-signal assertions never fail, under the same condition |
| `CompletionGraphProof.TestIsTruthful` | src/comp/graph.hpp:205-232 | on a graph without dead ends, when test reports done every node with a path to END ran once and completed, the others were not touched, all counters are zero and nothing is in flight, so start may be repeated |
| `CompletionGraphRestart.RunsAgain` | src/comp/graph.hpp:205-211 | a kept graph that test reports done can be started again by any idle thread: test then reports done no more if END has an edge, no node has run, START is being marked, and the run can be continued until test reports done and every node with a path to END has run once more |
| `CompletionGraphRestart.Finishes` | src/comp/graph.hpp:90-174 | every started run can be continued without a start until test reports done, with every node on a path to END run once |
| `CompletionGraphLimits.QuietIff` | src/comp/graph.hpp:217-232 | for every graph: whenever test reports done nothing is in flight, if and only if the graph has no dead ends or END never gets all its signals |
| `CompletionGraphLimits.TruthfulIff` | src/comp/graph.hpp:217-232 | for every graph: whenever test reports done every node has completed, if and only if every node has a path to END or END never gets all its signals |
| `CompletionGraphLimits.AcyclicTruthfulIff` | src/comp/graph.hpp:217-232 | the same for acyclic graphs whose nodes all have an incoming edge: if and only if every node has a path to END |
| `CompletionGraphLimits.BlockedNeverDone` | src/comp/graph.hpp:130-159 | a graph on whose way to END there is a cycle or a node without incoming edges is never reported done |
| `CompletionGraphLimits.TwoEdgesFail` | src/comp/graph.hpp:176-203 | on the graph with edges START to 2 and START to END, a run reports done, and deletes the graph if asked, while node 2 is not done |
| `CompletionGraphProof.DeletedOnceAndUnused` | src/comp/graph.hpp:161-173 | on a graph without dead ends, the graph is deleted at most once, when nothing is in flight; from then on the only steps left are comparisons and returns, and no call will read the graph |
| `CompletionGraphLimits.DeletionIff` | src/comp/graph.hpp:161-173 | a graph with a completion object is deleted only when nothing is in flight, if and only if it has no dead ends or END never gets all its signals |
| `CompletionGraphProof.DeletionIsSafeIff` | src/comp/graph.hpp:135-173 | after the deletion nobody reads the graph or a node, if and only if no thread is between raising a counter and comparing it and, where the log is compiled in, every call that posted a node has returned |
| `CompletionGraphLimits.ReadsAfterDeletion` | src/comp/graph.hpp:90-173 | a run of a two-node graph in which both remain to be read after the deletion |
| `CompletionGraphProof.FreeingIsSafeIff` | src/comp/graph.hpp:161-173 | a graph that test reports done may be freed by its owner if and only if, moreover, the call that sent the last signal has returned |
| `CompletionGraphLimits.FreeingTooEarly` | src/collective/barrier.cpp:101-108 | on every graph with an edge to END whose END can get all its signals, a run in which test reports done and the call that sent the last signal has still to read the graph |
| `CompletionGraphProof.NeverStuck` | src/comp/graph.hpp:90-174 | on a graph without dead ends on which END can get all its signals, a started run that cannot move has finished and, if asked, has signalled its completion object |
| `CompletionGraphProof.RunsAreBounded` | src/comp/graph.hpp:90-174 | between two starts the number of steps is bounded by the work left |
| `RoundsProof.Determined` | src/collective/barrier.cpp:65-99 | the value a rank has in a round does not depend on the interleaving |
| `RoundsProof.NeverStuck` | src/collective/barrier.cpp:65-99 | until all ranks have finished some rank can act |
| `RoundsProof.RunsAreBounded` | src/collective/barrier.cpp:65-99 | a run takes a bounded number of effective steps |
| `RoundsProof.NothingLeftOver` | src/collective/broadcast.cpp:46-92 | when all have finished every message has met its receive |
| `RoundsProof.DepsEntered` | src/collective/barrier.cpp:65-99 | every rank that a rank has heard from, directly or not, has entered |
| `BinomialTree.RoundCount` | src/collective/reduce.cpp:31-68 | the halving jump reaches 1 in round ceil(log2 nranks) - 1 and not before |
| `BinomialTree.ComputeActions` | src/collective/reduce.cpp:31-68 | the loop fills a table of exactly ceil(log2 nranks) entries, in bounds, with the actions of the tree, and counts the children |
| `BinomialTree.OneRound` | src/collective/broadcast.cpp:55-90 | one round of the loop gives the rank's action and keeps its two distances right |
| `TreeBroadcast.SendMeetsReceive` | src/collective/broadcast.cpp:55-75 | a rank sends to another in a round exactly when that one receives from it in the same round |
| `TreeBroadcast.HoldersGrow` | src/collective/broadcast.cpp:55-75 | only data holders send, and a rank holds the data from the round it receives |
| `TreeBroadcast.ReceivesOnce` | src/collective/broadcast.cpp:55-75 | every rank but the root receives in exactly one round |
| `TreeBroadcast.BuildGraphTree` | src/collective/broadcast.cpp:43-92 | the loop builds a chain of nodes from START to END, one for each action of the schedule that is not idle, in order |
| `TreeBroadcast.ChainRunsInOrder` | src/collective/broadcast.cpp:60-91 | in every run of a rank's graph an operation of the chain is started at most once, and only when those before it have completed |
| `TreeBroadcast.BroadcastPairs` | src/collective/broadcast.cpp:55-75 | the locally computed schedules fit together for every rank count and root |
| `TreeBroadcast.BroadcastDelivers` | src/collective/broadcast.cpp:43-92 | in every run a rank that has finished holds the root's data, and no run gets stuck |
| `TreeReduce.Replay` | src/collective/reduce.cpp:69-146 | the reversed loop, with its shared buffers, sends or leaves the product of the received values and its own, in the right order |
| `TreeReduce.BreakLosesNothing` | src/collective/reduce.cpp:101-122 | the loop ends at the send: no receive was due after it |
| `TreeReduce.ReducePairs` | src/collective/reduce.cpp:101-146 | every replayed send meets exactly one replayed receive |
| `TreeReduce.ReplayIsTheRun` | src/collective/reduce.cpp:101-146 | what a rank computes in the distributed run is what its replay loop computes |
| `TreeReduce.ReduceValue` | src/collective/reduce.cpp:101-146 | a rank's intermediate result is the product of its segment of the tree, in descending distance |
| `TreeReduce.ReduceDelivers` | src/collective/reduce.cpp:31-146 | for every associative operation the root ends with the product of all contributions in descending distance, each used once, and no run gets stuck |
| `TreeReduce.ReduceAt` | src/collective/reduce.cpp:31-146 | one rank's code, fed with what its children send in the run: the root's receive buffer ends with the product of all contributions, and any other rank sends its parent the product over the segment it leads |
| `StagedGraph.StagedIsSound` | src/comp/graph.hpp:184-203 | a graph made of stages is acyclic, every node has an incoming edge and a path to END, so that it has no dead ends and END can get all its signals: what the theorems about runs ask for |
| `StagedGraph.StagesRunInOrder` | src/comp/graph.hpp:90-174 | in every run of such a graph an operation is started at most once, and only when all operations of all earlier stages have completed |
| `StagedGraph.BeginningsInOrder` | src/comp/graph.hpp:90-174 | likewise for the nodes between the stages: a node runs at most once, and only when those before it have completed |
| `StagedGraph.DoneMeansAllStages` | src/comp/graph.hpp:205-232 | when test reports done, every operation of every stage ran exactly once and completed |
| `Barrier.BuildGraph` | src/collective/barrier.cpp:62-99 | the loop builds ceil(log2 nranks) stages; the two operations of stage k receive from the rank 2^k to the left and send to the rank 2^k to the right |
| `Barrier.AddRound` | src/collective/barrier.cpp:85-99 | the dummy, receive and send nodes of a round and their four edges add one stage to the graph, which ends in END in the last round |
| `Barrier.RoundsInOrder` | src/collective/barrier.cpp:85-99 | in every run of a rank's graph the send of a round is posted only when sends and receives of all earlier rounds have completed |
| `Barrier.PeersDiffer` | src/collective/barrier.cpp:65-84 | different rounds of a rank use different peers, so that one tag serves them all |
| `Barrier.DisseminationPairs` | src/collective/barrier.cpp:65-84 | the rounds of all ranks fit together |
| `Barrier.PostsAreRounds` | src/collective/barrier.cpp:65-84 | what stage k of a rank's graph posts is what round k of the distributed run does |
| `Barrier.BarrierSynchronises` | src/collective/barrier.cpp:62-99 | in every run no rank completes the barrier before all have entered, and no run gets stuck |
| `RingBroadcast.TilesIff` | src/collective/broadcast.cpp:101-144 | for every size and step count, the chunks tile the buffer if and only if the last one starts inside it and reaches its end |
| `RingBroadcast.OffsetsFit` | src/collective/broadcast.cpp:126-142 | the offset of a chunk never wraps around |
| `RingBroadcast.LargeBuffersTile` | src/collective/broadcast.cpp:101-144 | buffers of at least (nsteps - 1) squared bytes tile unless the sum in the rounded-up division wraps around |
| `RingBroadcast.WrappedSumFails` | src/collective/broadcast.cpp:101 | when that sum wraps around, no buffer is tiled |
| `RingBroadcast.DefaultStepsOverrun` | src/binding/input/collective.py:36 | the default step count does not tile 65537 bytes over 400 ranks |
| `RingBroadcast.BuildGraphRing` | src/collective/broadcast.cpp:96-155 | the loop builds one stage per step, with the receive of chunk step and the send of chunk step - 1, except at the ends of the ring, where step 0 of the root has no stage and the last step of the rank before the root is a bare edge to END |
| `RingBroadcast.BuildStep` | src/collective/broadcast.cpp:117-151 | the dummy node of a step, its operations and their edges add one stage to the graph |
| `RingBroadcast.ForwardsAfterReceiving` | src/collective/broadcast.cpp:123-151 | in every run of a rank's graph a chunk is sent on only when its receive has completed |
| `RingBroadcast.RingPairs` | src/collective/broadcast.cpp:123-151 | the sends and receives of all ranks pair up, and what a step sends does not depend on what it receives |
| `RingBroadcast.PieceSent` | src/collective/broadcast.cpp:123-151 | the bytes that a step of the distributed run sends are the piece that the rank's graph posts in that step |
| `RingBroadcast.PieceReceived` | src/collective/broadcast.cpp:123-151 | likewise for where received bytes are put |
| `RingBroadcast.RingDelivers` | src/collective/broadcast.cpp:96-155 | for every buffer that is tiled, in every run a rank that has finished holds the root's bytes, and no run gets stuck |
| `EagerEncoding.GetSet` | src/util/misc.hpp:70-94 | a bit field reads back as written |
| `EagerEncoding.MetadataIsCarried` | src/core/communicate.cpp:168-223 | metadata that does not fit the immediate data always travels in a packet with room for it |
| `EagerEncoding.ProtocolChoice` | src/core/communicate.cpp:168-223 | rendezvous exactly when payload and metadata exceed a packet; inject exactly for memory semantics, small messages and no metadata; zero copy only of registered memory without metadata; a plain copy only of unregistered memory; a copy with metadata exactly when a bit of tag or handler lies beyond its field and the packet has room |
| `EagerEncoding.FastRoundTrip` | src/core/communicate.cpp:244-257 | the fast-path word gives tag and handler back, and the receiver takes the message for an eager one |
| `EagerEncoding.TrailerRoundTrip` | src/core/communicate.cpp:303-314 | the trailer gives tag, handler and payload back |
| `EagerEncoding.EagerRoundTrip` | src/core/progress.cpp:14-35 | on the inject, buffer-copy and zero-copy paths the receiver recovers tag, handler and payload |
| `EagerEncoding.RoundTripIff` | src/runtime/runtime.cpp:28-29 | exactly which accepted field widths make this hold for all messages, on each network |
| `EagerEncoding.WideFieldsFail` | src/core/communicate.cpp:249-257 | with wider fields a message exists that fits them, is eager on every network and is not recovered |
| `EagerEncoding.ControlKinds` | src/core/protocol.hpp:8-13 | RTS, RTR and FIN words decode as what they are |
| `EagerEncoding.FinCarriesTag` | src/core/rendezvous.hpp:194-203 | the FIN word of a write with immediate data carries the archive tag and is never taken for a fast-path word |
| `Rendezvous.CeilDiv` | src/core/rendezvous.hpp:189-190 | the signal count is the number of chunks |
| `Rendezvous.PostChunks` | src/core/rendezvous.hpp:213-236 | the posted chunks tile the buffer, there are signal_count of them, and exactly the last carries immediate data |
| `Rendezvous.TilesDisjoint` | src/core/rendezvous.hpp:220-236 | no byte lies in two chunks |
| `Rendezvous.TilesCover` | src/core/rendezvous.hpp:220-236 | every byte lies in a chunk |
| `Rendezvous.ImmTagArchive.Insert` | src/data_structure/imm_tag_archive.hpp:37-54 | fails exactly when every slot is taken, and otherwise stores the value in a slot that was free |
| `Rendezvous.ImmTagArchive.Remove` | src/data_structure/imm_tag_archive.hpp:56-64 | returns what was stored and frees the slot |
| `RendezvousProof.ToldOnceAfterAllBytes` | src/core/rendezvous.hpp:177-272 | each side is signalled at most once, and whoever is signalled finds all bytes in the receive buffer |
| `RendezvousProof.CounterMatchesPuts` | src/core/progress.cpp:137-169 | the completion counter is positive at every completion and no more puts are posted than it was set to |
| `RendezvousProof.TagsIdentifyTransfers` | src/core/progress.cpp:171-218 | live tags belong to one transfer each, and a completion with a tag finds the transfer whose data has arrived |
| `RendezvousProof.StuckMeansTold` | src/core/rendezvous.hpp:65-272 | in a run that cannot move, each transfer has told both sides and holds all bytes, or failed its own archive insertion |
| `RendezvousInsertions.InsertionsNeverFailIff` | src/data_structure/imm_tag_archive.hpp:37-54 | no run fails an archive insertion if and only if the mode is write or there are at most as many transfers as slots |
| `RendezvousInsertions.LimitedInsertionsIff` | src/data_structure/imm_tag_archive.hpp:37-64 | for every bound on the live transfers, no run within it fails an insertion if and only if the mode is write, or there are at most as many transfers as slots, or the bound is at most 1, or transfers and bound add up to at most 2 * slots + 1 |
| `RendezvousArchive.FirstFailure` | src/data_structure/imm_tag_archive.hpp:37-54 | when an insertion's first probe fails in a run with at most L live transfers, L is at least 2, the transfers already over and L add up to more than the slots, and the inserting transfer is not one of those over |
| `RendezvousEnds.NeverStuck` | src/core/rendezvous.hpp:65-272 | in a run within a bound that meets that condition, if nothing can move each side of each transfer has been told exactly once, with all bytes in place |
| `RendezvousEnds.RunsAreBounded` | src/core/rendezvous.hpp:65-272 | no run takes more effective steps than there was work at the beginning |
| `RendezvousEnds.Completes` | src/core/rendezvous.hpp:65-272 | under that condition every run can be continued, within the same bound on live transfers, until all transfers have completed on both sides |
| `PacketPool.PositionIsCell` | src/data_structure/mpmc_set.hpp:104-108 | the truncating remainder made positive is the slot of any index, negative ones included |
| `PacketPool.LocalSet.CopyToNew` | src/data_structure/mpmc_set.hpp:110-131 | moves the first n packets in order, through the wrap-around |
| `PacketPool.LocalSet.Expand` | src/data_structure/mpmc_set.hpp:38-51 | doubles the buffer and keeps the contents |
| `PacketPool.LocalSet.PushToBot` | src/data_structure/mpmc_set.hpp:53-60 | appends at the bottom |
| `PacketPool.LocalSet.PushToTop` | src/data_structure/mpmc_set.hpp:62-69 | prepends at the top |
| `PacketPool.LocalSet.PopFromTop` | src/data_structure/mpmc_set.hpp:71-80 | takes the first packet, or returns null when there is none |
| `PacketPool.LocalSet.PopFromBot` | src/data_structure/mpmc_set.hpp:82-91 | takes the last packet, or returns null when there is none |
| `PacketPool.LocalSet.GetN` | src/data_structure/mpmc_set.hpp:264-270 | takes up to n packets from the bottom, in order |
| `PacketPool.LocalSet.StealFrom` | src/data_structure/mpmc_set.hpp:209-240 | splits the victim's contents in two halves, the upper one, rounded up, moving to the thief |
| `PacketPool.PacketsConserved` | src/data_structure/mpmc_set.hpp:191-296 | over all gets, puts and steals, whichever thread puts a packet back, the number of copies of each packet is constant |
| `PacketPool.OneThreadPerPool` | src/data_structure/mpmc_set.hpp:191-296 | no two threads work on the same deque |
| `PacketPool.GetReturnsEnough` | src/data_structure/mpmc_set.hpp:248-273 | in every run a get_n returns as many packets as it was asked for, or leaves its pool empty |
| `PacketPool.GetAlone` | src/data_structure/mpmc_set.hpp:248-273 | an undisturbed get_n takes the bottom packets of its pool, the last one first |
| `PacketPool.StealAlone` | src/data_structure/mpmc_set.hpp:191-239 | an undisturbed steal makes the upper half of the victim, rounded up, the thief's pool |
| `PacketPool.PutAlone` | src/data_structure/mpmc_set.hpp:275-296 | an undisturbed put adds the packet at the bottom or at the top of the own pool |
| `PacketPool.PutThenGet` | src/data_structure/mpmc_set.hpp:248-296 | a packet put at the bottom is the next one handed out, and the pools are then as before |
| `BacklogProof.AcceptedOnceInOrder` | src/network/endpoint_inline.hpp:24-43 | per thread and destination, what was accepted is, in order, what reached the backend followed by what is queued |
| `BacklogProof.FlagTellsTruth` | src/backlog_queue/backlog_queue_inline.hpp:182-257 | while the lock is free the empty flag equals queue emptiness |
| `BacklogProof.DrainedMeansDelivered` | src/backlog_queue/backlog_queue.hpp:18-24 | with all calls returned and the queue empty, everything accepted was posted in order and every counter is zero |
| `BacklogProof.ProgressDrains` | src/backlog_queue/backlog_queue_inline.hpp:182-257 | any run in which the lock is free can be continued by progress calls of one idle thread, with an accepting backend, until everything queued has reached the backend in order |
| `BacklogCalls.AcceptedByPosts` | src/network/endpoint_inline.hpp:9-43 | in every run, each accepted operation is that of one post that its thread began, and no post has two |
| `BacklogCalls.PostAnswers` | src/network/endpoint_inline.hpp:24-43 | in every run, a post that has returned had its operation accepted exactly when retries were not allowed or the backend took it, and asked the backend exactly when it read that nothing is queued for the rank |
| `BacklogCalls.CallsReturn` | src/backlog_queue/backlog_queue_inline.hpp:182-257 | every run can be continued until a given call returns, without new calls and whatever the backend answers |
| `TcpFenceProof.NoEarlyLeave` | lct/pmi/pmi_wrapper_tcp.cpp:715-844 | no rank leaves barrier k before all have entered it, and no unexpected message is ever received |
| `TcpFenceProof.FenceDelivers` | lct/pmi/pmi_wrapper_tcp.cpp:645-844 | a rank that has left barrier k holds, for each rank, exactly the puts that this rank made outside before its k-th barrier, as the run lists them and later values replacing earlier ones, in whatever order the clients are answered |
| `TcpFenceEnds.FenceMoves` | lct/pmi/pmi_wrapper_tcp.cpp:715-844 | when all ranks have entered a barrier and some rank is still in it, some rank can make a step of a barrier, also when others are in the next one already; a rank outside can always enter |
| `TcpFenceEnds.RunsAreBounded` | lct/pmi/pmi_wrapper_tcp.cpp:715-844 | from any state of any run, the steps that do not publish or enter are bounded by the work left |
| `TcpFenceEnds.FenceEnds` | lct/pmi/pmi_wrapper_tcp.cpp:715-844 | every run can be continued without publishing and entering until every rank inside a barrier that all have entered has left it |
| `FaaQueue.ReturnedOnceNoneSkipped` | lct/data_structure/queue/queue_array_atomic_faa.hpp:45-85 | returned values are the pushed ones, claims are distinct, and the positions below bot are those returned or claimed |
| `FaaQueue.PopsReturnDistinct` | lct/data_structure/queue/queue_array_atomic_faa.hpp:59-85 | no step returns from a position twice |
| `FaaQueue.OnlyNewestRetracts` | lct/data_structure/queue/queue_array_atomic_faa.hpp:68-76 | a claim is rolled back only while it is the newest |
| `FaaQueue.AssertionIsOverfillTest` | lct/data_structure/queue/queue_array_atomic_faa.hpp:49-52 | the debug assertion holds if and only if the push does not overfill the queue |
| `FaaQueueLimits.OverfillMisplaces` | lct/data_structure/queue/queue_array_atomic_faa.hpp:45-57 | the first push of a run that overfills the queue with a different value leaves a value where it does not belong, at once or as soon as the other push goes on |
| `FaaQueueLimits.NothingMisplaced` | lct/data_structure/queue/queue_array_atomic_faa.hpp:45-57 | in every run without such a push no value is misplaced |
| `FaaQueueLimits.CountSufficesIff` | lct/data_structure/queue/queue_array_atomic_faa.hpp:45-85 | for every capacity and in both builds, pushes that never exceed the capacity by count never overfill the queue if and only if at most one thread pops |
| `FaaQueueLimits.OnePopperSuffices` | lct/data_structure/queue/queue_array_atomic_faa.hpp:45-85 | with one popping thread no run within the capacity by count overfills the queue |
| `FaaQueueLimits.TwoPoppersFail` | lct/data_structure/queue/queue_array_atomic_faa.hpp:45-85 | for every capacity, a run of two poppers within the capacity by count that returns one value twice and loses another |
| `FaaQueueCalls.PushedByCalls` | lct/data_structure/queue/queue_array_atomic_faa.hpp:45-57 | in every run, position p holds the value of the p-th push that was begun |
| `FaaQueueCalls.ClaimAlone` | lct/data_structure/queue/queue_array_atomic_faa.hpp:68-85 | a pop that has claimed a position takes its value if it was filled, gives the claim back if it was not and the claim is the newest, and otherwise looks again |
| `FaaQueueCalls.PopReturns` | lct/data_structure/queue/queue_array_atomic_faa.hpp:59-85 | every run that has not overfilled the queue can be continued until a given pop returns, without new calls and without overfilling it |
| `RecvCredits.NeverOverPosted` | src/network/device_inline.hpp:100-140 | posted receives plus promised slots never exceed the limit, and the counter never falls below the posted number |
| `RecvCredits.PacketsPostedOrPutBack` | src/network/device_inline.hpp:113-138 | over all posts, completions and returns every packet is in the pool, in a caller's hands, posted or delivered, and with no call in progress the counter is exact |
| `RecvCredits.CallPosts` | src/network/device_inline.hpp:100-140 | an undisturbed call that pops packets, of which the network accepts the first k, posts these, puts the others back and raises the counter by k |
| `RecvCredits.CallPostsAll` | src/network/device_inline.hpp:100-140 | with an accepting network an undisturbed call posts as many receives as limit, batch and pool allow |
| `RecvCredits.FullCircle` | src/network/device_inline.hpp:100-140 | packets posted by a call, completed and returned to the pool leave everything as before |

## Left out

- Weak memory ordering: atomics are sequentially consistent steps.
- CompletionGraph: edge callbacks, values and free callbacks; a thread that compares a count has nothing else to decide, because the model settles what the comparison will say when the counter is raised.
- RingBroadcast: a chunk that reaches past the buffer is not given a meaning; the theorem about the run asks for the exact tiling condition.
- FaaQueue.ReturnedOnceNoneSkipped: positions are unbounded integers; the 64-bit wrap-around of top and bot is not modelled.
- Backlog and endpoint: the put-with-immediate fallback, which re-enters the backlog, is left out; the seven kinds of operation are one.
- Rendezvous with zero bytes, device memory and forced writeimm without put-immediate support; a failed archive insertion ends its transfer, as the assertion does.
- Rendezvous network: a put is reported complete after its bytes arrived, and with immediate data the writes of one transfer are applied in order.
- The two values of a matching queue's union of slots and nodes are separate fields; queues, buckets and nodes are values, so their memory management is not modelled. The simple engine's search returns the value of the matched entry.
- Masks with a power of two minus one are written as counting round the buffer.
- The packet pool's deque indices are unbounded integers, thread registration is done before the first step, and the number of steal attempts is not bounded.
- Puts with signal whose tag or handler does not fit the immediate data.
- post_comm_state_t, which communicate.cpp fills stage by stage, is a value computed by functions.
- RecvCredits: receives that complete with an error, which the source never subtracts from the counter.
- Socket errors, time-outs, string limits and finalization of the TCP wrapper; the other process-management wrappers.
- Direct broadcast, allreduce, alltoall, gather, scatter and reduce_scatter: built from the same parts or simpler.
- The network backends, the registration cache, accelerators, environment parsing, logging and counters: foreign calls or no logic of their own.
- shm_open and mmap life cycle; views used after release; sends of a null buffer.
