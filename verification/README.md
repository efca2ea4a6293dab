# SUMI collectives

A verification of the collective layer of SST/macro's SUMI library: the
per-rank communication DAGs that implement collectives over point-to-point
messages, the event-driven executor that runs them, and the engine that routes
messages to them.

**Data.** A buffer element is a multiset of input elements and the reduction is
multiset union.  Multisets are the free commutative monoid, so "each rank's
input exactly once" gives the right result under every commutative, associative
operator.  An element is atomic (`type_size` 1).

**Fabric** (`Actions`, `Fabric`, `Outlines`, `Invariants`, `Preservation`,
`Agreement`, `Runs`).  A program is the union of all ranks' DAGs.  The fabric is
a transition system over it: actions start when their precursors are done,
messages of the eager, get and put protocols are in flight in multisets, and any
enabled event may come next.  Memory is accessed late: the source of a send is
read when the network injects it, and an RDMA payload lands before the receiver
is told, so a buffer race would show.  An outline annotates a program with
logical times, an order and predicted contents.  Two conditions on the program
alone (sound, timed) imply, for every run, order, message conservation, bounded
length, and freedom from aborts and deadlock; two more (race-free, explained)
imply freedom from buffer races and the predicted memory.

**Schedules** (`Wilke`, `Exchange`, `Allreduce`, `Reduce`; `Chains`, `Bruck`,
`Ring`, `Alltoall`, `AlltoallInPlace`, `Intervals`; `Binomial`, `Bcast`,
`Gather`; `Rounds`).  Each collective is a closed-form program with an outline,
proved valid for every number of ranks, every length and every root.  Correctness
theorems speak of all runs: healthy (no abort, no race, bounded, no deadlock) and
the right result on each rank that is done.  `Rounds` and `Bcast` say of each
program, in plain arithmetic on the rank, the round and the number of ranks, which
transfers it consists of.

**initDag and buffers** (`ExchangeDag`, `AllreduceDag`, `ReduceDag`, `ChainDag`,
`BruckDag`, `AlltoallDag`, `AlltoallShuffle`, `BcastDag`, `GatherDag`, `Stages`,
`Buffers`, `Trees`).  The loops that each rank runs by itself, as methods that
fill an executor's containers, proved to build exactly the rank's share of the
closed-form program; and the loops over buffers in initBuffers, shuffle and
finalize.

**Executor** (`ActorState`, `ActorSteps`, `Executor`, `Handover`, `Completion`,
`Interference`).  `DagActor` is the re-entrant state machine with its initial
set, dependency multimap, join counters, active communications and early-message
queue.  An abstraction relation ties these to the fabric, for any sound program
that can be timed, race-free or not; every method keeps it and advances the
fabric only by events of its own rank.  Other executors and the
network leave it intact, a freshly built DAG satisfies it at any time, and when
all executors are quiet the collective is complete and each has finalized once.
Each executor is handed a fixed set of messages, each once, and is complete
exactly when it has been handed them all.

**System** (`Systems`, `EndToEnd`).  The layers together, for each collective:
executors as initDag leaves them, any history of calls into them and of network
events, and at the quiet end complete executors and the right buffers.

**Engine, ids, ranks** (`Engine`, `Routing`, `Reports`, `ActionIds`,
`DenseRanks`).  Early arrival, starts and done messages, for actors that may
complete at any message; which actor and action a message finds; done messages
against the fabric's runs; the packed 32-bit action id; renumbering around
failed ranks.

Where the code does not do what the collective promises, the code is kept and the
exact condition is proved.

- Reduce: with a non-zero root and one rank less than a power of two, rank 1 sends
  a half it never worked on (`Reduce.ReduceCorrectIff`; `Reduce.ReduceFails` gives
  the run).
- Alltoall in place, for which startMpiCollective passes the receive buffer as
  send buffer (sst-macro/sumi-mpi/mpi_api_collectives.cc:96-111): rank r ends with
  the right block of rank k exactly if k <= r, so only the last rank's result is
  right (`AlltoallInPlace.InPlaceAlltoallIff`; `AlltoallInPlace.InPlaceFails` gives
  the run).
- A collective whose actor completes in its own start returns no done message
  (`Engine.CollectiveEngine.StartCollective`).  On two or more ranks every rank of
  the collectives here has a message due (`Systems.SomethingDue`), so none does.
- The eager branch for packed receives ignores the action's offset; the only user,
  alltoall, has offset 0.
- For at most four failed ranks denseRank returns a number for a failed rank where
  the divide-and-conquer branch throws.

## Model

| member | source | states |
|---|---|---|
| Runs.EveryRun | sst-macro/sumi/collective_actor.cc:147-260 | Every run of a DAG program with a valid outline, under any order of events and any mix of eager, get and put: the runtime never aborts, no two unfinished actions of a rank race on a buffer element, the run is bounded, and a stuck state is a finished one |
| Runs.SomethingEnabled | sst-macro/sumi/collective_actor.cc:427-482 | Freedom from deadlock: while any action of any rank is unfinished, some start, delivery or network step is possible, whatever protocol the lengths select |
| Runs.RunBounded | sst-macro/sumi/collective_actor.cc:222-260 | Termination: the events done and the work left never exceed the work there was at the start |
| Runs.FinalMemory | sst-macro/sumi/collective_actor.cc:578-636 | A rank whose actions are done holds in every predicted element exactly the predicted value, in every run and whatever the other ranks still do |
| Runs.EveryRunProgresses | sst-macro/sumi/collective_actor.cc:147-260 | Any sound program whose dependencies and transfers can be timed, on any memory and in every run: no abort, a bounded number of events, and a stuck state is a finished one |
| Runs.SomeRunCompletes | sst-macro/sumi/collective_actor.cc:147-260 | Every such program has, from any memory, a run in which every action of every rank gets done |
| Agreement.InvKept | sst-macro/sumi/collective_actor.cc:756-808 | Every enabled event (start, header answered, injection, RDMA landing, receipt, acknowledgement) keeps order, per-transfer message conservation and the agreement of memory and in-flight data with the outline |
| Agreement.InvInitial | sst-macro/sumi/collective_actor.cc:147-159 | The invariant holds before anything has started |
| Preservation.ControlKept | sst-macro/sumi/collective_actor.cc:147-260 | Order and per-transfer message conservation are kept by every event, with or without races between buffers |
| Invariants.OrderedDone | sst-macro/sumi/collective_actor.cc:222-251 | If the dependencies order a before b, then a is done before b can start |
| Invariants.ActiveDisjoint | sst-macro/sumi/allreduce.cc:118-225 | Two unfinished actions of one rank never touch the same element with a write, across roles and rounds |
| Preservation.CompletionExpected | sst-macro/sumi/collective_actor.cc:638-659 | A payload or acknowledgement that reaches an actor always finds its action active, so the unknown-receive and invalid-action errors never occur |
| Completion.BuiltAgrees | sst-macro/sumi/collective_actor.cc:335-402 | Any DAG built by addDependency from a sound program that can be timed is in agreement with the fabric at whatever point its rank starts, even if others are far ahead |
| Completion.QuietIsStuck | sst-macro/sumi/collective_actor.cc:415-425 | If all messages are delivered and all executors have returned, no event at all is possible |
| Completion.QuietIsComplete | sst-macro/sumi/collective_actor.cc:415-425 | Then every action of every rank is done and every executor has finalized and notified exactly once |
| Completion.NoLateMessages | sst-macro/sumi/collective_actor.cc:756-808 | No message for a rank is in flight once its actions are done |
| Completion.NothingHanded | sst-macro/sumi/collective_actor.cc:147-159 | A rank that has not begun has been handed nothing |
| Handover.EventServes | sst-macro/sumi/collective_actor.cc:843-885 | Each message event hands its actor one message it did not have, and nobody else anything; no other event hands over anything |
| Handover.FixedMessages | sst-macro/sumi/collective_actor.cc:843-885 | No run hands a rank more messages than the fixed number due to it (one acknowledgement per send, one payload per receive, one header per get receive and put send), and every run that completes the rank hands it all of them |
| Handover.CompleteIffHanded | sst-macro/sumi/collective_actor.cc:415-425 | A quiet executor is complete exactly when the number of messages it has been handed, early ones in its queue included, is that number |
| Interference.CallKeepsTogether | sst-macro/sumi/collective_actor.cc:843-885 | A call into one rank's executor, whatever it sets off, leaves all other executors in agreement with the fabric |
| Interference.NetworkKeepsTogether | sst-macro/sumi/collective_actor.cc:843-885 | So does everything the network does, RDMA writes into a rank's memory included |
| Systems.HistoryIsRun | sst-macro/sumi/collective_actor.cc:843-885 | Any history of calls into executors and of network events is one run of the fabric, and all executors stay in agreement with it |
| Systems.SystemCompletes | sst-macro/sumi/collective_actor.cc:335-425 | From executors built by addDependency, once all is delivered and quiet, every action of every rank is done and every executor has finalized and notified exactly once |
| Systems.SomethingDue | sst-macro/sumi/collective_actor.cc:843-885 | A rank that sends or receives anything has a message due, so its executor is not complete before its first message |
| EndToEnd.AllreduceSystem | sst-macro/sumi/allreduce.cc:68-229 | From the DAGs initDag builds to the end of any history: every executor is complete and notified once, every buffer holds the reduction |
| EndToEnd.ReduceSystem | sst-macro/sumi/reduce.cc:70-292 | The same for reduce: the root holds the reduction exactly under the condition of ReduceCorrectIff |
| EndToEnd.AllgatherSystem | sst-macro/sumi/allgatherv.cc:61-220 | The same for both Bruck allgathers: after the rotation every rank holds all blocks in rank order |
| EndToEnd.RingSystem | sst-macro/sumi/allgather.cc:225-260 | The same for the ring |
| EndToEnd.AlltoallSystem | sst-macro/sumi/alltoall.cc:65-232 | The same for alltoall out of place: after the reordering every rank holds its block of every other rank |
| EndToEnd.AlltoallInPlaceSystem | sst-macro/sumi/alltoall.cc:65-232 | The same for an in-place alltoall: every executor completes, rank r has the blocks of the ranks up to its own and no others |
| EndToEnd.BcastSystem | sst-macro/sumi/bcast.cc:56-157 | The same for broadcast, for every root |
| EndToEnd.GatherSystem | sst-macro/sumi/gather.cc:51-221 | The same for gather: the root holds all blocks in rank order |
| ActorState.EdgeBuilt | sst-macro/sumi/collective_actor.cc:335-374 | Adding a dependency keeps: join_counter equals the number of the action's multimap entries (duplicates counted), and an action is initial iff that number is 0 |
| ActorState.InitialBuilt | sst-macro/sumi/collective_actor.cc:349-374 | Adding an action without precursor keeps the same, also when it already waits for something |
| ActorState.CountWithout | sst-macro/sumi/collective_actor.cc:222-251 | Erasing one multimap entry lowers exactly its dependent's count, by one |
| Executor.DagActor.AddDependency | sst-macro/sumi/collective_actor.cc:335-402 | The exact new action table, multimap and initial set, from any partly built DAG |
| Executor.DagActor.Start | sst-macro/sumi/collective_actor.cc:147-159 | All initial actions are started by events of this rank only; afterwards none is left and the books agree with the fabric |
| Executor.DagActor.StartAction | sst-macro/sumi/collective_actor.cc:161-212 | Starting an action whose precursors are all done keeps agreement, through every re-entrant call; the recursion ends because unstarted actions get fewer |
| Executor.DagActor.StartComm | sst-macro/sumi/collective_actor.cc:427-482 | A communication becomes active, sends what its protocol calls for once, and takes up what arrived early |
| Executor.DagActor.DoSend | sst-macro/sumi/collective_actor.cc:435-462 | Makes exactly one opening call, an eager send below the cutoff, a get header from the cutoff on if gets are used, and otherwise none |
| Executor.DagActor.DoRecv | sst-macro/sumi/collective_actor.cc:471-482 | Makes exactly one opening call, a put header, from the cutoff on if gets are not used, and otherwise none |
| Executor.DagActor.ClearAction | sst-macro/sumi/collective_actor.cc:253-260 | Retiring an action releases its dependents and keeps agreement |
| Executor.DagActor.Retire | sst-macro/sumi/collective_actor.cc:253-260 | After the completion test the books are right with only the action's dependents still to release |
| Executor.DagActor.ClearDependencies | sst-macro/sumi/collective_actor.cc:222-251 | All entries of the precursor are released, each dependent is started exactly when its counter reaches 0 |
| Executor.DagActor.CheckCollectiveDone | sst-macro/sumi/collective_actor.cc:415-425 | Completion is recorded exactly when nothing is active, pending or initial |
| ActorSteps.ClearedAgrees | sst-macro/sumi/collective_actor.cc:415-425 | That test succeeds exactly when all of the rank's actions are done, so finalize and notification happen once, with the last action |
| ActorSteps.ReadyWhenZero | sst-macro/sumi/collective_actor.cc:222-251 | A counter of 0 means that every precursor is done |
| Executor.DagActor.ReputPending | sst-macro/sumi/collective_actor.cc:521-539 | Messages that waited for an action are delivered again exactly once when it becomes active |
| Executor.DagActor.IncomingHeader | sst-macro/sumi/collective_actor.cc:756-808 | An eager payload or header is taken, answered or queued; the books keep agreeing |
| Executor.DagActor.AnswerHeader | sst-macro/sumi/collective_actor.cc:699-754 | A get header is answered by one RDMA get, a put header by one RDMA put |
| Executor.DagActor.DataRecved | sst-macro/sumi/collective_actor.cc:578-659 | The receive the data belongs to is active, is completed with the data where the outline wants it, and is cleared |
| Executor.DagActor.TakeData | sst-macro/sumi/collective_actor.cc:601-624 | The buffer afterwards, for every combination of eager or rendezvous with in-place, reducing and packed receives |
| Executor.DagActor.UnpackReduce | sst-macro/sumi/collective_actor.cc:970-978 | Combines the data into the region, element by element, and changes nothing else |
| Executor.DagActor.UnpackRecvBuf | sst-macro/sumi/collective_actor.cc:953-968 | Stores the data in the region and changes nothing else |
| Executor.DagActor.DataSent | sst-macro/sumi/collective_actor.cc:570-576 | An acknowledgement finds its send active and clears it |
| Executor.DagActor.Recv | sst-macro/sumi/collective_actor.cc:843-885 | Every kind of message the fabric can hand over keeps agreement, by events of this rank only |
| Executor.DagActor.Receive | sst-macro/sumi/collective_actor.cc:843-885 | Each call hands the quiet executor exactly one new message, and it is complete afterwards exactly if that was the last one due |
| Trees.ComputeTree | sst-macro/sumi/collective_actor.cc:887-898 | The least power of two that holds all ranks, its exponent and its half |
| Trees.RealToVirtual | sst-macro/sumi/collective_actor.cc:900-912 | The roles returned are exactly the virtual ranks that virtualToReal maps back to the rank |
| Trees.IsSharedRole | sst-macro/sumi/collective_actor.h:381-388 | Finds a role iff it is one of the rank's roles |
| Trees.SharedIffCoLocated | sst-macro/sumi/collective_actor.cc:914-927 | The partner of an exchange lives on the same rank exactly in round 0 of a two-role rank |
| Wilke.PartnerGap | sst-macro/sumi/allreduce.cc:143-157 | The partner differs by the round's gap, upward iff isLowerPartner |
| Wilke.ShrIsDivision | sst-macro/sumi/allreduce.cc:231-236 | isLowerPartner's division reads the round's bit of the virtual rank |
| Wilke.PartSplit | sst-macro/sumi/allreduce.cc:143-168 | A halving splits the common piece between the partners: nothing lost, nothing shared |
| Wilke.HeldJoins | sst-macro/sumi/allreduce.cc:118-175 | An exchange combines the contributions of two disjoint groups of real ranks, also across two-role ranks |
| Wilke.HeldAll | sst-macro/sumi/allreduce.cc:118-189 | After all exchanges every real rank has been counted |
| Wilke.SumCounts | sst-macro/sumi/allreduce.cc:238-247 | In the combined value each rank's element occurs exactly once |
| Exchange.MateIsPartners | sst-macro/sumi/allreduce.cc:170-188 | Both ends of an exchange compute the same round, step and elements from their own ranks alone, and an id determines role and step, the odd role's shifted rounds included |
| Exchange.RegionsApart | sst-macro/sumi/allreduce.cc:118-225 | Exchanges of one rank that touch the same element belong to the same role and different steps |
| Allreduce.ScheduleMatches | sst-macro/sumi/allreduce.cc:163-219 | Every send has its receive and every receive its send: same round, offset, length and protocol, each naming the other |
| Allreduce.PlanValid | sst-macro/sumi/allreduce.cc:118-225 | The schedule is sound, race-free and computes what the outline predicts, for every rank count and length |
| Allreduce.AllreduceCorrect | sst-macro/sumi/allreduce.cc:87-229 | For every number of ranks from 2, every length (0 included), every protocol setting and every run: healthy, and each finished rank holds in every element the reduction of all ranks' inputs, each exactly once |
| AllreduceDag.InitDag | sst-macro/sumi/allreduce.cc:87-229 | The loops build exactly this rank's actions and dependencies of the global program |
| AllreduceDag.InitBuffers | sst-macro/sumi/allreduce.cc:68-85 | The working buffer holds the input, also when they are the same buffer |
| ExchangeDag.HalveOnce | sst-macro/sumi/allreduce.cc:118-189 | One fan-out round: the offsets and lengths computed are those of the global schedule, a shared partner is skipped |
| ExchangeDag.FanOut | sst-macro/sumi/allreduce.cc:118-189 | All fan-out rounds of a role, with the recorded sends and receives |
| ExchangeDag.MirrorOnce | sst-macro/sumi/allreduce.cc:191-225 | One fan-in round mirrors the recorded exchange or skips it |
| AllreduceDag.FanIn | sst-macro/sumi/allreduce.cc:191-225 | All fan-in rounds of a role |
| Reduce.MateTaken | sst-macro/sumi/reduce.cc:195-251 | A rank that drops out at max_active_rank never strands its partner: partners leave together |
| Reduce.ScheduleMatches | sst-macro/sumi/reduce.cc:130-288 | Every send has its receive and vice versa, with equal round, offset, length and protocol, drop-outs and last hop included |
| Reduce.ReduceOutcome | sst-macro/sumi/reduce.cc:99-292 | For every root and every run: healthy, and what each element of the root's buffer holds when the root is done |
| Reduce.ReduceCorrectIff | sst-macro/sumi/reduce.cc:258-288 | The root holds the reduction, each rank exactly once, if and only if the root is 0, or the rank count is not one less than a power of two, or there is at most one element |
| Reduce.StaleIsWrong | sst-macro/sumi/reduce.cc:268-286 | In the failing case an element of the upper half is only rank 1's own input |
| Reduce.ReduceFails | sst-macro/sumi/reduce.cc:258-288 | For every input outside that condition there is a run that completes and leaves the root without the reduction |
| Reduce.ThreeRanksFail | sst-macro/sumi/reduce.cc:258-288 | The smallest such input: three ranks, root 1, two elements |
| ReduceDag.InitDag | sst-macro/sumi/reduce.cc:99-292 | The loops, the break of dropped-out roles, the join and the last hop build exactly this rank's share of the global program |
| ReduceDag.FanIn | sst-macro/sumi/reduce.cc:190-251 | The fan-in loop stops exactly where the role's participation ends |
| ReduceDag.AddHops | sst-macro/sumi/reduce.cc:257-288 | The hop actions of ranks 0, 1 and the root |
| Chains.ChainRuns | sst-macro/sumi/collective_actor.cc:147-260 | Every run of a matching lock-step schedule is healthy and leaves each finished rank what the schedule predicts |
| Chains.MateHas | sst-macro/sumi/allgather.cc:125-147 | In a lock-step schedule the message a rank sends at a step is the one its receiver expects at that step |
| ChainDag.AllLaid | sst-macro/sumi/allgather.cc:125-165 | A DAG laid step by step is the rank's share of the global program |
| Bruck.AllgatherCorrect | sst-macro/sumi/allgatherv.cc:87-220 | For arbitrary, possibly zero, counts and every run: healthy, and after the rotation each finished rank holds all blocks in rank order |
| Bruck.FollowsHere | sst-macro/sumi/allgatherv.cc:139-180 | What a round receives is the continuation of the row of blocks held so far, the partial last round included |
| Bruck.PlacedHere | sst-macro/sumi/allgatherv.cc:139-180 | Each sender's length equals its receiver's in every round, and the received region does not overlap the sent one |
| Bruck.RotationOrders | sst-macro/sumi/allgatherv.cc:190-220 | Rotating the row that starts at rank r gives the row that starts at rank 0 |
| Bruck.GatheredUnique | sst-macro/sumi/allgatherv.cc:190-220 | There is only one buffer with all blocks in rank order |
| BruckDag.Offsets | sst-macro/sumi/allgatherv.h:65-70 | A rank's offset and the total length |
| BruckDag.NelemsToRecv | sst-macro/sumi/allgatherv.cc:86-96 | The summing loop gives the length of consecutive ranks' blocks |
| BruckDag.RemainderLengths | sst-macro/sumi/allgatherv.cc:163-175 | The partial round's lengths, computed as remainders of the total, are the missing blocks on both sides |
| BruckDag.LayFullRoundsV | sst-macro/sumi/allgatherv.cc:136-161 | The loop lays the full rounds with the offsets and lengths of the global schedule |
| BruckDag.LayLastRoundV | sst-macro/sumi/allgatherv.cc:163-181 | The partial round, its lengths taken as remainders, is the last step of the schedule |
| BruckDag.InitDagV | sst-macro/sumi/allgatherv.cc:98-182 | The allgatherv loops build exactly this rank's share |
| BruckDag.ComputeBruckTree | sst-macro/sumi/allgather.cc:62-75 | Full rounds and the size of the partial round |
| BruckDag.InitDag | sst-macro/sumi/allgather.cc:104-165 | The allgather loops build exactly this rank's share |
| BruckDag.InitBuffers | sst-macro/sumi/allgatherv.cc:61-80 | The rank's own block comes to the front, in place or not |
| BruckDag.Finalize | sst-macro/sumi/allgatherv.cc:190-220 | The two copies rotate the buffer by the rank's offset |
| Buffers.RotateBack | sst-macro/sumi/allgather.cc:181-205 | The copies through a temporary buffer are a rotation |
| Ring.RingCorrect | sst-macro/sumi/allgather.cc:225-260 | Every run of the ring is healthy and leaves every finished rank all chunks in rank order, given its own chunk in place |
| Ring.RingAgreesWithBruck | sst-macro/sumi/allgather.cc:104-260 | Ring and rotated Bruck leave a rank the same buffer |
| Ring.InitRing | sst-macro/sumi/allgather.cc:225-260 | The ring loop builds exactly this rank's share |
| Intervals.MainTemp | sst-macro/sumi/alltoall.cc:98-119 | The places of the moving blocks in result and temporary buffer correspond one to one |
| Intervals.CountExact | sst-macro/sumi/alltoall.cc:152-158 | The q-th moving block is below the rank count exactly for q below numSendBlocks |
| Intervals.NumSendBlocksCounts | sst-macro/sumi/alltoall.cc:152-158 | The closed form numSendBlocks equals the number of block indices with the round's bit set |
| Intervals.CountFits | sst-macro/sumi/alltoall.cc:82-86 | numSendBlocks never exceeds the midpoint, the size of the temporary buffers |
| Alltoall.StageNext | sst-macro/sumi/alltoall.cc:98-134 | A moving block travels one gap further, the others stay |
| Alltoall.ScheduleGood | sst-macro/sumi/alltoall.cc:136-196 | Every round packs, moves and unpacks what the predictions say, within the buffers and without overlap |
| Alltoall.AlltoallExchanges | sst-macro/sumi/alltoall.cc:90-232 | On any memory, for every rank count and block length and every run: healthy, and after the reordering block k of a finished rank r is what rank k had at the start in its block for r |
| Alltoall.AlltoallCorrect | sst-macro/sumi/alltoall.cc:65-232 | From send buffers rotated out of place: a finished rank holds the transpose, block k is the one rank k had for it |
| AlltoallInPlace.InPlaceAlltoallIff | sst-macro/sumi/alltoall.cc:65-232 | From what initBuffers leaves in place, in every run: healthy, a finished rank r has the right block of rank k if and only if k <= r or the blocks are empty, and its whole result is right if and only if it is the last rank or the blocks are empty |
| AlltoallInPlace.InPlaceFails | sst-macro/sumi/alltoall.cc:65-232 | For all non-empty blocks there is a run that completes and leaves every rank but the last a wrong result |
| AlltoallInPlace.TwoRanksInPlace | sst-macro/sumi/alltoall.cc:65-232 | The smallest case: two ranks with one element each, rank 0 wrong and rank 1 right |
| AlltoallDag.CountBlocks | sst-macro/sumi/alltoall.cc:149-158 | The computation in initDag counts the moving blocks |
| AlltoallDag.InitDag | sst-macro/sumi/alltoall.cc:136-196 | The loop, its doubled dependency included, builds exactly this rank's share |
| AlltoallDag.InitBuffers | sst-macro/sumi/alltoall.cc:65-87 | From another buffer, the send buffer is rotated into the result buffer; in place, what the two copies leave |
| AlltoallDag.InPlaceIff | sst-macro/sumi/alltoall.cc:76-82 | An in-place call leaves a rank its own blocks rotated exactly on rank 0 or for empty blocks |
| AlltoallDag.Finalize | sst-macro/sumi/alltoall.cc:204-232 | The loop moves block i to place me - i |
| AlltoallShuffle.Shuffle | sst-macro/sumi/alltoall.cc:98-119 | The strided copy loop moves exactly the blocks with the round's bit set between result and temporary buffer, in both directions |
| AlltoallShuffle.StartShuffle | sst-macro/sumi/alltoall.cc:121-134 | Run on a shuffle action as the DAG has it, the copy loop, by the action's own offset and with the workspace its partner field selects, has exactly the effect of the action's copies |
| AlltoallShuffle.ShuffleActions | sst-macro/sumi/alltoall.cc:160-181 | Every shuffle of the program has the round's gap 2^round as its offset and the length of all blocks with that bit set |
| Binomial.ReachesRoot | sst-macro/sumi/bcast.cc:100-134 | Clearing lowest bits leads from any offset to 0 in at most log2 steps |
| Bcast.SpanningTree | sst-macro/sumi/bcast.cc:56-134 | Every rank but the root receives exactly once, from the rank whose offset has the lowest bit cleared, which sends to it exactly once; all sources lead to the root |
| Bcast.TreeIs | sst-macro/sumi/bcast.cc:73-134 | With offsets (rank - root) mod n, rank c receives from rank p, and p sends to c, exactly if p is (root + the offset of c with its lowest bit cleared) mod n |
| Bcast.RootSendsTo | sst-macro/sumi/bcast.cc:56-71 | The root sends exactly to the ranks (root + 2^k) mod n with 2^k below n |
| Bcast.BcastCorrect | sst-macro/sumi/bcast.cc:56-157 | Every run, for every rank count and root, is healthy and leaves each finished rank the root's data |
| BcastDag.FindWindow | sst-macro/sumi/bcast.cc:103-114 | The window search finds the parent and the lowest bit of the offset |
| BcastDag.InitRoot | sst-macro/sumi/bcast.cc:56-71 | The root's strides give exactly its children |
| BcastDag.InitInternal | sst-macro/sumi/bcast.cc:73-98 | The window's strides give exactly a child's own children, each after the receive |
| BcastDag.InitDag | sst-macro/sumi/bcast.cc:141-157 | Both branches build exactly this rank's share |
| Gather.GatherCorrect | sst-macro/sumi/gather.cc:51-221 | For every rank count from 2, every root (the midpoint and interior ranks included) and every run: healthy, and the finished root holds block k at position k |
| Gather.StaysInWorkspace | sst-macro/sumi/gather.cc:66-85 | Off the root no transfer leaves the workspace of midpoint blocks |
| Gather.MateHas | sst-macro/sumi/gather.cc:144-218 | Every transfer has both its ends, in the same round and of the same length |
| Gather.TreeCarries | sst-macro/sumi/gather.cc:147-176 | A tree transfer hands over the sender's blocks to the matching place of the receiver |
| GatherDag.InitTree | sst-macro/sumi/gather.cc:51-63 | The number of rounds and the midpoint |
| GatherDag.InitBuffers | sst-macro/sumi/gather.cc:65-85 | The rank's own block comes to the front of its working buffer, also when the root's block is in that buffer already |
| GatherDag.StrideTest | sst-macro/sumi/gather.cc:147-149 | The stride test tells the ranks still receiving from those that send |
| GatherDag.AddTree | sst-macro/sumi/gather.cc:141-181 | The loop builds the rank's part of the tree and its last action |
| GatherDag.AddHops | sst-macro/sumi/gather.cc:192-219 | The hops of rank 0, the midpoint and the root |
| GatherDag.InitDag | sst-macro/sumi/gather.cc:119-221 | Tree, shuffle and hops together are exactly this rank's share |
| GatherDag.StartShuffle | sst-macro/sumi/gather.cc:100-111 | Run on a shuffle action as the DAG has it, the copy of its own length to its own offset has exactly the effect of the action's copies |
| GatherDag.ShuffleActionIs | sst-macro/sumi/gather.cc:172-184 | The only shuffle is the midpoint root's, and its offset is the midpoint's, its length that of the blocks from there on |
| Rounds.AllreduceRounds | sst-macro/sumi/allreduce.cc:118-225 | Every action of an allreduce is an exchange of a virtual rank v with v + 2^i or v - 2^i, by bit i of v, for step i and again for its mirror, at the real ranks, round and elements computed from these numbers alone |
| Rounds.AllreduceAll | sst-macro/sumi/allreduce.cc:118-225 | And every such exchange is one of its actions |
| Rounds.PartHalved | sst-macro/sumi/allreduce.cc:143-168 | A halving leaves the lower partner the first, larger half and the upper one the rest |
| Rounds.ReduceRounds | sst-macro/sumi/reduce.cc:130-288 | Every transfer of a reduce is such an exchange of a virtual rank that still takes part, or the last hop of rank 0 or 1 with its half to a root other than 0 |
| Rounds.ReduceAll | sst-macro/sumi/reduce.cc:130-251 | And every exchange of a virtual rank that still takes part is one |
| Rounds.ReduceHop | sst-macro/sumi/reduce.cc:257-288 | And so is every such hop |
| Rounds.AllgatherRound | sst-macro/sumi/allgatherv.cc:136-181 | In the round of gap g rank r sends its first g blocks, the last time only the n - g that are missing, to (r - g) mod n and stores as many from (r + g) mod n behind the g it has |
| Rounds.AllgatherOnly | sst-macro/sumi/allgatherv.cc:136-181 | A Bruck allgather has no other actions |
| Rounds.RingRound | sst-macro/sumi/allgather.cc:225-260 | In round i rank r sends chunk r - i + 1 up and stores chunk r - i from below, each in its place |
| Rounds.RingOnly | sst-macro/sumi/allgather.cc:225-260 | A ring has no other partners and rounds |
| Rounds.AlltoallRound | sst-macro/sumi/alltoall.cc:141-181 | In round i rank r sends the blocks with bit i set, packed, to (r + 2^i) mod n and receives as many, packed, from (r - 2^i) mod n |
| Rounds.AlltoallPacks | sst-macro/sumi/alltoall.cc:160-181 | Each round has both its shuffles, with the gap as offset |
| Rounds.AlltoallOnly | sst-macro/sumi/alltoall.cc:141-181 | An alltoall has no other actions |
| Rounds.GatherTransfer | sst-macro/sumi/gather.cc:144-176 | Rank c sends the blocks it has, one window of its lowest bit or what is left of it, to the rank with that bit cleared, which stores them behind its own window, in the round of that bit; with a root other than 0 the midpoint does not |
| Rounds.GatherHop | sst-macro/sumi/gather.cc:186-219 | Ranks 0 and midpoint send their halves to a root other than themselves and 0, into place |
| Rounds.GatherOnly | sst-macro/sumi/gather.cc:144-219 | A gather has no other transfers |
| ActionIds.Details | sst-macro/sumi/collective_actor.h:113-122 | The parts returned pack to the given id, and are the only ones within the limits that do |
| ActionIds.PackingInjective | sst-macro/sumi/collective_actor.h:107-111 | Within type < 6, round < 500, partner < 1431655 the packing does not wrap at 32 bits and is injective |
| ActionIds.FirstCollision | sst-macro/sumi/collective_actor.h:107-111 | At partner 1431655 it collides |
| ActionIds.AllreduceIdsDistinct | sst-macro/sumi/allreduce.cc:118-225 | No two actions of an allreduce actor share a packed id |
| ActionIds.ReduceIdsDistinct | sst-macro/sumi/reduce.cc:130-288 | No two actions of a reduce actor do, join and last hop included |
| ActionIds.IdsDistinct | sst-macro/sumi/collective_actor.h:107-111 | No two actions of one rank share a packed id in any program whose rounds and partners are within the limits |
| ActionIds.BruckInLimits | sst-macro/sumi/allgather.cc:104-165 | Both Bruck allgathers are, up to the partner limit |
| ActionIds.AlltoallInLimits | sst-macro/sumi/alltoall.cc:136-196 | So is alltoall |
| ActionIds.BcastInLimits | sst-macro/sumi/bcast.cc:56-157 | So is broadcast |
| ActionIds.GatherInLimits | sst-macro/sumi/gather.cc:119-221 | So is gather |
| ActionIds.RingIdsDistinct | sst-macro/sumi/allgather.cc:225-260 | A ring exceeds the round limit, but with one partner per type its ids stay distinct up to 1428799 ranks |
| DenseRanks.TreeFinds | sst-macro/sumi/dense_rank_map.cc:137-173 | Divide and conquer finds the number of live ranks below every live rank and rejects every failed one |
| DenseRanks.DenseRankMap.LinearFindRank | sst-macro/sumi/dense_rank_map.cc:99-108 | The linear search finds the same for every live rank; what it returns for a failed one |
| DenseRanks.DenseRankMap.SparseRank | sst-macro/sumi/dense_rank_map.cc:110-122 | The result is live and has the given dense rank, for every dense rank |
| DenseRanks.DenseRankMap.DenseRank | sst-macro/sumi/dense_rank_map.cc:124-135 | Both branches of the dispatch agree on live ranks; a failed rank is rejected if there are five or more, and otherwise gets a number |
| DenseRanks.SparseInvertsDense | sst-macro/sumi/dense_rank_map.cc:110-135 | Only one live rank has a given dense rank, so sparseRank undoes denseRank |
| Routing.RoutedToTheRightActor | sst-macro/sumi/collective_message.h:152-194 | Every message a rank acts on in the fabric, as the transport calls leading to it leave it, names that rank as its target, the reversed put header included |
| Routing.FindsItsAction | sst-macro/sumi/collective_actor.cc:638-659 | From type, round, sender and receiver the actor looks up exactly the action at its own end of the transfer |
| Routing.AnswersTheHeader | sst-macro/sumi/collective_actor.cc:699-754 | Answering a header is the call that sends the payload, made by the rank the header is for |
| Routing.ServedWasSent | sst-macro/sumi/collective_actor.cc:427-482 | A header or payload that was acted on was sent exactly once by the executor whose call it is |
| Routing.SentExactly | sst-macro/sumi/collective_actor.cc:427-482 | The transport calls an executor has made are exactly those called for: one per started eager send, get send and put receive of its rank, one per header of its rank answered, and no others |
| Routing.OpenedByLength | sst-macro/sumi/collective_actor.cc:449-482 | By length, cutoff and the use of gets alone: what a started send and a started receive have called, and have not |
| Engine.Collective.ActorDone | sst-macro/sumi/collective.cc:122-138 | Drops one reference; reports when the rank's last and when the collective's last is gone |
| Engine.Collective.Recv | sst-macro/sumi/collective.cc:167-194 | The message goes to the actor it targets, or is set aside if there is none; done is reported whenever the actor is complete, which it stays |
| Engine.CollectiveEngine.FinishCollective | sst-macro/sumi/sim_transport.cc:971-993 | A completed collective leaves the table and is kept for deletion unless it is persistent; messages still kept for it are dropped |
| Engine.CollectiveEngine.Incoming | sst-macro/sumi/sim_transport.cc:1012-1044 | The message is handed to the actor of a collective in the table, or kept, also after the collective has left it; a done message is returned exactly if the actor is then complete; afterwards the collective is the only one up for deletion if it has left the table in this call, and otherwise none is |
| Engine.CollectiveEngine.DeliverPending | sst-macro/sumi/sim_transport.cc:901-911 | All kept messages reach the actor in order, which may complete at any of them; the collective is added to those up for deletion, once, exactly if it leaves the table; the final dmsg is a done message exactly if there were messages and the actor is complete |
| Engine.CollectiveEngine.StartCollective | sst-macro/sumi/sim_transport.cc:937-969 | At any point between arrivals the actor gets everything that has arrived, and a done message is returned exactly if that completes it; an actor that completes in its start loses the kept messages and yields none; the collective is put up for deletion exactly if it leaves the table again |
| Engine.Serve | sst-macro/sumi/sim_transport.cc:901-1044 | The engine run on any sequence of starts and arrivals: the calls return exactly one done message for each collective that was started and whose messages complete its actor, none for any other, and the actor gets its messages in order of arrival until then |
| Reports.DoneWhenComplete | sst-macro/sumi/collective.cc:167-194 | With the completion of the rank's own executor, at every moment and with messages waiting in its queue: one done message exactly if all actions of the started rank are done, and exactly if as many messages have arrived as are due to it |

## Left out

- Scan, scatter and the unfinished gatherv, scatterv and reduce_scatter: scan tests its receive buffer before it is set, scatter sends from the wrong buffer for some roots; the others have no schedule of their own. A barrier is the Bruck allgather with zero elements, which Bruck.AllgatherCorrect includes.
- DirectAlltoall and DirectAlltoallv: their offsets never advance and their lengths do not match between partners, so there is no data movement to verify.
- SMP-composed collectives, setSubsequent chains and addActors: a started collective has one actor per rank and no successor.
- Action ids in the executor: containers are keyed by rank, kind, round and partner; ActionIds proves for every schedule that packing those into 32 bits keeps the ids of a rank apart.
- Ring.RingCorrect: assumes each rank's own chunk in its slot, because initBuffers of the ring does not copy it there.
- Executor.DagActor.Recv: messages are delivered as the fabric can produce them; NACKs and messages to oneself (no schedule sends one) are not modelled.
- Executor.DagActor.CheckCollectiveDone: finalize appears as a counter; its effect on the buffer is proved for the collectives that have one (BruckDag.Finalize, AlltoallDag.Finalize) and applied after the rank is done.
- Executor.DagActor.StartLocal: a shuffle applies its copies to the rank's buffer; that the collectives' own startShuffle has this effect is AlltoallShuffle.StartShuffle and GatherDag.StartShuffle.
- BruckDag.InitBuffers: the in-place copy of a block that overlaps its target is modelled as an ascending copy, where memcpy leaves it undefined.
- AlltoallDag.InitBuffers: the same for an in-place call; AlltoallInPlace.InPlaceAlltoallIff holds for that copy.
- Executor.DagActor.ClearDependencies: the dependents of one action may be released in any order, where the multimap keeps insertion order; the proofs hold for every order.
- Engine.Collective.Recv: the actor is an arbitrary rule that says after which messages it is complete; Reports.DoneWhenComplete takes for it the completion of an executor at its moments between calls, as Executor.DagActor ensures them, not the executor object itself.
- Engine.CollectiveEngine.StartCollective: tags are unique, so the table entry is free at the start.
- Engine.Serve: its collectives are not persistent, as no collective of the library is; the single calls cover persistent ones.
- Memory of a rank: one address space in elements for result buffer and workspaces, allocated at equal size on all ranks; Gather.StaysInWorkspace shows that less is enough off the root.
- DenseRanks.DenseRankMap.DenseRank: init's translation and sorting of the failed ranks is a precondition (ascending array).
- Null buffers, non-contiguous slicers, unresolved-rank callbacks, delays, statistics, quality of service and debug output: they do not affect which data goes where.
