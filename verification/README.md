# Verified model of the collective schedules

This project models the host-side schedules of the collective-communication library as
small distributed protocols and proves them correct: in every run, for any interleaving of
the cards (or ranks), over any number of chunks and over unbounded sequences of calls.

Every protocol has up to four layers.

* The host code, as it is written: a class with the communicator's counters, methods with
  the source's loops and branches, proved to put an exact list of operations on the stream.
* A state machine of all cards.  Each executes its stream in order; the scheduler picks any
  card that is not waiting.  Data pushes, flag writes and waits are separate steps.
* Theorems over whole runs: what the waits mean, which buffer contents are intact, that a
  push in flight never touches bytes its receiver uses, what is delivered, that no run
  deadlocks, and that runs are bounded, so that every maximal run finishes.
* Bytes (the modules whose names end in `Bytes`, and `RingResults`).  Every stream operation
  has its own effect on flags, buffers and users' memory, defined from its arguments alone.
  Executing the operations of a stage has the effect of the machine's stage (`StageSim`), so
  every run of the emitted streams is a run of the machine (`Simulated`), and what the source
  promises is stated of the bytes in the users' buffers.

In the machines data is symbolic.  A value is the expression that computed it, so a statement about values
is a statement about the exact bracketing and order of every reduction; `Terms` interprets
expressions under any operation and relates them to the plain reduction, with associativity
and commutativity only where they are needed.

## Modules

| modules | subject |
|---|---|
| `Arith`, `Cycle`, `Hypercube`, `PowerOfTwo`, `Memory`, `Terms`, `Bytes` | products, ring neighbours, doubling strides, the smearing of bits, byte ranges, symbolic values, memory byte by byte |
| `RingSchedule`, `RingMachine`, `RingData`, `RingTheorems`, `RingProgress`, `RingHost`, `SliceSize`, `RingCalls`, `RingHandshake`, `RingBytes`, `RingResults` | ring AllReduce, AllGather, ReduceScatter |
| `BroadcastChain`, `BroadcastMachine`, `BroadcastTheorems`, `BroadcastBytes` | pipelined Broadcast with acknowledgements |
| `ReduceChain`, `ReduceMachine`, `ReduceTheorems`, `ReduceBytes` | Reduce with coarse credits |
| `Doubling`, `DoublingMachine`, `DoublingData`, `DoublingTheorems`, `DoublingBytes` | recursive-doubling AllReduce of small data |
| `HalvingDoubling`, `HalvingBytes` | halving-doubling AllReduce of small data |
| `Barrier`, `BarrierTheorems` | two-counter equality barrier of a card |
| `TwoSlots`, `Alltoall`, `AlltoallMachine`, `AlltoallBytes` | notifications over two flags, pairwise Alltoall |
| `Alltoallv`, `AlltoallvHost`, `Rendezvous`, `RendezvousBytes`, `AlltoallvBytes` | Alltoallv, Send, Recv |
| `DirectAllReduce`, `DirectMachine`, `DirectTheorems`, `DirectBytes` | direct AllReduce inside one node |
| `SplitToken`, `TokenRings`, `TokenStreams` | strided chunk loops and the split flag; rings of cards whose ranks take turns |
| `Topology`, `TopologyHost` | rank lists, card and node numbers, the ring |
| `Graph` | graph templates and the update cursor |
| `Sharp` | the service threads of the SHARP path |

## Where the code does less than it promises

* **Halving-doubling** reduces every byte on every card exactly when twice the number of
  cards divides the size (`HalvingDoubling.ExactlyWhenDivides`, and for the buffers that the
  graph's nodes leave `HalvingBytes.GraphsExact`).  The test that chooses this
  schedule asks for a count divisible by 4, which guarantees that for 4-byte elements only;
  `HalvingDoubling.DispatchMisses` gives 65540 two-byte elements on 8 cards.
* **The ring's slice length** from `tcclNicStepLen` fits the half buffer for every data size
  exactly when the number of cards is 1, 2, 3, 4, 5, 8, 16, 32, 64, 128 or 256
  (`SliceSize.CardCountsThatFit`, for the one to four ranks that a card can have, and with the
  size truncated to a 32-bit `int` as in the source); with six cards it can overflow
  (`SliceSize.SixCardsOverflow`).  The slice of AllGather and ReduceScatter, which is bounded
  by a power of two, fits on any number of cards that leaves each a byte of the half
  (`SliceSize.CollectiveSliceFits`).
* **The handshake before a ring call** is sent only when a node has more than one card.  No run
  overwrites bytes in use exactly when every chunk opens with the handshake or uses the other
  half than the chunk before it (`RingHandshake.HandshakeExact`).  Every call begins again in
  the first half, so calls in a row without the handshake are safe exactly when all of them but
  the last are cut into an even number of chunks (`RingHandshake.QuietCallsExact`).
* **Send and Recv in pieces** carry every byte exactly when the element size divides
  MAX_SIZE or one piece is enough (`Alltoallv.PiecesCarryAll`).
* **SHARP threads** look at as many ranks of every communicator as the first one has on the
  node.  When all nodes post the same, no run blocks exactly when every posting rank's number is
  below that bound (`Sharp.DeadlockExact`); with one rank a node in the first communicator and
  four in the second, reductions of the second are never served (`Sharp.HiddenRanksBlock`).
* **SHARP threads** agree on one order in every run exactly when node 0 never has visible work
  under a port that some node lacks while all nodes can go on (`Sharp.AgreementExact`): a node
  that does not find the broadcast port goes on with the entry it had found itself.
* **The graph of the halving-doubling routine** has as many nodes as the routine updates
  exactly for powers of two of cards (`Graph.MutOnlyPowersOfTwo`), which the dispatch asks for.

## Hypotheses

* Counters are mathematical integers, and data is visible before the flag that follows it.
* The element operation is abstract.  A device kernel that reduces a list does so from left
  to right.  `typelen` is any positive number unless a statement says otherwise.
* Every card has the same number of ranks and every node the same number of cards.
* Device numbers are not negative, no device has address -1, physical card numbers are below 8.
* A reduction combines values byte by byte, as it does for elements that do not straddle the
  ranges in use; the direct AllReduce is stated on elements.
* The bodies of the device kernels are not in the repository.  The local reduction reduces
  over the ranks of a card.  For ReduceScatter it does so for every card, into the card's slot.
  The kernel at the head of a small AllReduce puts the result into the card's block and sets
  `cntflag[step]` to the flag of each round; the resident kernel does the same and reduces
  what a halving round brings onto the segment that the card keeps.
* Calls use users' buffers of their own, except in `RendezvousBytes`, where a later transfer
  may write into the memory of an earlier one.

## Model

| member | source | states |
|---|---|---|
| `RingHost.Comm.DevSyncToPrevCard` | src/misc/barrier.cc:339-343 | the handshake tells the previous card and waits for the next one with one counter value |
| `RingHost.Comm.RankSendPost` | src/misc/post.cc:46-110 | data, then the bumped counter, to the peer; then a wait for one's own flag to reach the same value |
| `RingHost.LoopSlots` | src/proc.cc:1098-1150 | the three remainder formulas name the origin of the block sent, received and passed on |
| `RingHost.Comm.NicAllReduce` | src/proc.cc:1060-1161 | with the slice length that tcclNicStepLen picks, the chunk loop puts on the stream exactly the operations of the call's chunks, between the token's resets, and moves nextcnt by 2n-2 a chunk; one card is dispatched elsewhere (src/enqueue.cc:481-490) |
| `RingHost.Comm.SlicedCollective` | src/proc.cc:731-856 | with the slice that lastPowerOfTwo bounds, the AllGather and ReduceScatter loops put on the stream exactly the operations of their steps; one card is dispatched elsewhere (src/enqueue.cc:522-533, 550-563) |
| `RingHost.StreamIsProgram` | src/proc.cc:1087-1156 | what is left of an emitted stream is always the next stage of the automaton followed by what is left after it |
| `RingHost.CallIsRest` | src/proc.cc:1087-1156 | an emitted call is the program of the automaton from its first stage on |
| `SliceSize.CardCountsThatFit` | src/proc.cc:982-1020 | slice * cards <= MAX_SIZE / 2 for every data size exactly for the card counts 1, 2, 3, 4, 5, 8, 16, 32, 64, 128 and 256, with one to four ranks a card |
| `SliceSize.ListedFits` | src/proc.cc:982-1020 | on a listed card count the slices fit, however many ranks a card has |
| `SliceSize.SixCardsOverflow` | src/proc.cc:982-1020 | with six cards a size exists whose slice does not fit the half buffer |
| `PowerOfTwo.LastPowerIs` | src/proc.cc:128-145 | the chain of shifts and ors gives the power of two p with p <= num < 2p |
| `SliceSize.DirectSlicesFit` | src/proc.cc:72-101 | on the four cards that the direct AllReduce is dispatched on, its slices fit the half buffer for every data size |
| `SliceSize.CollectiveSliceFits` | src/proc.cc:744-746 | hence the slices of AllGather and ReduceScatter fit the half buffer on any number of cards |
| `RingCalls.AllReduceChunksOk` | src/proc.cc:1065-1106 | the chunks of an AllReduce call are valid: they fit, only the first opens, and halves alternate |
| `RingCalls.SliceChunksOk` | src/proc.cc:731-800 | so are the steps of AllGather and ReduceScatter |
| `RingCalls.NicCallExtends` | src/proc.cc:1060-1106 | after any calls, an AllReduce with the slice that the host picks leaves a ring program that all theorems cover, on the listed card counts |
| `RingCalls.SlicedCallExtends` | src/proc.cc:731-800 | so does an AllGather or a ReduceScatter, on every card count that leaves each card a byte |
| `RingMachine.SuccessorBound` | src/misc/post.cc:95-110 | a card issues its T-th send only after its successor has issued send T-n+1 |
| `RingTheorems.SendSpacing` | src/misc/post.cc:95-110 | the same over every reachable state of every run |
| `RingTheorems.RaceFree` | src/proc.cc:1087-1156 | while a push is in flight the receiver accesses no overlapping bytes, for any number of cards, chunks and calls |
| `RingTheorems.RingDelivers` | src/proc.cc:731-856 | AllReduce, AllGather and ReduceScatter have delivered their exact results for every chunk a card has left, in every run |
| `RingProgress.AccIsReduction` | src/proc.cc:1120-1140 | after reduce step k a slice holds the fold of k+1 consecutive cards |
| `RingProgress.FullIsReduction` | src/proc.cc:1094-1155 | for an associative and commutative operation the delivered fold is the plain reduction, whoever started it |
| `RingProgress.RingNeverDeadlocks` | src/proc.cc:1087-1156 | while a card is unfinished, some card can take a step |
| `RingProgress.RingTerminates` | src/proc.cc:1087-1156 | runs are bounded, so maximal runs finish |
| `RingHandshake.HandshakeExact` | src/proc.cc:530-530 | for every number of cards and all AllReduce chunks that fit, no run lets a push overwrite bytes that its receiver uses, exactly when every chunk but the first has the handshake or another half than the chunk before |
| `RingHandshake.QuietCallsExact` | src/proc.cc:530-530 | calls in a row without the handshake are safe exactly when all but the last have an even number of chunks |
| `RingHandshake.HostCallIsQuiet` | src/proc.cc:1087-1106 | the host's chunks are such a call, with a chunk for every stride that begins inside the data |
| `RingBytes.StageSim` | src/proc.cc:731-856 | executing the operations of a stage of AllReduce, AllGather or ReduceScatter, each by its arguments, on flags, cross buffers and users has the effect of the machine's stage |
| `RingBytes.Simulated` | src/proc.cc:1060-1161 | every run of the cards' streams is a run of the machine, byte by byte |
| `RingBytes.StreamsNeverBlock` | src/proc.cc:1087-1156 | in every run of the streams, as long as a card has operations left, no wait for a flag holds every card up |
| `RingResults.StreamsAllReduce` | src/proc.cc:1087-1156 | in every program of calls, every byte of an AllReduce chunk that a card has left is the sum over all ranks of all cards, in all its users' buffers |
| `RingResults.StreamsGather` | src/proc.cc:731-778 | in every program of calls, a block that an AllGather step brings is its owner's, byte by byte, in all users' buffers |
| `RingResults.StreamsScatter` | src/proc.cc:779-856 | in every program of calls, what a ReduceScatter step leaves a rank is the sum of its part over all ranks |
| `RingResults.NicAllReduceDelivers` | src/proc.cc:1060-1161 | AllReduce with the host's own slice length, on the listed card counts: every byte below count * typelen of every rank's receive buffer is the sum of that byte over all ranks of all cards |
| `RingResults.AllGatherDelivers` | src/proc.cc:731-778 | AllGather on any number of cards: every byte of every rank's block is in every rank's receive buffer at its place |
| `RingResults.ReduceScatterDelivers` | src/proc.cc:779-856 | ReduceScatter on any number of cards: every rank has every byte of its block of the sum |
| `Doubling.BlocksAreSlots` | src/enqueue.cc:165-171 | the blocks of a call lie inside its half and apart from one another, so naming them by card is exact |
| `Doubling.BlockInHalf` | src/enqueue.cc:165-171 | all blocks of all cards fit one half of the small buffer |
| `Doubling.BlocksCovered` | src/enqueue.cc:174-181 | a push of several blocks covers exactly those blocks |
| `Hypercube.PeerIsFlip` | src/enqueue.cc:175-176 | the peer formula flips one bit of the card number |
| `Hypercube.FlipBack` | src/enqueue.cc:175-176 | the peer's peer is the card itself, and never itself the peer |
| `Hypercube.FlipInRange` | src/enqueue.cc:175-176 | peers of a power of two of cards are cards |
| `Hypercube.GroupIsBase` | src/enqueue.cc:177-177 | the offset formula is the first card of the group |
| `Hypercube.GroupsJoin` | src/enqueue.cc:174-181 | after a round a card's group and its peer's make up the next group |
| `Doubling.SmallComm.SmallSizeAllreduceCard` | src/enqueue.cc:162-211 | the loop emits the rounds of the gather-then-reduce schedule |
| `Doubling.SmallComm.SmallSizeAllreduceCard8C` | src/enqueue.cc:19-102 | the loop and its tail emit the rounds of the gather-half schedule |
| `Doubling.SmallComm.SmallSizeAllreduceCardCT` | src/enqueue.cc:105-160 | the loop emits the rounds of the schedule that reduces in every round |
| `DoublingMachine.CallIsStages` | src/enqueue.cc:162-211 | the rounds that the host emits are the stages of the machine, with the flags and slots that its waits test |
| `DoublingMachine.NoLap` | src/enqueue.cc:183-187 | no card sends flag k + DEV_NUM before every card is past the wait of round k |
| `DoublingMachine.WaitExact` | src/enqueue.cc:183-187 | a wait with >= ends exactly on its own round's flag |
| `DoublingTheorems.SlotsSuffice` | src/enqueue.cc:183-187 | in every run, over any mix of schedules and calls, no card sends flag k + DEV_NUM before all cards are past wait k |
| `DoublingTheorems.WaitIsExact` | src/enqueue.cc:183-187 | in every run a wait ends exactly when the partner has sent this round's flag |
| `DoublingTheorems.HalvesSuffice` | src/enqueue.cc:170-171 | no card is two calls ahead of another, so two buffer halves suffice for ever |
| `DoublingTheorems.RaceFree` | src/enqueue.cc:174-189 | while a push is in flight its target neither sends nor reduces those blocks |
| `DoublingTheorems.DoublingDelivers` | src/enqueue.cc:19-211 | every card that has finished a call has given its users the schedule's result |
| `DoublingTheorems.ResultIsReduction` | src/enqueue.cc:34-208 | all three schedules compute the plain reduction over all cards, for every power of two of cards |
| `DoublingTheorems.GatherAgrees` | src/enqueue.cc:191-208 | gathering first gives the same expression on all cards, whatever the operation |
| `DoublingTheorems.DoublingNeverDeadlocks` | src/enqueue.cc:162-189 | while a card is unfinished, some card can take a step |
| `DoublingTheorems.DoublingTerminates` | src/enqueue.cc:162-189 | runs are bounded |
| `DoublingBytes.StageSim` | src/enqueue.cc:19-211 | executing the graph nodes of a stage, the pushed range and the list of blocks taken from the node, has the effect of the machine's stage, for all three schedules |
| `DoublingBytes.Simulated` | src/enqueue.cc:19-211 | every run of the cards' graphs is a run of the machine, byte by byte |
| `DoublingBytes.GraphsNeverBlock` | src/enqueue.cc:162-189 | in every run of the graphs, as long as a card has nodes left, no wait holds every card up |
| `DoublingBytes.GraphsAllReduce` | src/enqueue.cc:19-211 | in any mix of schedules and calls, every user of a card that has finished a call has every byte summed over all ranks of all cards |
| `HalvingDoubling.MutComm.SmallSizeBFMut` | src/enqueue.cc:213-274 | the two loops emit the halving and the doubling rounds, with the source's offsets |
| `HalvingDoubling.PeerOffset` | src/enqueue.cc:230-235 | card and peer always have the same step_offset, and what one sends is what the other keeps |
| `HalvingDoubling.SegmentsPartition` | src/enqueue.cc:229-253 | after the halving phase every byte is in the segment of exactly one card |
| `HalvingDoubling.OffsetReturns` | src/enqueue.cc:254-272 | the doubling phase brings step_offset back to 0 |
| `HalvingDoubling.ExactlyWhenDivides` | src/enqueue.cc:213-274 | every card ends with every byte reduced, exactly when twice the number of cards divides the size |
| `HalvingBytes.GraphAt` | src/enqueue.cc:229-273 | the three nodes of each step in the graph that the loops build |
| `HalvingBytes.AfterHalving` | src/enqueue.cc:229-253 | when the halving steps have executed the nodes' pushes and the kernel's reduction, every byte of every card's own block is what the schedule says |
| `HalvingBytes.AfterDoubling` | src/enqueue.cc:254-273 | the same after each doubling step |
| `HalvingBytes.GraphsExact` | src/enqueue.cc:213-274 | the executed graphs leave every byte reduced in every card's own block, exactly when twice the number of cards divides the size |
| `HalvingBytes.WaitsPass` | src/enqueue.cc:239-247 | in every step a card waits for the flag that its kernel sets for that step |
| `HalvingBytes.FlagsArrive` | src/enqueue.cc:239-247 | executing a step on all cards brings every card its peer's flag of that step, in the slot of the flag |
| `HalvingDoubling.DispatchIsExact` | src/enqueue.cc:327-330 | the test that chooses this schedule guarantees that for 4-byte elements; for shorter ones exactly for counts divisible by 8 or 16 |
| `HalvingDoubling.DispatchMisses` | src/enqueue.cc:327-330 | a concrete count of 2-byte elements that is dispatched and not fully reduced |
| `Barrier.DevSync.DevSyncCard` | src/misc/barrier.cc:310-323 | an all-arrive epoch: add one, wait for rank_num times the epoch's flag |
| `Barrier.DevSync.SmallAllreduceSync` | src/enqueue.cc:300-305 | the gather and release epochs of a small AllReduce, with the counter moved by two |
| `BarrierTheorems.NobodyPassesEarly` | src/misc/barrier.cc:261-323 | a rank that waited is past an epoch only after all required arrivals of it and of every earlier epoch |
| `BarrierTheorems.WaitsAreExact` | src/misc/barrier.cc:261-323 | an equality wait can end exactly when everyone it waits for has arrived |
| `BarrierTheorems.ReleaseStays` | src/misc/barrier.cc:261-323 | a release is never missed: the value stays until the waiter has looked |
| `BarrierTheorems.BarrierNeverDeadlocks` | src/misc/barrier.cc:310-323 | over any mix of epochs some rank can go on |
| `BarrierTheorems.BarrierTerminates` | src/misc/barrier.cc:310-323 | runs are bounded |
| `BroadcastChain.ChunkSize` | src/proc.cc:103-126 | the chunk size is at most 4 MiB, and below that two chunks a rank are enough for the data |
| `BroadcastChain.NoReuseWithoutAcks` | src/proc.cc:684-693 | with acknowledgements off no slot is ever used twice, whatever the size |
| `BroadcastChain.StepsAre` | src/proc.cc:698-699 | the loop runs for exactly the chunks that begin inside the data |
| `BroadcastChain.RangeInBuffer` | src/proc.cc:700-703 | every slot lies inside the cross buffer |
| `BroadcastChain.BcastComm.BcastWaitAckFlag` | src/misc/post.cc:224-232 | from step nChunks on the counter is bumped and its value awaited with equality |
| `BroadcastChain.BcastComm.BcastSendAckFlag` | src/misc/post.cc:195-222 | the acknowledgement carries the given value to the previous card, only when slots are used again |
| `BroadcastChain.BcastComm.Broadcast` | src/proc.cc:672-730 | every card emits the steps of its place in the chain, and all counters agree again at the end |
| `BroadcastTheorems.AckIsExact` | src/misc/post.cc:224-232 | the equality on an acknowledgement flag holds exactly when the slot's last use is acknowledged, in every run |
| `BroadcastTheorems.RaceFree` | src/proc.cc:708-726 | while a push is in flight its receiver forwards and copies out of other bytes |
| `BroadcastTheorems.BroadcastDelivers` | src/proc.cc:672-730 | every card has every chunk before its present step, whole and in order, over any sequence of calls with any roots |
| `BroadcastTheorems.BroadcastNeverDeadlocks` | src/proc.cc:698-727 | while a card is unfinished, some card can take a step |
| `BroadcastTheorems.BroadcastTerminates` | src/proc.cc:698-727 | runs are bounded |
| `BroadcastBytes.StageSim` | src/proc.cc:698-727 | executing a stage's operation, its offsets in buffers and users taken from its arguments, has the effect of the machine's stage |
| `BroadcastBytes.Simulated` | src/proc.cc:698-727 | every run of the cards' streams is a run of the machine, byte by byte |
| `BroadcastBytes.StreamsNeverBlock` | src/proc.cc:698-727 | in every run of the streams, as long as a card has operations left, no wait holds every card up |
| `BroadcastBytes.StreamsBroadcast` | src/proc.cc:672-730 | when a card has left a call, all its users have every byte of the chain's chunks of the root's data at its place |
| `BroadcastBytes.SharedOut` | src/proc.cc:695-700 | the chains of the ranks of a card share the data out: every byte is in a chunk of one of them |
| `ReduceChain.CreditTest` | src/proc.cc:902-904 | the remainder test asks for credit every BUFFERS steps, from whatever counter value |
| `ReduceChain.PassesCover` | src/proc.cc:872-872 | the rounded-up number of passes covers all the data |
| `ReduceChain.RangesApart` | src/proc.cc:881-882 | slots come round after BUFFERS steps and not before |
| `ReduceChain.ReduceComm.Reduce` | src/proc.cc:857-942 | every card emits the steps of its place in the chain and the counters move alike on all cards |
| `ReduceChain.StepIsStages` | src/proc.cc:900-937 | an emitted step is its stages one after the other |
| `ReduceMachine.CreditWaitExact` | src/misc/post.cc:162-193 | a sender gets credit exactly when the receiver has begun the same step |
| `ReduceTheorems.CreditProtects` | src/proc.cc:896-900 | a slot that is pushed into again was used up by the receiver before |
| `ReduceTheorems.RaceFree` | src/proc.cc:900-937 | while a push is in flight its receiver reduces and forwards other bytes |
| `ReduceTheorems.ReduceDelivers` | src/proc.cc:857-942 | the root has the fold over all cards of every slice it has finished, over any sequence of calls with any roots |
| `ReduceTheorems.RootGetsReduction` | src/proc.cc:900-937 | that fold is the plain reduction for an associative and commutative operation |
| `ReduceTheorems.ReduceNeverDeadlocks` | src/proc.cc:878-938 | while a card is unfinished, some card can take a step |
| `ReduceTheorems.ReduceTerminates` | src/proc.cc:878-938 | runs are bounded |
| `ReduceBytes.StageSim` | src/proc.cc:878-938 | executing a stage's operations, with the token's where ranks take turns, has the effect of the machine's stage |
| `ReduceBytes.Simulated` | src/proc.cc:878-938 | every run of the cards' streams is a run of the machine, byte by byte |
| `ReduceBytes.StreamsNeverBlock` | src/proc.cc:878-938 | in every run of the streams, as long as a card has operations left, no wait for a flag holds every card up |
| `ReduceBytes.StreamsReduce` | src/proc.cc:857-942 | when the root has left a call, its user has every byte of the chain's slices summed over all ranks of all cards, at its place |
| `ReduceBytes.SharedOut` | src/proc.cc:872-885 | the chains of the ranks of a card share the data out: every byte is in a slice of one of them |
| `Alltoall.PairComm.SendRecvNotify` | src/misc/barrier.cc:83-89 | a notification bears the next number of its pair and goes to the flag of that parity |
| `Alltoall.PairComm.SendRecvWait` | src/misc/barrier.cc:91-95 | a wait is for equality with the next number of its pair |
| `Alltoall.PairComm.Alltoall` | src/proc.cc:943-976 | the copy of the own block, and then the loops over rounds and pieces, which emit every piece with the numbers the counters give |
| `Alltoall.HostIsProgram` | src/proc.cc:952-976 | the emitted stream is the program that the ranks are proved about |
| `AlltoallMachine.Window` | src/misc/barrier.cc:83-95 | a rank is never more than two notifications ahead of its peer's waits |
| `AlltoallMachine.NothingOverwritten` | src/misc/barrier.cc:83-95 | every notification not yet waited for is still in its flag, and waits never run ahead |
| `AlltoallMachine.OneWriter` | src/proc.cc:960-970 | at most one rank may write a receive buffer at any time, also where send peer and receive peer coincide |
| `AlltoallMachine.AlltoallDelivers` | src/proc.cc:943-976 | every finished piece has the data of the rank it came from |
| `AlltoallMachine.AlltoallTransposes` | src/proc.cc:943-976 | every byte of rank f's block for r ends in r's block from f |
| `AlltoallMachine.AlltoallNeverDeadlocks` | src/proc.cc:952-976 | while a rank is unfinished, some rank can take a step |
| `AlltoallMachine.AlltoallTerminates` | src/proc.cc:952-976 | runs are bounded |
| `AlltoallBytes.PieceIsStages` | src/proc.cc:952-976 | the operations of an emitted piece are those of its stages, one after the other |
| `AlltoallBytes.StageSim` | src/proc.cc:952-976 | executing the operations of a stage, its user offsets and lengths included, has the effect of the machine's stage |
| `AlltoallBytes.Simulated` | src/proc.cc:943-976 | every run of the ranks' streams is a run of the machine, byte by byte |
| `AlltoallBytes.RingWaitExact` | src/proc.cc:972-974 | the wait for the ring's flag ends exactly when the previous rank has sent it at the end of the same piece |
| `AlltoallBytes.StreamsNeverBlock` | src/proc.cc:943-976 | in every run of the streams, as long as a rank has operations left, some rank can execute one |
| `AlltoallBytes.StreamsTranspose` | src/proc.cc:943-976 | byte f * size + x of rank r's receive buffer is byte r * size + x of what rank f sends, for all ranks f and r |
| `Alltoallv.MeetIs` | src/collectives/all_to_all.cc:21-28 | the peer formula, without remainders |
| `Alltoallv.MeetBack` | src/collectives/all_to_all.cc:21-28 | in every step the peer's peer is the rank itself, for odd and even rank counts |
| `Alltoallv.MeetOnce` | src/collectives/all_to_all.cc:21-28 | every two ranks meet in exactly one step |
| `Alltoallv.PiecesCarryAll` | src/collectives/sendrecv.cc:17-28 | the pieces carry every byte exactly when the element size divides MAX_SIZE or one piece is enough |
| `Alltoallv.ScheduleMatches` | src/collectives/all_to_all.cc:27-39 | sends and receives match in every slot of the schedule |
| `Alltoallv.AlltoallvDelivers` | src/collectives/all_to_all.cc:15-41 | every piece that any rank had for any other is received from the slot in which it was sent |
| `AlltoallvHost.SendRecvComm.EnqueueCheck` | src/enqueue.cc:592-640 | what the Send and Recv branches put on the stream, in order, with the numbers of notification and wait |
| `AlltoallvHost.SendRecvComm.Transfer` | src/collectives/sendrecv.cc:17-28 | a transfer puts the operations of its pieces on the stream, piece by piece, covering its count |
| `AlltoallvHost.SendRecvComm.Alltoallv` | src/collectives/all_to_all.cc:15-41 | the stream gets the copy of the own data, and then the operations of every step, the lower rank sending first |
| `AlltoallvHost.HostIsProgram` | src/collectives/all_to_all.cc:27-39 | what the host enqueues is what the rank's roles in the slots say |
| `AlltoallvHost.CallRolesAre` | src/collectives/all_to_all.cc:27-39 | a rank's roles in the common schedule are those its own data give it |
| `Rendezvous.Window` | src/misc/barrier.cc:83-95 | two flags suffice for Send and Recv between any ranks |
| `Rendezvous.WaitExact` | src/enqueue.cc:592-640 | a wait ends exactly when the mate has sent its notification of the same transfer |
| `Rendezvous.OneWriter` | src/enqueue.cc:592-640 | at most one rank may write a receive buffer at any time |
| `Rendezvous.RendezvousDelivers` | src/enqueue.cc:592-640 | a receiver that has left a transfer has what its sender had for it |
| `Rendezvous.RendezvousNeverDeadlocks` | src/enqueue.cc:592-640 | while a rank is unfinished, some rank can take a step, for every matching program of sends and receives |
| `Rendezvous.RendezvousTerminates` | src/enqueue.cc:592-640 | runs are bounded |
| `RendezvousBytes.SendIsStages` | src/enqueue.cc:592-621 | the operations of a Send are those of the machine's stages in the order of its program, with the numbers that the mate notifies and awaits |
| `RendezvousBytes.RecvIsStages` | src/enqueue.cc:622-640 | so are those of a Recv |
| `RendezvousBytes.StageSim` | src/enqueue.cc:592-640 | executing the operation of a stage, its user offset and length included, has the effect of the machine's stage |
| `RendezvousBytes.Simulated` | src/enqueue.cc:592-640 | every run of the ranks' streams is a run of the machine, byte by byte |
| `RendezvousBytes.StreamsNeverBlock` | src/enqueue.cc:592-640 | in every run of the streams, as long as a rank has operations left, some rank can execute one |
| `RendezvousBytes.StreamsDeliver` | src/enqueue.cc:592-640 | for every matching program of sends and receives, a received piece is what the mate sent, byte by byte, until a later piece is received into the same memory |
| `AlltoallvBytes.HostIsStages` | src/collectives/all_to_all.cc:15-41 | what Alltoallv enqueues for a rank are the calls of its stages |
| `AlltoallvBytes.StreamsExchange` | src/collectives/all_to_all.cc:15-41 | when a rank has executed its stream, byte rdispls[f] + x of its receive buffer is byte sdispls[r] + x of rank f's send buffer, for all ranks f, its own included |
| `DirectAllReduce.SlicesPartition` | src/proc.cc:228-235 | the per-card counts partition the chunk |
| `DirectAllReduce.EmptySlices` | src/proc.cc:228-235 | a slice is empty exactly when the chunk ends before it; full chunks have none |
| `DirectAllReduce.OnlyLastIsShort` | src/proc.cc:213-226 | within a call halves alternate and only the last chunk can have empty slices |
| `DirectAllReduce.DirectComm.OneChunk` | src/proc.cc:213-333 | the body of the loop emits both exchanges, without waits for empty slices |
| `DirectAllReduce.DirectComm.AllReduceA2A` | src/proc.cc:168-343 | a whole call puts on the stream the handshakes and then the operations of exactly its chunks |
| `DirectAllReduce.DirectCallExtends` | src/proc.cc:168-226 | after any calls, those chunks leave a program that the machine's theorems cover |
| `DirectAllReduce.StreamIsStages` | src/proc.cc:180-333 | what is left of an emitted chunk is the operations of the machine's present stage and then what is left after it |
| `DirectMachine.OneBehind` | src/proc.cc:180-181 | a card in the loop of a chunk proves that every card has reduced its slice of the chunk before; the handshakes carry this over calls |
| `DirectTheorems.ResultRaceFree` | src/proc.cc:311-323 | a result overwrites a slice only after its owner has pushed that slice, and before it copies out |
| `DirectTheorems.SliceRaceFree` | src/proc.cc:257-278 | while a card pushes a slice for reduction, its receiver is not reducing |
| `DirectTheorems.DirectDelivers` | src/proc.cc:168-343 | all cards deliver the same complete reduction of every slice, although empty slices are not waited for |
| `DirectTheorems.FullIsReduction` | src/proc.cc:279-303 | that is the reduction in card order, without any law for the operation |
| `DirectTheorems.DirectNeverDeadlocks` | src/proc.cc:213-333 | while a card is unfinished, some card can take a step |
| `DirectTheorems.DirectTerminates` | src/proc.cc:213-333 | runs are bounded |
| `DirectBytes.StageSim` | src/proc.cc:213-333 | executing the operations of a stage, their offsets in halves and users and the pushed counter included, has the effect of the machine's stage |
| `DirectBytes.Simulated` | src/proc.cc:168-343 | every run of the cards' streams is a run of the machine, element by element |
| `DirectBytes.StreamsNeverBlock` | src/proc.cc:213-333 | in every run of the streams, as long as a card has operations left, no wait holds every card up |
| `DirectBytes.StreamsReduceAll` | src/proc.cc:168-343 | every user of a card that has left a chunk has every element of it reduced over all ranks of all cards in card order, at its place |
| `DirectBytes.CallFits` | src/proc.cc:213-235 | the chunks of a call are cut as the streams need it and lie one after the other in the users' memory |
| `DirectBytes.SharedOut` | src/proc.cc:213-235 | the ranks of a card share the data out: every element is in a slice of a chunk of one of them |
| `SplitToken.ChunksPartition` | src/proc.cc:1087-1106 | the strided loops of all ranks handle every element exactly once |
| `SplitToken.TurnsExclude` | src/proc.cc:1113-1119 | device reductions of the ranks of a card exclude each other |
| `SplitToken.TurnsInOrder` | src/proc.cc:1113-1119 | they happen in the order of the chunks |
| `SplitToken.TurnsNeverBlock` | src/proc.cc:1113-1161 | while a rank is unfinished, some rank can take a step, however unequal the numbers of their chunks |
| `SplitToken.TurnsTerminate` | src/proc.cc:1113-1161 | runs are bounded, so maximal runs finish |
| `TokenRings.TokenRingsNeverDeadlock` | src/proc.cc:1087-1161 | with N cards of R ranks, where reductions wait for the token and turns for the rings, some rank can take a step while one is unfinished |
| `TokenRings.TokenRingsTerminate` | src/proc.cc:1087-1161 | runs of token and rings together are bounded |
| `TokenRings.TokenRingsDeliver` | src/proc.cc:1087-1161 | every chunk of the calls that a rank has left is delivered with its exact result |
| `TokenStreams.StageIsTokens` | src/proc.cc:1113-1119 | executing a rank's operations on the split flag has the effect of the machine's stage, and holds the rank up as it does |
| `TokenStreams.NicTakesTurns` | src/proc.cc:1060-1161 | what an AllReduce leaves on a rank's stream about the turns is the machine's program for the rank, as many turns as chunks |
| `TokenStreams.SlicedTakesTurns` | src/proc.cc:731-856 | so is it for AllGather and ReduceScatter, up to the write at the end, which they lack |
| `TokenStreams.FlagComesBack` | src/proc.cc:731-856 | that write would change nothing: all ranks have as many turns, and then the flag is clear by itself |
| `TokenStreams.ReduceTakesTurns` | src/proc.cc:857-942 | so is it for Reduce |
| `TopologyHost.RankLists` | src/init.cc:397-406 | every card's list is at its first rank and holds its ranks in order |
| `Topology.ListsPartition` | src/init.cc:286-288 | the lists partition the ranks into the cards |
| `TopologyHost.Numbers` | src/init.cc:409-439 | card numbers count a node's cards by physical number and rank, node numbers count nodes by first card |
| `Topology.RingIsComplete` | src/init.cc:464-473 | the ring's order names every card exactly once |
| `TopologyHost.RingOrder` | src/init.cc:464-473 | the triple loop lists the cards in that order |
| `TopologyHost.PlaceIs` | src/init.cc:496-496 | card c of node i is at place i * cards + c |
| `TopologyHost.NicRankList` | src/init.cc:355-504 | every rank learns its list, numbers, neighbours and place, as the ring order has them |
| `TopologyHost.NextAndPrevAgree` | src/init.cc:494-496 | the next rank's previous rank is the rank itself and its place is the next one |
| `TopologyHost.OneCycle` | src/init.cc:489-504 | following the next ranks visits every card once before coming back |
| `Graph.BuildTemplate` | src/init.cc:1307-1388 | the loops that fill the node vectors build the templates |
| `Graph.GraphManager.EndModifyGraph` | src/include/graph.h:65-72 | succeeds exactly when every node has been updated |
| `Graph.GraphManager.Modify` | src/include/graph.h:60-100 | an update with the template's kinds meets the right node every time and ends at the end |
| `Graph.DoublingFits` | src/enqueue.cc:19-211 | the recursive-doubling routines update exactly the kinds of their templates |
| `Graph.MutFits` | src/enqueue.cc:213-274 | so does the halving-doubling routine |
| `Graph.SmallAllreduceGraph` | src/enqueue.cc:323-397 | for every power of two of cards, size and type the cursor of the chosen template ends at its end |
| `Graph.MutOnlyPowersOfTwo` | src/init.cc:1371-1383 | the second loops of routine and template agree exactly on powers of two of cards |
| `Sharp.FindWork` | src/misc/sharp.cc:149-163 | among the ranks below the first communicator's count the search finds the first entry with work, by rank number and then communicator, or there is none |
| `Sharp.SearchIsFinds` | src/misc/sharp.cc:149-163 | what the search returns is what a thread of the model picks up |
| `Sharp.FindPort` | src/misc/sharp.cc:183-190 | a node other than the root takes the broadcast port if it has it, and else keeps what it had found |
| `Sharp.AgreementExact` | src/misc/sharp.cc:137-206 | the nodes execute one common order in every run, exactly when the root never has visible work under a port that some node lacks while all nodes can go on |
| `Sharp.ReductionPairsPosts` | src/misc/sharp.cc:199-221 | a node's m-th execution of an entry combines its m-th post with the m-th posts of all other nodes |
| `Sharp.PostsAreExecutedOnce` | src/misc/sharp.cc:567-584 | each post is executed exactly once before its rank resumes, whatever the nodes post |
| `Sharp.DeadlockExact` | src/misc/sharp.cc:137-221 | when all nodes post the same, no run blocks before everything is executed, exactly when every posting rank's number is below the rank count of its node's first communicator |
| `Sharp.HiddenRanksBlock` | src/misc/sharp.cc:484-495 | two nodes that post the same block when the first communicator has one rank a node and the second four |
| `Sharp.SharpNeverDeadlocks` | src/misc/sharp.cc:137-221 | when all that is posted is visible, something can happen as long as a post is not executed |
| `Sharp.SharpTerminates` | src/misc/sharp.cc:137-221 | runs are bounded by what there is to post |

## Left out

- The build for logical cards and double rings (`_SWIB_`), `_NODE_TEST_`, the two-card AllReduce and the pull path (`recv_enable`): variants of the modelled schedules.
- Device kernels, sockets, IB verbs, shared memory, allocation, logging and start-up: I/O and foreign calls; copies and reductions are abstract steps.
- Transport kinds: P2P, IB, NIC and DMA differ in how a push is carried out; the model has one push and one flag write. Over DMA Send and Recv write the user's buffer directly and are not split into pieces; that path is not modelled.
- Bytes past the end of the user's data in the last slice of a short AllReduce chunk: whole slices are sent, as in the source; what the padding holds is not modelled.
- The previous-card handshake is part of the Broadcast and Reduce machines, as it is of every call on nodes with more than one card; when these chains stay safe without it, with one card a node, is not stated. Only the ring is examined without it, and there AllReduce.
- A call in which a rank has no chunk sends only the handshake: in the ring program it leaves no trace, and the counter step of that handshake is not modelled.
- The split flag is joined with the rings in `TokenRings`; the card barrier is proved in a machine of its own (`Barrier`), and its arrivals are a meeting in `SplitToken`. In the machines of the other collectives the local reduction is one step, the direct AllReduce's token and final barrier are not in its stream, and the meeting that ends a piece of Alltoall waits until its members have come.
- The flag waits inside the resident kernel of the halving-doubling path: its rounds are taken as synchronous. The waits and flags of the graph itself are executed (`HalvingBytes.WaitsPass`, `HalvingBytes.FlagsArrive`), apart from the data.
- The operations of one stage of a card are executed together; they are operations of the card itself, such as a local reduction between the token's wait and its passing on.
- Tokens and card barriers do nothing to the bytes: the streams of one rank of every card are executed together. How the ranks of a card take turns is in `SplitToken` and `TokenRings`, and that the streams do so in `TokenStreams`.
- AlltoallBytes covers one call, from any flags and buffer contents that earlier calls leave; the other byte modules cover sequences of calls.
- The SHARP library: broadcast and reduction are rendezvous of all nodes; a search for work is one step, so entries that change while it is under way are seen either before or after.
- The halves of the direct AllReduce's cross buffers are buffers of their own in `DirectBytes`; that its slices stay inside a half is `SliceSize.DirectSlicesFit`.
- Alltoallv is stated on bytes for data in one piece or elements that divide MAX_SIZE, and areas of the receive buffer that do not overlap; other element sizes lose bytes (`Alltoallv.PiecesCarryAll`).
- Different pieces of one Alltoallv step are numbered through for all pairs; a pair that has no piece left in a slot idles there, which adds no operation to a stream.
