# ssmp, modelled and verified in Dafny

ssmp passes messages between processes through shared memory: every ordered pair of processes has one
cache-line slot with a state flag, barriers are a `ticket` counter with a `cleared` flag, and messages larger than
a slot go through a chunk buffer per sender. This project models those mechanisms, and the programs built on
them, as state machines over all interleavings, and proves what they keep over every run.

`dafny verify dfyconfig.toml` checks everything.

## How to read it

A run is a sequence of scheduler choices (which thread or process makes its next shared access, and where the code
leaves something to chance, what it picks), executed by a deterministic step function: `Exec(..., schedule)`. A
lemma about every schedule is a statement about every interleaving of every length. Each machine has an inductive
invariant, proved step by step; the main lemmas read their statements off it. What an
operation does when nothing stands in its way is stated as well (`Network.SendGetsThrough`, `ClientServer.SendPuts`,
`Bank.ProcessTakes` and their like), so that safety does not rest on operations that are never performed.

| file | what it models |
|---|---|
| Barrier.dfy | the reusable two-gate barrier, one shared access at a time, and the barrier object in memory |
| Participants.dfy | who takes part in a barrier, as each caller counts it |
| BarrierTest.dfy | slots, broadcast and all 16 barriers together in the barrier test program |
| BarrierTestWords.dfy | the same program with its slots word by word |
| StartedTest.dfy | the same program in the memory that start-up leaves |
| Channel.dfy, Words.dfy | one slot word by word, with polling or compare-and-swap on either side, and its one-place abstraction |
| Network.dfy | all slots of n processes, receive from one or from any |
| ColourReceive.dfy | the compacted view of the slots and the fair scan with its persistent cursor |
| Slots.dfy, Startup.dfy | slot addresses on both sides; the start-up handshakes on x86 and SPARC |
| ClientServer.dfy | the client/server benchmark and its distributed termination rule |
| ClientServerWords.dfy | the same benchmark with its slots word by word |
| Bank.dfy, Routing.dfy | the bank servers before shutdown; account numbers to servers |
| BigMessage.dfy | chunked messages byte by byte |
| Bits.dfy, Arith.dfy, Common.dfy | machine words bit by bit, division facts, counting and sums |

Assumptions: sequentially consistent memory; shared memory is fresh and zeroed (for start-up only the barriers, the
address table and `ues_initialized` need be, as slot and chunk flags may be stale there); a copy writes the flag-bearing last
word of a slot, and the last byte of a chunk, after the others; fewer than 2^32 processes. BarrierTest, ClientServer and
Bank take a slot transfer as one step. For the first two BarrierTestWords and ClientServerWords carry the theorems down
to single words and flag accesses. For Bank `Channel.StepRefines` and `Network.StepRefinesOnePlace` prove that the
word-by-word slots show their users exactly the one-place channels it uses, and `Channel.SendSucceeds` and
`Channel.ReceiveSucceeds` that the slots refuse a transfer no more often; that last composition is not itself a theorem.

## What came out false

Each of these is proved together with the exact condition under which the code does what it is for.

- A barrier counts its callers correctly exactly if what its participants' colours exceed 1 by adds up to a multiple of
  2^32 (`Participants.AgreementIffNoExcess`). Among colours of at least 0 that add up to less than 2^32 that means
  colours 0 and 1 (`Participants.AgreementIffZeroOne`); the library's own `color` function, 10 * id, makes one process
  wait for ten (`Participants.TenTimesIdMiscounts`). With negative colours 0 and 1 are not the only ones that count
  right, nor do all colours up to 1 (`Participants.NegativeColours`).
- The interface promises that barrier participants may be given as a bitmap (include/ssmp.h:196-198). The code that
  waits would honour any map (`Participants.NumPart`), but configuring a barrier stores all ones instead
  (`Participants.InitBarrier`). The participants are those asked for exactly if the barrier has a colour function or
  every id below 64 that exists is in the map; otherwise the barrier waits for more than were asked for
  (`Participants.MapIsHonouredIff`), as for the map of process 0 alone (`Participants.LoneProcessWaitsForTwo`).
- With more than 64 threads, start-up can read another thread's address before it is published and exit
  (`Startup.AddressesAreThereIffAtMost64`).
- The termination rule of the client/server benchmark works exactly if there is a client, and there are more messages
  than servers or one of each (`ClientServer.ExactIffBalanced`); otherwise the last server, which is sent nothing, never
  leaves, and with no clients none does (`ClientServer.DetectionIsExact`).
- The "Ping-pong failed" report is printed in error-free runs once message numbers need more than 31 bits
  (`ClientServer.PingPongReport`).
- The 8-bit sender tags of a colour view are true only for ids below 256 (`ColourReceive.TagsAreTrueIffByte`).
- Accounts are mapped one to one onto servers exactly when the servers divide the accounts
  (`Routing.OneToOneIffDivides`); with more servers than accounts the lookup divides by zero (`Routing.LookupInBounds`).
- A full chunk overwrites the flag with its last byte, and the flag overwrites that byte: the byte arrives as 1, so a
  message arrives as sent exactly if those bytes are 1 (`BigMessage.MessageArrives`, `BigMessage.ExactIffFlagBytes`).
  Copied byte by byte, any sequence of chunks is free of phantom messages in all runs exactly if no full one ends in
  a byte other than 0 (`BigMessage.PhantomFreeIffSafe`).
- The bound on bypasses of the fair receive is one for a single colour view (`ColourReceive.BoundedBypass`). Views share
  the thread's cursor, and beside another view, of whatever size, the bound survives all patterns of calls and arrivals
  exactly if the view has a single entry (`ColourReceive.BoundedBesideIffSingle`).

## Model

| member | source | states |
|---|---|---|
| Barrier.Safety | src/arch/x86/ssmpthread_arch.c:413-442 | In every run and across all reuses a participant that has returned from r waits sees every participant's r-th increment done, and completed rounds of any two differ by at most one |
| Barrier.CounterDiscipline | src/arch/x86/ssmpthread_arch.c:422-442 | In every run the 32-bit ticket never wraps and equals the threads between increment and decrement; at most one thread is about to open or reset; one opening and one reset per round |
| Barrier.TurnKeepsInv | src/arch/x86/ssmpthread_arch.c:413-442 | Every access of every thread keeps the round invariant: filling or draining, with the fetch and the later store of `cleared` as separate steps |
| Barrier.SomebodyMoves | src/arch/sparc/ssmp_arch.c:349-378 | A thread in wait is never stuck: some thread has a step that is not a spin, unless a participant still due in that round has not called |
| Barrier.WorkDescends | src/arch/x86/ssmp_arch.c:433-462 | Every step that is neither a spin nor a new call consumes a bounded amount of work |
| Barrier.RoundCompletes | src/arch/x86/ssmp_arch.c:433-462 | Once all participants have called, some schedule no longer than the remaining work brings all of them back from that round |
| Barrier.SharedBarrier.Access | src/arch/x86/ssmpthread_arch.c:413-442 | The code's accesses on `ticket` and `cleared` in place are the steps of the machine |
| Barrier.SharedBarrier.Run | src/arch/x86/ssmpthread_arch.c:413-442 | The shared object driven by any schedule follows the machine and keeps its invariant |
| Participants.InitBarrier | src/arch/x86/ssmpthread_arch.c:358-369 | Configuring a barrier stores all ones and the colour function, whatever bitmap is passed, resets `ticket` and `cleared`, and leaves the other barriers alone |
| Participants.MapIsHonouredIff | src/arch/x86/ssmpthread_arch.c:358-411 | For any number of processes the participants of a configured barrier are those the caller asked for if and only if it has a colour function or the map holds every existing id below 64; otherwise they are strictly more |
| Participants.OnlyAllOnesIsHonoured | include/ssmp.h:196-198 | Without a colour function the map of all ones is the only one that is honoured for every number of processes |
| Participants.LoneProcessWaitsForTwo | src/arch/x86/ssmpthread_arch.c:365-411 | A barrier configured for process 0 alone makes it wait for process 1 |
| Participants.NumPart | src/arch/x86/ssmpthread_arch.c:383-411 | For any bitmap or colour function, a caller returns early exactly if it does not take part, and otherwise gets the 32-bit sum that every other caller gets |
| Participants.TotalIsSum | src/arch/x86/ssmpthread_arch.c:390-411 | What is counted is the plain sum of the colours, or of the bits of the map |
| Participants.AgreementIffNoExcess | src/arch/x86/ssmpthread_arch.c:383-411 | For any colours, negative ones and 32-bit wrap-around included, the number each caller waits for is the number of callers that stay if and only if the participants' colours less one add up to a multiple of 2^32 |
| Participants.AgreementIffZeroOne | src/arch/x86/ssmpthread_arch.c:383-411 | Among non-negative colours with a sum below 2^32, the number each caller waits for is the number of callers that stay if and only if no colour exceeds 1 |
| Participants.NegativeColours | src/arch/x86/ssmpthread_arch.c:383-411 | With negative colours that equivalence fails both ways: -1 and 3 are counted right, and -1, 1, 1 wrong |
| Participants.TotalCountsParticipants | src/arch/x86/ssmpthread_arch.c:390-411 | For 0/1 colours, or none, the count is the number of ids that do not return early |
| Participants.PlainCountsSixtyFour | src/arch/x86/ssmpthread_arch.c:403-409 | Without a colour function only ids 0 to 63 take part, for any number of processes |
| Participants.TenTimesIdMiscounts | src/ssmp.c:110-114 | With the colour 10 * id and two processes, one participant waits for ten |
| BarrierTest.EverybodyFollowsProcessZero | benchmarks/barrier_test.c:126-156 | In every run, for any plan of process 0, each process waits on a prefix of process 0's sequence of barriers, and on all of it when finished |
| BarrierTest.BarriersSynchronise | benchmarks/barrier_test.c:132-151 | In every run two participants of a barrier are never more than one of its rounds apart |
| BarrierTest.NeverStuck | benchmarks/barrier_test.c:126-156 | In every reachable unfinished state some process can take a step that is not a spin, over slots, broadcast and all barriers together |
| BarrierTest.RealStepsAreBounded | benchmarks/barrier_test.c:126-156 | No run contains more than a fixed number of steps that are not spins |
| BarrierTest.EveryRunCanFinish | benchmarks/barrier_test.c:126-156 | Every run can be continued until all processes are through |
| BarrierTest.TurnKeepsInv | benchmarks/barrier_test.c:132-151 | Every step keeps the tour, the slot contents and the invariants of all 16 barriers |
| BarrierTest.TurnProjects | src/arch/x86/ssmp_arch.c:391-466 | To each barrier, a step of the program is one of its own steps or invisible |
| BarrierTest.LastCanCommunicate | src/ssmp_broadcast.c:39-52 | A process that has come back from the fewest waits is never blocked on a slot unless process 0 can move |
| BarrierTest.CallersAgree | src/arch/x86/ssmp_arch.c:402-431 | For all 16 barriers the count every caller computes is the size of the set of callers that stay |
| BarrierTest.WhoTakesPart | src/ssmp.c:92-95 | Barrier 1 is for the ids that are no multiples of 3, each other barrier for the ids below 64 |
| BarrierTest.ArrivalAtBarrierOne | benchmarks/barrier_test.c:132-151 | Arriving at barrier 1, a process whose id is a multiple of 3 goes on at once and leaves all barriers alone, and any other is held at its gate |
| BarrierTest.Broadcast | src/ssmp_broadcast.c:39-52 | The broadcast loop fills the empty slots in id order, skips the sender, and goes no further than the first full slot |
| BarrierTest.BroadcastTurn | src/ssmp_broadcast.c:39-52 | Every iteration of that loop is the step of process 0 in the machine |
| BarrierTest.Program.WaitAccess | src/arch/x86/ssmp_arch.c:433-462 | One access to `ticket` or `cleared` of one of the 16 barriers, in place with the code's own case distinction |
| BarrierTest.Program.Access | benchmarks/barrier_test.c:132-151 | The program's accesses in place are the steps of the machine |
| BarrierTest.Program.Run | benchmarks/barrier_test.c:132-151 | The program run under any schedule from the start follows the machine |
| BarrierTestWords.FineStepRefines | src/platform/niagara/ssmp_platf.c:44-194 | With slots word by word, and each side polling or using compare-and-swap, every access of any process is a step of the coarse program by that process or invisible to it |
| BarrierTestWords.RunRefines | benchmarks/barrier_test.c:126-156 | Every word-by-word run shows, through the slots, a run of the coarse program |
| BarrierTestWords.EverybodyFollowsWordByWord | benchmarks/barrier_test.c:126-156 | In every word-by-word run each process waits on a prefix of process 0's sequence of barriers, and on all of it when finished |
| BarrierTestWords.BarriersSynchroniseWordByWord | benchmarks/barrier_test.c:132-151 | In every word-by-word run two participants of a barrier are never more than one of its rounds apart |
| BarrierTestWords.NeverStuckWordByWord | benchmarks/barrier_test.c:126-156 | In every reachable unfinished state some process can make an access that is not a spin, whichever way it acquires a slot |
| BarrierTestWords.RealAccessesAreBounded | benchmarks/barrier_test.c:126-156 | No word-by-word run contains more than a fixed number of accesses that are not spins |
| BarrierTestWords.EveryRunFinishesWordByWord | benchmarks/barrier_test.c:126-156 | Every word-by-word run can be continued until all processes are through |
| StartedTest.HandedOnIsInit | src/arch/x86/ssmpthread_arch.c:186-235 | Whatever its slot and chunk flags said before, start-up of 2 to 64 processes hands on the slots and barriers that the barrier test program expects, up to the one round of barrier 0 that is over |
| StartedTest.EverybodyFollowsOnceStarted | benchmarks/barrier_test.c:126-156 | After any such start-up, in every run each process waits on a prefix of process 0's sequence of barriers, and on all of it when finished |
| StartedTest.NeverStuckOnceStarted | benchmarks/barrier_test.c:126-156 | After any such start-up, in every reachable unfinished state some process can take a step that is not a spin |
| StartedTest.EveryRunFinishesOnceStarted | benchmarks/barrier_test.c:126-156 | After any such start-up every run can be continued until all processes are through |
| Channel.LosslessFifo | src/platform/niagara/ssmp_platf.c:44-55 | In every run what was sent is what was received plus at most one message; a slot that announces a message holds it whole; the two copies never overlap |
| Channel.StepKeepsInv | src/platform/niagara/ssmp_platf.c:183-194 | Every flag test, word copy and flag store by either side keeps the slot invariant |
| Channel.StepRefines | src/platform/xeon/ssmp_platf.c:277-300 | Whichever of compare-and-swap and polling each side uses, each access is a put into an empty one-place channel, a take from a full one, or invisible |
| Channel.SendSucceeds | src/platform/xeon/ssmp_platf.c:277-300 | An empty slot lets a whole send through, by either way of acquiring it |
| Channel.ReceiveSucceeds | src/platform/xeon/ssmp_platf.c:91-116 | A full slot lets a whole receive through, which returns the message put in |
| Channel.Slot.Send | src/platform/niagara/ssmp_platf.c:183-194 | An uninterrupted send is refused on a full slot without a trace, and otherwise leaves the whole message and the flag |
| Channel.Slot.Receive | src/platform/niagara/ssmp_platf.c:44-55 | An uninterrupted receive is refused without a message, and otherwise returns it and frees the slot |
| Channel.Slot.ContinueSend | include/ssmp_sparc.h:127-141 | One access of a send in place: the next word, or the flag after the last word |
| Network.EveryPairIsFifo | src/platform/niagara/ssmp_platf.c:44-78 | In every run of n processes, for every ordered pair, sent is received plus at most one, and an announced message is whole |
| Network.SendGetsThrough | src/platform/niagara/ssmp_platf.c:183-194 | For every ordered pair of n processes: a process at nothing else that faces an empty slot gets a whole send through, by polling or compare-and-swap, leaving the message, the flag and nothing else changed |
| Network.ReceiveGetsThrough | src/platform/niagara/ssmp_platf.c:44-78 | For every ordered pair: a process at nothing else that faces a full slot gets the whole message with its sender's name, the flag taken down and nothing else changed |
| Network.RefusedWithoutTrace | src/platform/niagara/ssmp_platf.c:44-194 | A slot that is not empty refuses a send, and one without a message a receive, and the state stays as it is |
| Network.ReceiveAnyMerges | src/platform/niagara/ssmp_platf.c:57-140 | In every run the k-th letter a process receives names another process truly and is that process's next message in sending order |
| Network.StepRefinesOnePlace | src/platform/niagara/ssmp_platf.c:44-194 | Of all one-place channels an access changes at most the one its process is working on, by a put or a take |
| Network.StepProjects | src/platform/niagara/ssmp_platf.c:44-194 | To each pair, a step of any process is a step of that pair's slot or invisible |
| ColourReceive.SelectedIsEnumeration | src/arch/x86/ssmpthread_arch.c:277-344 | The participants of a view are the strictly increasing enumeration of the selected ids other than the receiver |
| ColourReceive.BuildView | src/arch/x86/ssmpthread_arch.c:262-347 | The two passes leave, at each place, the slot and the 8-bit id of the enumeration's entry |
| ColourReceive.TagsAreTrueIffByte | src/arch/x86/ssmpthread_arch.c:318-341 | Every entry names its sender truly if and only if no selected id exceeds 255 |
| ColourReceive.BoundedBypass | src/platform/generic/ssmpthread_platf.c:142-175 | For one view: from the moment a participant's slot is full, the calls return at most num_ues - 1 messages of others before it is served, for any arrivals and any stale cursor |
| ColourReceive.ServedWithinRound | src/platform/generic/ssmpthread_platf.c:142-175 | A participant whose slot stays full is served by one of the next num_ues calls that go on long enough to test every slot |
| ColourReceive.BoundedBesideIffSingle | src/platform/generic/ssmpthread_platf.c:142-175 | Beside a second view of any size on the same thread, which shares the cursor, a view with a waiting entry returns fewer than num_ues messages of others before serving it, in every mixture of calls and for all arrivals, if and only if it has a single entry |
| ColourReceive.CallReturns | src/platform/generic/ssmpthread_platf.c:150-174 | A call made while some slot stays full returns within num_ues tests |
| ColourReceive.ScanIsFirstHit | src/platform/generic/ssmpthread_platf.c:150-174 | A call returns the first entry, going round from the cursor, that announces a message when tested |
| ColourReceive.Scanner.Receive | src/platform/generic/ssmpthread_platf.c:144-175 | The nested loops over the persistent cursor perform that scan |
| Slots.SidesAgree | src/arch/x86/ssmpthread_arch.c:195-220 | The sender's pointer for i to j is the receiver's pointer for j from i |
| Slots.PairsFillBlocks | src/arch/x86/ssmp_arch.c:188-240 | Ordered pairs correspond one to one to n blocks of n - 1 slots |
| Slots.BlocksAreInOrder | src/arch/x86/ssmp_arch.c:188-240 | Within a process's block the slots are in the order of the senders' ids |
| Slots.FillPointers | src/arch/x86/ssmpthread_arch.c:186-221 | The set-up loops of a process store these pointers for every other process |
| Slots.MatrixIsExact | src/arch/sparc/ssmp_arch.c:158-167 | In the row-major layout both sides agree, and row and column can be read back from the index |
| Slots.MatrixIsFull | src/arch/sparc/ssmp_arch.c:158-167 | Every entry of the matrix belongs to a pair |
| Slots.FillMatrixPointers | src/arch/sparc/ssmp_arch.c:158-167 | The SPARC set-up loop stores these indices |
| Startup.NothingErasedNothingStale | src/arch/x86/ssmpthread_arch.c:186-235 | In every run of two or more threads, whatever the flags said before, no clearing step hits data a running thread has posted, and from the moment anybody runs the flags announce exactly what was posted and not taken |
| Startup.SendsShow | src/arch/x86/ssmpthread_arch.c:186-235 | Only threads that are through send and receive: a send raises the flag of the slot or chunk buffer, a receive takes it down |
| Startup.ClearedMeansEmpty | src/arch/x86/ssmpthread_arch.c:186-199 | Once a thread has come to barrier 0, and until somebody is through, no chunk buffer at all and none of the thread's own slots announces anything |
| Startup.AddressesAreThereIffAtMost64 | src/arch/x86/ssmpthread_arch.c:173-221 | In every run every address is published before anybody reads it, if and only if there are at most 64 threads |
| Startup.ThreadSixtyFourCrashes | src/arch/x86/ssmpthread_arch.c:206-218 | With more than 64 threads, thread 64 running alone passes barrier 0 and exits on a missing address |
| Startup.PassedMeansPublished | src/arch/x86/ssmpthread_arch.c:174-213 | In every run of 2 to 64 threads, once any thread is past barrier 0 every thread has published its address |
| Startup.NeverStuck | src/arch/x86/ssmpthread_arch.c:124-236 | In every run of 2 to 64 threads some thread can get on until all are through |
| Startup.EveryRunGetsThrough | src/arch/x86/ssmpthread_arch.c:124-236 | Every run of 2 to 64 threads can be continued until all are through start-up |
| Startup.BarrierHandedOn | src/arch/x86/ssmpthread_arch.c:204-235 | In every run of 2 to 64 threads, from the moment anybody is through start-up barrier 0 is in memory as it was at first, with one round completed |
| StartupSparc.NothingErasedNothingStale | src/arch/sparc/ssmp_arch.c:158-182 | The flag handshake alone, without a barrier, gives the same guarantee in every run of any number of processes |
| StartupSparc.SendsShow | src/arch/sparc/ssmp_arch.c:158-167 | The same, with the matrix entry of the pair |
| StartupSparc.NeverStuck | src/arch/sparc/ssmp_arch.c:158-182 | In every run some process can get on until all are through |
| StartupSparc.EveryRunGetsThrough | src/arch/sparc/ssmp_arch.c:158-182 | Every run of any number of processes can be continued until all are through start-up |
| ClientServer.DetectionIsExact | benchmarks/client_server.c:228-307 | In every run of a balanced configuration (a client, and more messages than servers or one of each) a server has left its loop exactly when it has received all that any client ever sends it; in any other the last server has nothing to receive and never leaves, and with no clients no server leaves |
| ClientServer.ExactIffBalanced | benchmarks/client_server.c:228-307 | A server has left exactly when it has received everything, in every run and for every server, if and only if the configuration is balanced |
| ClientServer.ShareEndsLow | benchmarks/client_server.c:280-294 | With more messages than servers, or one of each, each client sends each server exactly one number below num_dsl, and sends it nothing after that |
| ClientServer.UnbalancedStarves | benchmarks/client_server.c:273-294 | With any other number of messages the last server is sent nothing |
| ClientServer.NeverStuck | benchmarks/client_server.c:238-307 | A balanced program always has an enabled step until all clients are done and all servers have left |
| ClientServer.RealStepsAreBounded | benchmarks/client_server.c:238-307 | No run contains more than a fixed number of steps that are not failed tests |
| ClientServer.EveryRunCanFinish | benchmarks/client_server.c:238-307 | Every run of a balanced program can be continued to the end |
| ClientServer.ReplySlotIsEmpty | benchmarks/client_server.c:252-258 | In every run the reply slot is empty whenever a server replies, so the unsynchronised send behaves as the synchronised one |
| ClientServer.PingPongReport | benchmarks/client_server.c:296-299 | A client has reported a failed ping-pong if and only if it has completed a message and the message numbers exceed 31 bits |
| ClientServer.ClientLoop | benchmarks/client_server.c:273-307 | The client's loop sends message t to the server of its turn and reports every exchange after which the buffer does not hold the counter; the first message goes to server 0, the next num_dsl to the servers in order, and so on round |
| ClientServer.RoundRobin | benchmarks/client_server.c:273-294 | The machine's clients go round in the same order: server 0, then all servers in turn from server 0 on |
| ClientServer.SendPuts | benchmarks/client_server.c:278-288 | In any configuration a client with messages left that waits for no echo puts the next number, as a 32-bit one, into an empty slot to the server of its turn |
| ClientServer.CollectTakes | benchmarks/client_server.c:284-299 | A waiting client takes the echo from the server it sent to, goes on, and reports an echo that is not the counter |
| ClientServer.TakeTakes | benchmarks/client_server.c:243-267 | A server in its loop takes a message from any client with a full slot, and echoes or counts it |
| ClientServer.ReplyPuts | benchmarks/client_server.c:252-267 | The echo goes to the client the message came from, and then the number is counted |
| ClientServer.CountdownIsExact | benchmarks/client_server.c:228-267 | In every run of every configuration, balanced or not, a server's countdown is the clients less the low numbers taken and counted, and it has left exactly if that has come to zero |
| ClientServer.TrueEchoesMatch | benchmarks/client_server.c:280-299 | When the echoes return what was sent, that loop reports nothing if and only if the message numbers fit in 31 bits |
| ClientServer.ServerLoop | benchmarks/client_server.c:243-267 | The server's loop stops with the message that brings its 32-bit countdown to zero, and with no earlier one: with clients, when the low numbers are as many as they |
| ClientServer.BuildDslSeq | benchmarks/client_server.c:167-179 | The set-up loop lists exactly the ids divisible by dsl_per_core, in order, and counts both kinds |
| ClientServerWords.FineStepRefines | src/platform/xeon/ssmp_platf.c:91-300 | With slots word by word, and each operation polling or using compare-and-swap, every access of a client or server is its step in the coarse program or invisible to it |
| ClientServerWords.RunRefines | benchmarks/client_server.c:238-307 | Every word-by-word run shows, through the slots, a run of the coarse program |
| ClientServerWords.DetectionIsExactWordByWord | benchmarks/client_server.c:228-307 | In every word-by-word run of a balanced configuration a server has left its loop exactly when it has received all that any client ever sends it; in any other the last server never leaves |
| ClientServerWords.ReplySlotIsEmptyWordByWord | benchmarks/client_server.c:252-258 | In every word-by-word run, when a server sets about replying its reply slot's flag reads empty |
| ClientServerWords.NeverStuckWordByWord | benchmarks/client_server.c:238-307 | A balanced program always has an access that is no failed test until all clients are done and all servers have left |
| ClientServerWords.RealAccessesAreBounded | benchmarks/client_server.c:238-307 | No word-by-word run contains more than a fixed number of accesses that are not failed tests |
| ClientServerWords.EveryRunFinishesWordByWord | benchmarks/client_server.c:238-307 | Every word-by-word run of a balanced program can be continued to the end |
| Bank.RefinesSequentialBank | benchmarks/bank.c:117-151 | In every run each server is one sequential bank over its log: each client's requests in program order, balances and answers those of the sequential run |
| Bank.ReplyIsAwaited | benchmarks/bank.c:128-151 | An answer in a slot is the sequential bank's latest answer to that client, whose request is outstanding |
| Bank.ReplyNeverBlocks | benchmarks/bank.c:300-317 | In every run the reply slot is empty whenever a server replies |
| Bank.AskPuts | benchmarks/bank.c:208-235 | A client that waits for nothing puts any request for a real account into an empty slot, and then waits unless it is a deposit |
| Bank.ProcessTakes | benchmarks/bank.c:288-317 | A server with no answer to send takes any request of any client, deposits included, out of its slot, logs it and updates the account |
| Bank.AnswersTravel | benchmarks/bank.c:128-151 | An answer goes to the client it is for, and a client hears the server it waits for |
| Bank.EverythingGetsDone | benchmarks/bank.c:208-317 | Every run can be continued, without a new request, until all slots are empty, every request ever made is processed in its client's order, and every answer is heard |
| Bank.AnswerIsUnderWay | benchmarks/bank.c:128-151 | A waiting client's exchange can always be carried on |
| Bank.Conservation | benchmarks/bank.c:217-312 | In every run a server's balances are the deposits sent less those in slots less successful withdrawals, and none is negative |
| Bank.NoOverflow | benchmarks/bank.c:296-312 | While fewer than 2^31 units were deposited with a server its 32-bit balances stay in range |
| Bank.LogConserves | benchmarks/bank.c:296-312 | Processing any log in any order of clients conserves money and keeps balances non-negative |
| Bank.AccountHistory | benchmarks/bank.c:294-317 | In any log an account holds what was deposited into it less what was taken out, CHECK answers that, and WITHDRAW is granted exactly if that covers the amount |
| Bank.Accounts.Serve | benchmarks/bank.c:294-317 | The server's switch updates the account and answers as the sequential bank does |
| Routing.OneToOneIffDivides | benchmarks/bank.c:181-216 | For up to 255 servers every account is routed and no two alike, onto servers and local accounts, if and only if num_dsl divides nb_accounts |
| Routing.RouteHits | benchmarks/bank.c:181-216 | When it divides, every local account of every server is hit by its account number |
| Routing.RouteIs | benchmarks/bank.c:181-216 | Whether num_dsl divides nb_accounts or not: with q the whole part of their quotient, account s * q + l is local account l of server s if there is such a server, and otherwise of process 0 |
| Routing.RouteLands | benchmarks/bank.c:181-216 | When it divides, every account goes to a real server and a local account it has |
| Routing.LookupInBounds | benchmarks/bank.c:181-185 | For a power of two of accounts the lookup divides by zero if and only if there are more servers than accounts, and otherwise stays inside the 256-entry table, divisible or not |
| Routing.DrawIsRemainder | benchmarks/bank.c:200-212 | Masking a random word is reduction modulo the number of accounts |
| Bits.Pow2RoundUp | src/ssmp.c:199-210 | The smearing loop-free code returns the least power of two that is at least x, 1 for 0, and wraps to 0 above 2^31 |
| Bits.MaskIsRemainder | benchmarks/bank.c:200-212 | `a & (2^k - 1)` is `a mod 2^k` |
| BigMessage.PiecesArrive | src/platform/generic/ssmpthread_platf.c:178-281 | In every byte-level run of a safe transfer the pieces arrive whole and in order, full ones with the flag as last byte, and the flag is up exactly for a piece not yet received |
| BigMessage.NeverStuck | src/platform/generic/ssmpthread_platf.c:178-281 | In every run of a safe transfer with pieces missing, sender or receiver can take a step that is no poll in vain |
| BigMessage.RealStepsAreBounded | src/platform/generic/ssmpthread_platf.c:178-281 | No run of a safe transfer contains more than a fixed number of steps that are no polls in vain |
| BigMessage.EveryRunCompletes | src/platform/generic/ssmpthread_platf.c:178-281 | Every run of a safe transfer can be continued until all pieces are in, each as it should arrive |
| BigMessage.MessageArrives | src/platform/generic/ssmpthread_platf.c:178-281 | Over any sequence of messages, in every run of a safe transfer (each full chunk copied in one step with its flag, or ending in 0) every byte arrives as sent except that every SSMP_CHUNK_SIZE-th arrives as 1 |
| BigMessage.ShortMessagesArriveExactly | src/platform/generic/ssmpthread_platf.c:197-208 | For any chunk size, any sequence of messages below it arrives exactly in every byte-level run |
| BigMessage.ExactIffFlagBytes | src/platform/generic/ssmpthread_platf.c:178-281 | In every run of a safe transfer a message, once its pieces are in, has arrived as sent if and only if every SSMP_CHUNK_SIZE-th byte of it is 1 |
| BigMessage.PhantomFreeIffSafe | src/platform/generic/ssmpthread_platf.c:178-281 | Any sequence of pieces leaves no phantom message behind in any run if and only if each is copied in one step with its flag, or is shorter than the buffer, or ends in 0 |
| BigMessage.CutLoop | src/platform/generic/ssmpthread_platf.c:247-281 | The sender's loop cuts a message into its full chunks and what is left |
| BigMessage.SplitShape | src/platform/generic/ssmpthread_platf.c:247-281 | All pieces a message is cut into are full except possibly the last |
| BigMessage.JoinLoop | src/platform/generic/ssmpthread_platf.c:178-211 | The receiver's loop, working out chunk count and last length by itself, turns the pieces as they arrive into the message with every SSMP_CHUNK_SIZE-th byte 1 |
| BigMessage.JoinSplit | src/platform/generic/ssmpthread_platf.c:250-276 | Cutting and joining give the message back |

## Left out

- Creating and mapping shared memory, forking, pinning, prefetching, fences and pauses: operating system and hardware; sequential consistency and zeroed memory, as said above, are assumed instead.
- The Tilera files: thin layers over a library that is not part of this model.
- The Opteron files and the process/thread twins of each file: the same protocols, modelled once.
- Time measurement, option parsing, printing, `xorshf96` and throughput: random choices are left to the schedule.
- The bank's EXIT message and what follows it: deposits that are still in slots are not guaranteed to be drained.
- What the client/server benchmark and the bank do before and after their main loops: start-up and barriers are modelled on their own, the exchange of throughput figures is not.
- Fairness of `ssmp_recv` and `ssmp_recv_color`, which always scan from 0: they have none; their results are covered by Network, in which any scan order may occur.
- The `id_to_core` and `id_to_node` tables: the same-socket test is arbitrary in Channel, operation by operation.
- BigMessage.PiecesArrive: takes a full chunk's copy and flag store as one step, or asks its last byte to be 0; PhantomFreeIffSafe shows why.
- BigMessage.MessageArrives: the same; what a receiver gets after a phantom message is not described.
- ColourReceive.BoundedBypass: is about one colour view; the cursor is shared by all views of a thread, and BoundedBesideIffSingle shows what calls on another view in between do to the bound.
- Bank.Accounts.Serve: says nothing about balances once an addition leaves the 32-bit range, which C leaves undefined; NoOverflow bounds when that cannot happen.
- ClientServer.ClientLoop: takes what its receives return as an argument; the exchange itself is in the machine.
- ClientServer.ServerLoop: takes what its receives return as an argument; the echo is in the machine.
- BarrierTest.Broadcast: stops where the code would wait; waiting is in the machine.
- Bank word by word: its slots are one-place channels whose answers are unbounded integers, which no fixed number of words holds; NoOverflow bounds them.
- From start-up into the other programs: only the barrier test program is taken up where start-up ends. There the threads that still wait for the others' `ues_initialized` flags count as being at the program's start, as they write nothing more.
