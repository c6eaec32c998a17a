# Concurrent systems homeworks: verified model

A Dafny model of the protocols in a repository of six C system-programming homeworks, with proofs over all
inputs, runs and interleavings.

- **HW3, word transport.** Word carriers claim words and reserve places on two floors at once, letter
  carriers bring single characters, two elevators serve request tables in batches, sorters put arriving
  characters in order in place. `SortingArea`, `Words` and `Elevator` state what each critical section
  computes; the classes in `SharedMemory` and `RequestTable` perform it on arrays and shared fields.
  `Transport` is the system of all processes: each lock-protected region, and each semaphore operation
  outside one, is one step; `rand_r` is a free choice. `TransportInvariant`, `TransportSafety` and
  `TransportProgress` prove what holds in every reachable state, `TransportRequests` what requests say, and
  `TransportRespawn` that no emptied floor is forgotten. `LockOrder` treats the mutexes themselves.
- **HW4, log pipeline.** `FileSplit` cuts files among reader threads. `Channel` is a bounded buffer with its
  two condition variables and their sleepers, `RingBuffer` its circular array. `Pipeline` joins readers,
  parsers, dispatcher, workers, analyzers and aggregator; `PipelineInvariant`, `PipelineFlow`,
  `PipelineResults`, `PipelineTermination` and `PipelineScores` prove that every run ends with the results
  of a sequential pass; `PipelineReport` goes from the texts of the files to the published sums and top three;
  `PipelineTimeout` adds the dispatcher's time-out exit. `DispatcherTables`, `Scores` and `SourceTable` hold the
  code that updates counters and score tables in place, and `KeywordHits` what scores count.
- **HW5, courier shift.** `OrderQueue` is the sorted linked list. `Shift` is the system of couriers, main
  thread and interrupt, `ShiftDesk` its critical sections on shared variables; `ShiftResults` and
  `ShiftTermination` prove order, conservation and the end of every fair run.
- **HW6, server.** `Framer` cuts byte streams into command lines; `Inventory` and `MagicServer` keep stock
  and spellbooks consistent, and `Commands` says what each command line does.
- **HW2 and HW1, patterns.** `Patterns` relates both matchers to one definition of the pattern language.
- `Basics` and `Counting` hold what several parts share.

Code that updates state in place is a method on a class or an array, proved to compute a function of the old
state; the lemmas are about those functions and about the systems built from them.

Assumptions. Integers are unbounded. The counters `completed_words` and `chars_transported` of HW3 are
raised under a per-word lock only, so the model takes their increments as atomic; no per-word property
depends on it. HW3 is modelled before shutdown: every lock is really acquired, and spawning more than 512
letter carriers is a terminal failure. Where the code and its documentation differ, the model follows the
code; the greedy matcher of HW1 is the case in point.

Two promises turn out to be false, and the exact condition is proved for each. HW1's `match_filename` accepts
its language exactly for patterns without a repeated letter directly followed by the same letter
(`GreedyExact`, with the input `GreedyMisses`). The log pipeline of HW4 can complete exactly when the
dispatcher has not taken its time-out exit and is not about to: no expired wait is still to be followed by a
passed test of the marker counts (`CompletesUnlessTimedOut`, with the run `ExitIsTaken`).

## Model

| member | source | states |
|---|---|---|
| SortingArea.OpenActs | HW3/sorting.c:31-59 | a sorter's visit acts on a slot exactly when it is occupied and not fixed, so the "target fixed" case never arises |
| SortingArea.VisitConsistent | HW3/sorting.c:31-59 | a visit keeps the occupied slots a bijection onto the delivered characters, with every fixed slot in its own place |
| SortingArea.VisitSettles | HW3/sorting.c:31-59 | a visit fixes the character of an open slot in its own place; what lay there changes into the slot, and is fixed too if it belongs there; all else stays |
| SortingArea.FreeSlotExists | HW3/shared_memory.c:305-319 | a character not yet delivered always finds a free slot, by counting |
| SortingArea.PutConsistent | HW3/shared_memory.c:305-335 | placing it in the first free slot keeps the bijection, now with that character delivered |
| SortingArea.AllFixedSpellsText | HW3/shared_memory.c:338-347 | an all-fixed area reads as the text, even with repeated letters, and every character was delivered |
| SortingArea.PassHalves | HW3/sorting.c:31-59 | one pass leaves at most half of the open slots open |
| SortingArea.PassProgress | HW3/sorting.c:26-62 | a pass changes something exactly when a slot was open, and then fixes more slots |
| SortingArea.DeliveredWordCompletes | HW3/sorting.c:26-64 | a delivered word of length L is sorted within floor(log2 L) + 1 passes |
| SortingArea.ProgressBounded | HW3/sorting.c:26-62 | with arrivals interleaved in any way, at most L passes over a word of length L do anything |
| Words.ClaimCharOk | HW3/letter_carrier.c:52-62 | claiming a free character keeps each character claimed at most once |
| Words.DeliverOk | HW3/shared_memory.c:322-335 | a delivery always succeeds, never hits a completed word, and is the character's only one |
| Words.SortOk | HW3/sorting.c:22-64 | a sorting region keeps the word consistent and completes it only when all slots are fixed |
| Words.CompletedWord | HW3/shared_memory.c:338-347 | a completed word spells its text and none of its characters is on the way |
| Words.NextWordFinds | HW3/word_carrier.c:13-30 | the cyclic scan from the shared cursor overlooks no available word |
| Words.NextWordIsNext | HW3/word_carrier.c:15-23 | it finds the next available word from the cursor on, going round |
| SharedMemory.SharedWord.PlaceChar | HW3/shared_memory.c:305-319 | the array update is the placement of the model, or reports that no slot is free |
| SharedMemory.SharedWord.DeliverChar | HW3/shared_memory.c:322-335 | the in-place delivery is the delivery of the model |
| SharedMemory.SharedWord.ClaimFreeChar | HW3/letter_carrier.c:52-62 | the scan claims the first free character among those picked at random, or none |
| SharedMemory.SharedWord.MoveSlot | HW3/sorting.c:38-48 | moving a slot's character to its free target is case 4a of a visit |
| SharedMemory.SharedWord.SwapSlots | HW3/sorting.c:49-58 | exchanging two slots is case 4b of a visit |
| SharedMemory.SharedWord.VisitSlot | HW3/sorting.c:31-59 | one iteration of the loop is a visit, and reports whether it acted |
| SharedMemory.SharedWord.SortPass | HW3/sorting.c:26-62 | the loop over the arrays is the pass of the model |
| SharedMemory.SharedState.TryComplete | HW3/shared_memory.c:338-361 | completion happens exactly when all slots are fixed, once, and gives back the places on both floors |
| SharedMemory.SharedState.SortWord | HW3/sorting.c:19-64 | pass and completion check together are the sorting step of the system |
| SharedMemory.SharedState.ClaimWord | HW3/word_carrier.c:13-30 | claims the next word open to a claim, going round from the cursor, so that no open word lies between; takes none only if none is open; leaves the cursor behind it |
| SharedMemory.SharedState.ReserveFloors | HW3/word_carrier.c:34-48 | places on both floors are taken together exactly when both are below the limit, and otherwise none |
| SharedMemory.SharedState.AdmitOrPutBack | HW3/word_carrier.c:49-57 | the word is admitted on the carrier's floor, or its claim is released |
| SharedMemory.SharedState.LeaveFloor | HW3/shared_memory.c:280-283 | the first region of a move is the leaving step of the system: the count of the old floor falls by one, and it is told whether it is now zero |
| SharedMemory.SharedState.ReachFloor | HW3/shared_memory.c:285-290 | the second region is the arriving step: the new floor counts one more and waits for no new carriers |
| SharedMemory.SharedState.ReportEmpty | HW3/shared_memory.c:292-301 | the third region is the reporting step: the old floor is marked for new carriers if its count is still zero |
| SharedMemory.SharedState.MoveCarrier | HW3/shared_memory.c:275-302 | the three regions in sequence are these steps in sequence, when nobody changes floor counts between them |
| Elevator.DistinctCarriersFit | HW3/hw3.h:58-63 | a table with at most one request per carrier holds no more requests than carriers |
| Elevator.CollectConserves | HW3/elevator.c:33-82 | batch and remaining table together are the old table |
| Elevator.CollectProgress | HW3/elevator.c:4-30 | a batch is taken whenever any request exists |
| Elevator.BatchShape | HW3/elevator.c:33-61 | which slot opens the batch, which are picked, lowest first, in what order the batch holds them, and what stays in the table: for any table, direction, floor and capacity, by the fields of the requests |
| RequestTable.RequestTable.Enqueue | HW3/letter_carrier.c:4-32 | the request enters the first free slot of the table |
| RequestTable.RequestTable.FirstIdx | HW3/elevator.c:4-30 | the search picks the lowest request on the way; when there is none, the lowest of all; -1 for an empty table |
| RequestTable.RequestTable.CollectBatch | HW3/elevator.c:33-82 | filling and exchange-sorting the batch array in place gives such a batch, opened by that slot, and turns the scan direction to that request's |
| TransportInvariant.ReachableInv | HW3/shared_memory.c:255-361 | the full invariant of words, porters, carriers, tables and floors holds in every reachable state |
| TransportSafety.CompletedWordIsWhole | HW3/shared_memory.c:338-347 | in every reachable state a completed word reads as its text and no character of it is held, queued or riding |
| TransportSafety.SortersAndDeliverersSucceed | HW3/shared_memory.c:305-335 | in every reachable state whoever carries a character of a word will find a free slot, and the word is not complete |
| TransportSafety.CapacityRespected | HW3/word_carrier.c:34-57 | active_words[f] always equals the places held on f, never exceeds the limit, and returns to zero when all words are complete |
| TransportSafety.TablesNeverOverflow | HW3/letter_carrier.c:4-32 | a carrier has at most one request in both tables together, so an insertion always finds a free slot |
| TransportSafety.NoLostWakeUp | HW3/letter_carrier.c:73-96 | a sleeping elevator has an empty table up to posts in progress, and a sleeping carrier has a request that will wake it |
| TransportSafety.ItemsAddUp | HW3/letter_carrier.c:11-12 | an elevator's semaphore always stands at the posts less the takes of the run |
| TransportSafety.CarrierCounts | HW3/shared_memory.c:255-302 | carrier_count[f] is the number of carriers on f up to moves in progress, and respawn_pending[f] implies that it is zero |
| TransportSafety.ClaimsInTurn | HW3/word_carrier.c:13-24 | in the system too, the next open word from the cursor on is claimed, and the cursor moves just behind it |
| TransportSafety.ElevatorTurns | HW3/elevator.c:98-109 | an elevator takes as full a batch as its capacity and 64 places allow, sets out for the batch's first destination, and notes the direction to where the batch waits or of its travel |
| TransportRespawn.EmptiedFloorsAreReported | HW3/shared_memory.c:275-302 | in every run a floor with count zero is marked for new carriers, or an elevator is about to look whether to mark it, exactly when the floor has been occupied before |
| TransportRespawn.MarkedFloorIsRefilled | HW3/letter_carrier.c:112-123 | the parent's answer to a marked floor gives it the configured number of carriers and takes the mark away |
| TransportRequests.RequestsNameTheirFloors | HW3/letter_carrier.c:69-96 | in every reachable state a request in a table names the floor on which its carrier stands, and a delivery leads from where the word of its character was admitted to its sorting floor |
| TransportRequests.HeldWhereAdmitted | HW3/letter_carrier.c:46-64 | a carrier with a character in its hands stands where the word was admitted |
| TransportRequests.DeliveredOnTheRightFloor | HW3/elevator.c:107-121 | every character is put down on the sorting floor of its word |
| TransportRequests.WokenWhereWanted | HW3/elevator.c:144-153 | a carrier that is woken stands on the floor that its request named, and so does the elevator |
| TransportSafety.ExactlyOnce | HW3/letter_carrier.c:52-96 | over any run each character is claimed and delivered, and each word admitted and completed, at most once |
| TransportProgress.SomeStepHelps | HW3/word_carrier.c:10-60 | while a word is incomplete some enabled step makes the measure smaller |
| TransportProgress.NoDeadEnds | HW3/letter_carrier.c:43-97 | from every reachable state some schedule completes every word, for any numbers of words, floors and processes |
| LockOrder.RegionOrdered | HW3/word_carrier.c:34-57 | every region takes its locks in one strict order and gives all of them back |
| LockOrder.FloorsTogether | HW3/word_carrier.c:34-48 | places on two floors are taken, and given back, under the mutexes of both floors at once |
| LockOrder.NoCircularWait | HW3/sorting.c:19-64 | the wait-for graph of the mutexes has no cycle in any reachable state, for any number of processes |
| LockOrder.NoDeadlock | HW3/shared_memory.c:338-361 | while somebody is inside a region, somebody inside a region can go on |
| FileSplit.LinesCharacterised | HW4/reader.c:125-138 | there is one way to cut a file into lines, and it is what a sequential reader gets |
| FileSplit.SkipToLine | HW4/reader.c:107-123 | a thread's search ends at the first line that starts at or after its offset |
| FileSplit.ReadRange | HW4/reader.c:95-150 | a thread pushes exactly the parsed lines whose first byte lies in its range, and counts lines and malformed ones |
| FileSplit.SplitIsSequential | HW4/reader.c:237-250 | the threads' lines, in thread order, are the file's lines, each once: for every file and every thread count |
| FileSplit.ThreadReadsItsRange | HW4/reader.c:237-248 | thread t reads exactly the lines that begin in its range, the ranges being the smallest equal ones that cover the file |
| FileSplit.ReadFile | HW4/reader.c:209-266 | a reader process with its threads reads every line once and counts them right |
| Channels.PutOk | HW4/dispatcher.c:43-66 | a push with its signal keeps the buffer within capacity and no wake-up lost |
| Channels.TakeOk | HW4/analyzer.c:58-73 | a pop with its signal keeps the same |
| Channels.OnlyBlocked | HW4/reader.c:45-75 | with nobody awake at a buffer, its putters wait on a full one, its takers on an empty open one, and not both |
| RingBuffers.RingBuffer.Push | HW4/reader.c:45-56 | one round of the circular-array push is a put of the channel behind the contents, or a wait exactly when full |
| RingBuffers.RingBuffer.Pop | HW4/reader.c:59-75 | one round of the circular-array pop takes the oldest item, or finds the end of the stream, or waits |
| RingBuffers.RingBuffer.End | HW4/reader.c:256-260 | setting the end flag closes the channel and keeps its contents |
| DispatcherTables.Tables.Handle | HW4/dispatcher.c:98-112 | an entry goes on to its level; a marker is counted, and the last one of a level leads to its eof_posted |
| DispatcherTables.Tables.Posted | HW4/dispatcher.c:106-110 | after a level's flag is set the dispatcher counts it and goes on, or is done with all four |
| DispatcherTables.Tables.AfterLevel | HW4/dispatcher.c:4-12 | an entry goes on to Region D exactly when its source is on the priority list |
| Pipeline.RunsExist | HW4/reader.c:205-248 | every configuration has an initial state, so that runs and reachable states exist |
| PipelineInvariant.StepKeepsControl | HW4/dispatcher.c:69-130 | every step of every party keeps the protocol invariant, among it that a reader's lines precede its markers |
| PipelineFlow.StepKeepsFlow | HW4/reader.c:178-196 | no step loses, doubles or misroutes a line |
| PipelineResults.SharesStartTheRun | HW4/reader.c:237-250 | the byte ranges of a reader's threads make it an initial reader over the parsed lines of its file |
| PipelineResults.EofPostedComesLast | HW4/dispatcher.c:98-110 | eof_posted of a level is set only after every entry of it, from every file, has entered its Region B |
| PipelineResults.WorkersTakeEachOnce | HW4/analyzer.c:158-180 | when a level is published its workers have taken each of its lines exactly as often as it stands in the files, and no other |
| PipelineResults.AggregatorScoresPriority | HW4/aggregator.c:22-67 | after draining, the aggregator has scored exactly the lines whose source is on the priority list |
| PipelineResults.NeverDoubled | HW4/analyzer.c:58-73 | at no time has a line been taken or scored more often than it stands in the files |
| PipelineResults.TimeoutExitIsNeverClean | HW4/dispatcher.c:83-97 | whenever the time-out exit could be taken, an unfinished level's marker is still in Region A |
| PipelineTimeout.CompletesUnlessTimedOut | HW4/dispatcher.c:76-97 | with the time-out exit in the system, a reachable state can still complete if and only if the exit has not been taken and no expired wait is about to pass its test |
| PipelineTimeout.ExitlessIsReachable | HW4/dispatcher.c:15-40 | until the exit is taken every state is one of the system without it |
| PipelineTimeout.ExitIsTaken | HW4/dispatcher.c:83-97 | a run of one empty file in which the exit is taken, after which the pipeline cannot complete |
| PipelineResults.NeverStuck | HW4/aggregator.c:184-202 | in every reachable state before the end some party can move without a time-out, for all positive capacities |
| PipelineTermination.StepSmaller | HW4/reader.c:161-196 | every step of a party's own makes the measure of remaining work and waking parties smaller |
| PipelineTermination.EndlessOnlyByTimeouts | HW4/dispatcher.c:15-40 | an endless run has stray wake-ups or expired waits without end |
| PipelineTermination.AlwaysCompletes | HW4/aggregator.c:179-213 | from every reachable state the parties reach the end, where all have exited |
| PipelineTermination.RunsComplete | HW4/aggregator.c:179-213 | every configuration has a run to the end |
| Scores.LevelWeight | HW4/common.c:23-36 | the weights of the four levels are 4, 3, 2 and 1, and any other level weighs 0 |
| Scores.CountOverlapping | HW4/common.c:149-171 | the scan counts all offsets at which the keyword stands, overlapping ones included |
| Scores.Payload.ScoreEntry | HW4/analyzer.c:161-178 | a line adds to its total, and to each keyword's score, the weight of its level for every offset at which the keyword stands in it |
| Scores.LevelResult.Flush | HW4/analyzer.c:27-55 | a destructor adds its worker's lines to all sums of the level and sets that thread's contribution |
| Scores.FlushAll | HW4/analyzer.c:27-55 | all destructors in any order leave in the record the lines of all workers, and each thread's own total |
| Scores.AnyExitOrder | HW4/analyzer.c:181-184 | in whatever order the workers exit, the lines handed in are the same |
| Scores.AddHighPriority | HW4/aggregator.c:57-65 | a priority line adds the weight of its own level for every place at which a keyword stands in it |
| Scores.TotalDependsOnContents | HW4/analyzer.c:27-55 | totals do not depend on the order in which lines are taken or flushed |
| Scores.TotalByKeyword | HW4/analyzer.c:41-49 | adding up by keyword and by line gives the same total |
| PipelineScores.LevelIsSequential | HW4/analyzer.c:158-240 | entry count, every keyword score and the total of a published level are those of a sequential pass over the files |
| PipelineScores.LevelPoints | HW4/analyzer.c:161-178 | the total of the lines of level l is (4 - l) times the number of triples of line, keyword and offset at which the keyword stands; so is each keyword's score for its own triples |
| PipelineScores.HighPriorityIsSequential | HW4/aggregator.c:22-67 | the high-priority score is 4, 3, 2 and 1 for every place at which a keyword stands in an ERROR, WARN, INFO and DEBUG line of a priority source |
| PipelineScores.ThreadsAddUp | HW4/analyzer.c:46-49 | the per-thread contributions add up to the total |
| PipelineReport.PublishedRecord | HW4/analyzer.c:27-55 | the record of a published level, flushed in any order, is that of the sequential pass, its sums are (4 - l) times the places at which keywords stand in the files' lines of that level, and the threads add up to it |
| PipelineReport.PublishedTop3 | HW4/analyzer.c:76-124 | however the workers' updates interleave, with at most 256 scoring sources the published top three have the most points of all sources, (4 - l) for each place at which a keyword stands in a source's lines |
| PipelineReport.ScoringSourcesHaveHits | HW4/analyzer.c:173-175 | the sources that score are those with a keyword standing in one of their lines of the level |
| PipelineReport.TextsStart | HW4/reader.c:237-250 | the byte ranges of the reader threads make an initial state over the files' lines |
| PipelineReport.EndToEnd | HW4/analyzer.c:127-240 | from file texts to published scores: any run over the shares publishes what reading the files one after the other gives, (4 - l) for every place at which a keyword stands |
| SourceTables.SourceTable.UpdateHits | HW4/analyzer.c:76-93 | the table lists the first 256 sources in order of appearance with everything credited to each |
| SourceTables.FirstsInOrder | HW4/analyzer.c:76-93 | the listed sources stand in the order of their first updates |
| SourceTables.CreditedByContents | HW4/analyzer.c:76-93 | the credit of a source does not depend on the order of the workers' updates |
| SourceTables.SourceTable.Top3 | HW4/analyzer.c:96-124 | the result shows the three largest totals in order, ties by position, and empty places otherwise |
| SourceTables.BestUnique | HW4/analyzer.c:96-124 | that choice is the only one |
| OrderQueues.OrderQueue.Push | HW5/order_queue.c:21-48 | linking a node in place puts the order behind all with a smaller priority number, or the same one and no larger id, and before all others; the queue stays sorted |
| OrderQueues.OrderQueue.Pop | HW5/order_queue.c:51-66 | takes the first order off, or reports an empty queue |
| OrderQueues.OrderQueue.Clear | HW5/order_queue.c:74-80 | leaves the queue empty |
| OrderQueues.QueuedIsStableSort | HW5/order_queue.c:12-48 | pushing all orders gives the one stable sorting by rank |
| OrderQueues.QueuedInService | HW5/order_queue.c:12-48 | in the queue a smaller priority number comes first, among equal ones the smaller id, and orders equal in both stay in the order of the input |
| OrderQueues.StableSortUnique | HW5/order_queue.c:12-18 | there is only one stable sorting |
| ShiftDesk.Desk.TakeOrder | HW5/main.c:197-214 | one round of a courier's section sleeps exactly when nothing is pending but somebody is delivering, leaves when the shift is over, and otherwise starts the first order, as the model says |
| ShiftDesk.Desk.EndDelivery | HW5/main.c:229-238 | the end of a delivery ends the shift exactly when nothing is pending and nobody delivers, and wakes parties as the model says |
| ShiftDesk.Desk.CancelPendingOrders | HW5/main.c:244-270 | cancelling takes every pending order, in order, unless the shift is stopping already |
| Shift.StepKeepsControl | HW5/main.c:191-294 | every step keeps flags, active count and sleepers in agreement |
| ShiftResults.Linearised | HW5/main.c:194-270 | started, then cancelled or pending orders are the input in the order of service; no order is started while one with a smaller priority number, or the same one and a smaller id, is pending; each started order has one courier |
| ShiftResults.CourierStatistics | HW5/main.c:220-222 | each courier's count and time are those of its deliveries at every moment |
| ShiftResults.ShiftAddsUp | HW5/main.c:413-421 | at the end completed plus cancelled is the number of valid orders, and counts and times add up to the totals |
| ShiftResults.UninterruptedDeliversAll | HW5/main.c:244-294 | without an interrupt, and with all couriers created, no order is cancelled and the shift ends with every order delivered |
| ShiftResults.NobodyForgotten | HW5/main.c:197-214 | a stopping shift has an empty queue, a sleeping courier has a colleague in delivery, and the main thread does not sleep past the end |
| ShiftTermination.StepWork | HW5/main.c:191-294 | no step adds work, and every step that is not mere waiting takes some away |
| Shift.ShiftOpens | HW5/main.c:381-387 | every input opens a shift |
| ShiftTermination.NeverStuck | HW5/main.c:191-294 | until the main thread is done, a courier or it can take a step of its own, without interrupt, stray wake-up or expired wait |
| ShiftTermination.FairShiftEnds | HW5/main.c:272-294 | every endless fair run reaches the end, with all couriers gone and joined and nothing pending |
| Framers.FramedByLines | HW6/hogwarts.c:523-558 | framing is splitting at newlines: one command per line of at most 512 bytes, one TOOLONG per longer line |
| Framers.Cut | HW6/hogwarts.c:539-546 | every stream is made of lines and a rest, so the previous row covers all streams |
| Framers.LineBuffer.FeedByte | HW6/hogwarts.c:527-555 | one byte moves the line buffer as the specification of the whole stream says |
| Framers.LineBuffer.Feed | HW6/hogwarts.c:523-558 | after any chunk the handlers have seen what the stream so far comes to, and nothing after a successful APPARATE |
| Framers.Connection | HW6/hogwarts.c:523-558 | the events of a connection depend on the stream only, not on its chunks |
| Framers.DeliveredUpTo | HW6/hogwarts.c:539-546 | the handlers see everything up to the first command after which the client is gone, and nothing after it |
| Inventory.ParsePositiveExact | HW6/magic_common.c:46-61 | a quantity is accepted exactly when the text spells it and it is between 1 and the largest int |
| Inventory.StepKeepsLaw | HW6/hogwarts.c:229-367 | every command, connection, hang-up and timeout keeps the inventory law |
| Inventory.RunKeepsLaw | HW6/hogwarts.c:467-613 | in every run each stock equals its initial quantity plus all live spellbooks plus what was lost at disconnects |
| Inventory.NeverBelowInitial | HW6/hogwarts.c:336-367 | no stock falls below its initial quantity, and spellbooks never go negative |
| Inventory.NamesStayDistinct | HW6/hogwarts.c:287-305 | enrolled usernames are distinct and belong to connected clients |
| Inventory.OnlyTheBookRefuses | HW6/hogwarts.c:357-360 | a CONSUME is refused for lack of ingredients exactly when the own spellbook is short |
| Inventory.ConsumeUndoesBrew | HW6/hogwarts.c:307-367 | consuming what was just brewed restores everything |
| Commands.TokensAreWords | HW6/hogwarts.c:476-483 | the words of a command are the first eight maximal runs of characters other than blank, tab, CR and newline, up to a NUL |
| Commands.LineObeys | HW6/hogwarts.c:287-521 | what each command line does, by its words: role, number of words, reply, exactly which stock, spellbook, name and role change and by how much, and that nothing else does but the time last heard |
| Commands.BookDecides | HW6/hogwarts.c:357-360 | the same for lines: a wizard's CONSUME line is refused for lack of ingredients exactly when its own spellbook is short |
| Commands.LinesUndo | HW6/hogwarts.c:307-367 | a BREW line followed by the CONSUME line of the same quantity changes nothing |
| Commands.RosterSlots | HW6/hogwarts.c:433-465 | ROSTER lists the names of the connected, enrolled clients in the order of their slots |
| Commands.PrintedIsRead | HW6/magic_common.c:46-61 | the server reads back every quantity as it prints it |
| MagicServer.Server.HandleEnroll | HW6/hogwarts.c:287-305 | the in-place handler is the model's, with the same reply |
| MagicServer.Server.HandleBrew | HW6/hogwarts.c:307-334 | the same for BREW |
| MagicServer.Server.HandleConsume | HW6/hogwarts.c:336-367 | the same for CONSUME |
| MagicServer.Server.ProcessCommand | HW6/hogwarts.c:467-521 | the dispatch in place is the model's, with the same reply, and does to the tables exactly what the first eight words of the line say; it reports a stop exactly for a successful APPARATE |
| MagicServer.Server.DisconnectClient | HW6/hogwarts.c:229-255 | the slot is free again, the stock keeps what the spellbook held, and nothing else changes |
| MagicServer.Server.AcceptNewClient | HW6/hogwarts.c:560-597 | a new connection takes the lowest free slot with an empty spellbook, and is refused exactly when no slot is free |
| MagicServer.Server.DisconnectExpired | HW6/hogwarts.c:599-613 | exactly the clients that have been silent for the timeout are gone |
| Patterns.MatchRec | HW2/pattern.c:8-32 | backtracking ends and accepts exactly the pattern's language |
| Patterns.MatchPattern | HW2/pattern.c:34-78 | a name is accepted exactly for its whole, its stem or a maximal alphanumeric run of the stem |
| Patterns.ElementsWritten | HW2/pattern.c:13-27 | the elements of a pattern, written down again, are the pattern |
| Patterns.SameUpToCase | HW2/pattern.c:6 | the comparison relates the two cases of an ASCII letter, and no other two distinct characters |
| Patterns.CaseBlind | HW2/pattern.c:6-31 | patterns that differ only in case, and names that do, get the same answer from both matchers |
| Patterns.GreedyExact | HW1/HW1.c:71-89 | the greedy matcher accepts exactly the language when no repeated letter is followed by an element on the same letter, and nothing otherwise |
| Patterns.MatchFilename | HW1/HW1.c:71-89 | the two-pointer loop does so |
| Patterns.GreedyMisses | HW1/HW1.c:76-81 | a pattern and a name on which the two matchers differ |

## Left out

- Fork, exec, mmap, semaphore creation, pipes, sockets, `select`, the watchdog, heartbeats, logging and the formatting of reports and replies: plumbing without a property of its own.
- HW3 signals and shutdown: the model covers states before shutdown.
- HW3 guaranteed completion: elevators pick by table index and scans are random, so the code decides only that completion stays possible.
- HW3 timed waits on `word_available_sem`, `floor_delivery_sem` and `parent_event`: the waiting party is simply able to look again.
- HW3 statistics, the `char_arrived` flag, which is never read, and the leftovers in unused table slots, which are free slots here.
- HW3 start-up: word carriers, elevators and sorters exist from the first state; letter carriers are spawned from the parent's agenda.
- Pipeline.Apply: the dispatcher's time-out exit is not a step here, `PipelineTimeout` adds it; scoring a line, updating the source table and flushing are not steps of the system; `PipelineReport` states them for a published level, for any order of exits and any interleaving of updates.
- Scores.Payload.ScoreEntry: takes lines of the worker's own level only, which is all that its queue ever carries.
- FileSplit.ReadFile: parsing one line is a parameter, and reading from the file never fails.
- ShiftTermination.FairShiftEnds: a delivery ends because its courier is served fairly; the length of a sleep is not modelled.
- Inventory.Process: text truncation in replies, memory exhaustion, and overflow of quantities are not modelled.
- Framers.LineBuffer.Feed: what a handler does is one answer to the question whether the client is gone, for its list of events so far.
- Machine overflow of quantities, durations and scores; scores are whole numbers although kept in doubles.
- Argument and file parsing, string copies, HW2's processes and tree output, HW1's directory walk, and the clients of HW6.
