# Models of the LCLS-II data acquisition and small-data algorithms

This project models the concurrent and stateful algorithms of the LCLS-II data
acquisition software (psdaq/drp) and of psana's small-data writer, and proves
what they promise over whole runs.

Each concurrent component is a state machine: a step function over the atomic
actions of its threads, folded over an arbitrary schedule (`Runs.dfy`). Its
theorems hold in every state that any schedule reaches. Beside the machine, the
object of the source is a class whose methods are proved to do what the
machine's actions do. Sequential code is methods with loops, proved against
specification functions whose properties are lemmas.

- `PvaDetector.dfy`: the worker that joins a queue of timing events with a queue
  of PV updates by timestamp, with timeouts, a recycled buffer pool and the sweep
  at Disable.
- `RoundRobin.dfy`, `PgpDetector.dfy`, `PgpWorkers.dfy`, `PgpBatches.dfy`: lane assembly,
  counter repair and batching, dealt round-robin to N workers and gathered round-robin;
  what the workers build, and what the batches hold.
- `SmallDataTable.dfy`, `SmallDataClient.dfy`, `SmallDataServer.dfy`,
  `SmallDataJoin.dfy`, `SmallDataRun.dfy`: merging and batching on the client,
  caching with backfill on the server, the joined file, and the three together.
  A table "event i, dataset d, or missing" is the specification throughout.
- `MpscQueue.dfy`: the lock-free ring queue, operation by atomic operation.
- `FileWriter.dfy`, `Fifo.dfy`, `FileWriterMT.dfy`: the buffered writer, the ring
  it is built on, and the writer with a background thread and two rings.
- `WriterBatches.dfy`: when that writer queues a buffer, and how old its batches get.
- `EbReceiver.dfy`: chunked recording with a small-data index, and the chunk
  rollover that spans enable() and the Enable datagram.
- `Recording.dfy`: the receiver, the writer's threads and the files on disk together.
- `ParabolaFit.dfy`, `PeakFinder.dfy`: the least-squares parabola and the peak
  finder, over the reals.
- `EventBatcher.dfy`: the batched frame, read backwards, also nested.
- `Bld.dfy`, `BldPackets.dfy`, `BldWorker.dfy`: the multicast packet reader, the packets
  byte by byte, and the poll loop that builds events from several readers.
- `Bits.dfy`: powers of two and masks.

`dafny verify dfyconfig.toml` checks everything.

## What the source's callers provide

These are preconditions or the shape of the machines, because the code relies on
them without checking.

- Multi-producer queue: the capacity is a power of two; memory is sequentially
  consistent.
- PGP: the number of buffers is a power of two up to 2^24, and the batch size a power of
  two below 2^32. The machine's runs also have in-flight counters that span fewer than the
  buffers, no batch pending when BeginRun resets it, and no counter jump across the 24-bit
  wrap; the class handles any buffer.
- PVA: exact timestamp matching, strictly increasing timestamps on each stream,
  L1Accept and SlowUpdate only between Enable and Disable.
- Writers: every write(2) run has at most one continuation of a short write.
- Recording: run control goes through BeginRun, Enable, Disable and EndRun in its
  usual order with enable() before each Enable datagram, files open, and
  transitions carry no persist or prescale decision.
- Peak finder: at least one sample, at least one peak asked for, a fraction that is
  not negative.
- Batcher: lines of at least eight bytes and a frame of at least one line.
- Multicast data: a packet holds at least the header and one payload, and the header's
  timestamp and pulse id do not overlap.
- Datagrams written with two rings have times other than 0, which stands for no batch.

## Where the code does less than its comments or callers may expect

Each is a lemma with the exact condition, or names the lemma with a failing input
beside the one with the condition.

- `FileWriter.ShortWrites`: a second continuation of a short write starts at the
  wrong place of the buffer (`SecondContinuationFails`).
- `PgpDetector.RepairIsExact`: a jump across the 24-bit wrap repairs about 2^32
  counters; `PgpDetector.ResetNeedsEmptyBatch`: a pending batch is lost at BeginRun.
- `PgpDetector.WholeWindow`: batches are not divided by the pulse id bits above the low
  32 (`HighBitsIgnored`).
- `PvaDetector.TimeoutIsAge`: with a clock below the timeout everything times out.
- `MpscQueue.PoppedInOrderIffOnTime`: push has no full check (`OneTooManyLoses`);
  `MpscQueue.MaskNeedsPowerOfTwo`: nor is the capacity checked.
- `SmallDataJoin.JoinIsFaithful`: servers that gave a dataset different types
  (`TypesMayDiffer`, `BetweenMayDiffer`).
- `EventBatcher.DataIsInside`: a size that wraps when rounded up
  (`WrappingSizeIsOutside`).
- `EbReceiver.NextPowerOf2`: undefined above 2^31.
- `Bld.PointerAfterClear`, `Bld.WaitKeepsPointer`: clear may receive a packet over the
  event that the payload pointer shows (`ClearShowsLater`); so
  `BldWorker.ContributionIff`: a contribution may hold the payload of a later event than
  its timestamp's (`LaterPayloadIsSent`), and `BldWorker.WaitsIff`: an iteration may wait
  for a packet although poll reported one.

## Model

| member | source | states |
|---|---|---|
| PvaDetector.JoinIsExact | psdaq/drp/PvaDetector.cc:651-775 | In every run, for every interleaving of PV updates, PGP arrivals, matching, timeouts and transitions: an L1Accept that left by matching carries the PV payload with its own timestamp exactly when such a PV was ever queued, before or after it left, and MissingData exactly otherwise; a timed-out one is empty and marked TimedOut |
| PvaDetector.ScheduleIndependent | psdaq/drp/PvaDetector.cc:563-693 | With no timeout firing, two runs over the same two streams send prefixes of one sequence, and the same sequence and queue once both have matched all they can |
| PvaDetector.DecidedIsStable | psdaq/drp/PvaDetector.cc:684-688 | Once an event can be decided, later PVs never change the outcome: the reason matching need not wait |
| PvaDetector.NothingWaitsInVain | psdaq/drp/PvaDetector.cc:651-658 | After the matching loop only events ahead of every PV wait |
| PvaDetector.SentOnceInArrivalOrder | psdaq/drp/PvaDetector.cc:563-617 | In every run what was sent, with the damage and payload taken off, followed by what is queued is exactly what arrived, in order; while not running nothing is queued |
| PvaDetector.EventsAccounted | psdaq/drp/PvaDetector.cc:622-648 | Matched + empty + timed-out + queued L1Accepts = L1Accepts received; updates = missed + queued ever + in progress |
| PvaDetector.BuffersConserved | psdaq/drp/PvaDetector.cc:629-644 | PV buffers are partitioned among freelist, PV queue and the one being filled in every run |
| PvaDetector.TransitionOrder | psdaq/drp/PvaDetector.cc:592-616 | Sending a transition keeps arrival order if and only if the PGP queue is empty or the transition is the Disable that sweeps it |
| PvaDetector.TimeoutIsAge | psdaq/drp/PvaDetector.cc:589-590 | The 64-bit nanosecond subtraction times a datagram out exactly when it is old enough, or when the clock is below the timeout and the subtraction wraps |
| PvaDetector.NsRoundTrip | psdaq/drp/PvaDetector.cc:590 | Nanoseconds and the seconds/nanoseconds form convert back and forth without loss |
| PvaDetector.MatchAllIsSchedule | psdaq/drp/PvaDetector.cc:651-693 | The matching loop is a schedule of single matches that ends with a queue empty |
| PvaDetector.StepKeepsInv | psdaq/drp/PvaDetector.cc:563-820 | Every step of every thread keeps order, join, PV stream and counts right at once |
| PvaDetector.PvaDetector.BeginProcess | psdaq/drp/PvaDetector.cc:622-640 | The object takes a buffer and a timestamp as the machine does, or counts a miss |
| PvaDetector.PvaDetector.EndProcess | psdaq/drp/PvaDetector.cc:637-644 | The filled PV is queued as the machine does, truncation included |
| PvaDetector.PvaDetector.MatchUp | psdaq/drp/PvaDetector.cc:651-693 | The loop over both queues leaves exactly the state of matching run dry |
| PvaDetector.PvaDetector.HandlesMatch | psdaq/drp/PvaDetector.cc:695-731 | A match joins, recycles the buffer and sends, as the machine does |
| PvaDetector.PvaDetector.HandlesYounger | psdaq/drp/PvaDetector.cc:733-758 | A PV too young: the event goes out with MissingData, the PV stays |
| PvaDetector.PvaDetector.HandlesOlder | psdaq/drp/PvaDetector.cc:760-775 | A PV too old is dropped and its buffer recycled, the event stays |
| PvaDetector.PvaDetector.TimeOut | psdaq/drp/PvaDetector.cc:777-820 | The sweep sends exactly the queued prefix at or below the threshold |
| PvaDetector.PvaDetector.HandleQueued | psdaq/drp/PvaDetector.cc:568-591 | Queue, match, then time out: afterwards every waiting datagram is newer than all PVs queued and than the threshold, and each one sent meanwhile carries its PV or MissingData when a PV of its time or later was queued, and else was at or below the threshold and is marked TimedOut |
| PvaDetector.PvaDetector.HandleDgram | psdaq/drp/PvaDetector.cc:560-616 | The worker loop: L1Accepts and SlowUpdates are queued and worked off so, other transitions are sent at once, and order is kept |
| PvaDetector.PvaDetector.HandleTransition | psdaq/drp/PvaDetector.cc:592-616 | Enable, Disable with its sweep, and the other transitions |
| RoundRobin.CollectedInDispatchOrder | psdaq/drp/PGPDetector.cc:48-142 | For every schedule of a dealer, N workers and a collector that all count round-robin, the k-th batch collected is the k-th dispatched |
| RoundRobin.PipelineMoves | psdaq/drp/PGPDetector.cc:338-372 | While a dispatched batch is uncollected, the worker or the collector the order waits for can step: no deadlock |
| RoundRobin.CollectsNext | psdaq/drp/PGPDetector.cc:354-360 | The head of the queue the collector waits on is the next batch in dispatch order |
| PgpDetector.EventsInCounterOrder | psdaq/drp/PGPDetector.cc:58-142 | For every schedule of reader, workers, collector and buffer release: counters are consumed in sequence, batches are collected as dispatched, and the TEB gets exactly the unbroken events the collector came to, in counter order, once each |
| PgpDetector.BatchesPartitionCounters | psdaq/drp/PGPDetector.cc:308-347 | Batches, dispatched and pending, partition the counters consumed, jumped-over ones included; start + size of the pending one is lastComplete + 1 modulo 2^24 |
| PgpDetector.SameSlot | psdaq/drp/PGPDetector.cc:255-257 | (start + i) & mask of worker and collector is evtCounter & mask of the reader, across the 24-bit wrap |
| PgpDetector.RepairIsExact | psdaq/drp/PGPDetector.cc:309-314 | The repair loop, counting in 32 bits, covers the 24-bit gap if and only if the jump does not cross the wrap |
| PgpDetector.ResetNeedsEmptyBatch | psdaq/drp/PGPDetector.cc:374-379 | Resetting at BeginRun keeps the partition if and only if no batch is pending |
| PgpDetector.CollectorNeverStuck | psdaq/drp/PGPDetector.cc:354-372 | In every reachable state the collector or the thread it waits for can step |
| PgpWorkers.BuiltBeforeSent | psdaq/drp/PGPDetector.cc:48-142 | With the workers going through their batches entry by entry, in every run: each event sent to the TEB was built by a worker before, and only whole events are built |
| PgpWorkers.WorkerCanStep | psdaq/drp/PGPDetector.cc:48-142 | A worker with a batch in hand can build its next entry or hand the batch over |
| PgpWorkers.SeesWhole | psdaq/drp/PGPDetector.cc:58-142 | The mask a worker tests is zero exactly for events that were skipped over |
| PgpDetector.ExamineMany | psdaq/drp/PGPDetector.cc:363-369 | Going through a batch entry by entry sends exactly its unbroken indices |
| PgpDetector.StepKeepsInv | psdaq/drp/PGPDetector.cc:226-372 | Every step keeps batches, event masks, pipeline order and collector position consistent |
| PgpDetector.PGPDetector.HandleFrame | psdaq/drp/PGPDetector.cc:244-347 | Any DMA buffer: lane mask, reset at BeginRun, the exception exactly for a jump that is no L1Accept within a second, repair in 32 bits; the pending batch is sent and left empty exactly when the transition is neither L1Accept nor SlowUpdate or the pulse id is in another window of batchSize; and where the machine takes the buffer this is its step |
| PgpDetector.FlushIff | psdaq/drp/PGPDetector.cc:339-341 | For a power of two, the mask test on pulse ids is whether they are in different windows by their low 32 bits; and every transition but SlowUpdate sends the batch |
| PgpDetector.WholeWindow | psdaq/drp/PGPDetector.cc:339 | Windows of whole pulse ids are equal exactly when the windows by the low 32 bits are and the other bits agree |
| PgpDetector.HighBitsIgnored | psdaq/drp/PGPDetector.cc:339 | A pulse id 2^32 later is in another window and does not send the batch |
| PgpBatches.BatchesByWindow | psdaq/drp/PGPDetector.cc:308-347 | In every run the whole events of the pending batch are L1Accepts and SlowUpdates of one pulse id window, and so are those of each batch sent but its last |
| PgpDetector.PGPDetector.RepairJump | psdaq/drp/PGPDetector.cc:309-314 | The loop clears exactly the masks of the counters jumped over and counts them |
| PgpDetector.PGPDetector.AccountEvent | psdaq/drp/PGPDetector.cc:316-322 | A complete event joins the pending batch after any repaired ones |
| PgpDetector.PGPDetector.DispatchBatch | psdaq/drp/PGPDetector.cc:338-346 | When it is due, as FlushIff says, the pending batch goes to worker number modulo N, and the next one starts after it |
| PgpDetector.PGPDetector.CollectBatch | psdaq/drp/PGPDetector.cc:354-372 | One round of the collector is the schedule that takes and examines the next batch |
| MpscQueue.FirstInFirstOut | psdaq/drp/mpscqueue.cc:13-42 | In every run of any number of producers and one consumer whose stores come when fewer than the capacity of older tickets are unread, the j-th pop returns the value pushed under ticket j; popped, in hand and buffered are exactly what was published; draws are not restricted |
| MpscQueue.PoppedInOrderIffOnTime | psdaq/drp/mpscqueue.cc:13-42 | A run that popped everything it pushed, of distinct pointers, popped them in ticket order if and only if every store was in time |
| MpscQueue.WithinCapacityIsOnTime | psdaq/drp/mpscqueue.cc:13-16 | If each ticket is drawn with fewer than the capacity outstanding, every store is in time |
| MpscQueue.InTimeIsUnshared | psdaq/drp/mpscqueue.cc:16 | A store is in time if and only if no unread older ticket has its slot |
| MpscQueue.NoLostWakeUp | psdaq/drp/mpscqueue.cc:19-36 | If the consumer sleeps and the queue is not empty, a producer has published and is about to notify, and its next operation is enabled |
| MpscQueue.SomeoneCanAct | psdaq/drp/mpscqueue.cc:13-42 | In every reachable state some operation in flight can go on |
| MpscQueue.MaskNeedsPowerOfTwo | psdaq/drp/mpscqueue.cc:6-11 | Masking gives the tickets of a full queue different slots if and only if the capacity is a power of two |
| MpscQueue.OneTooManyLoses | psdaq/drp/mpscqueue.cc:13-42 | push has no full check: with one slot and two tickets, storing the second before the first is read makes pop return the second pointer; storing it after loses nothing |
| MpscQueue.PushesAreDrawn | psdaq/drp/mpscqueue.cc:15 | Tickets are the values in the order fetch_add drew them |
| MpscQueue.StepKeepsInv | psdaq/drp/mpscqueue.cc:13-42 | Each atomic operation keeps the tickets, slots and indices consistent |
| MpscQueue.MPSCQueue.StoreSlot | psdaq/drp/mpscqueue.cc:16 | The masked store into the ring is the machine's store, and keeps every unread slot when it is in time |
| MpscQueue.MPSCQueue.StoreReadIndex | psdaq/drp/mpscqueue.cc:39-40 | Advancing read_index completes the pop as in the machine |
| SmallDataRun.EndToEnd | psana/psana/smalldata.py:192-806 | For any clients, servers and interleaving of messages: the joined file has exactly the datasets of all servers' events, and a dataset is the ideal column over them, with row i of an aligned one its datum in event i or the fill value, if and only if the servers' types for it can be joined |
| SmallDataRun.Run | psana/psana/smalldata.py:192-806 | Every server is run on messages that arrive in any interleaving of what RunClient sent, and their files are joined: the result has that property, and what a server handled is client by client each client's merged stream |
| SmallDataRun.RunServer | psana/psana/smalldata.py:192-317 | A server's whole run: all messages are read and the closed file is the ideal table of them |
| SmallDataRun.RunClient | psana/psana/smalldata.py:459-679 | A client's whole run: the messages hold its merged stream and end with its one finish, unless a first call about timestamp -1 fails |
| SmallDataRun.PartIsItsClients | psana/psana/smalldata.py:459-513 | What a server saw is, client by client and in order, that client's merged event stream |
| SmallDataRun.EveryMessageIsRead | psana/psana/smalldata.py:192-203 | The receive loop ends with the last message and not before |
| SmallDataRun.TimestampsArrive | psana/psana/smalldata.py:504 | Every event a server sees has a timestamp, which the join's padding counts |
| SmallDataClient.LastSupplierWins | psana/psana/smalldata.py:482-493 | An event holds under each name what the last accepted call about it supplied |
| SmallDataClient.NothingInvented | psana/psana/smalldata.py:482-493 | And nothing that no accepted call about it supplied |
| SmallDataClient.EventsAreAccepted | psana/psana/smalldata.py:490-513 | The events are exactly those of calls no earlier call was later than |
| SmallDataClient.StreamOrdered | psana/psana/smalldata.py:490-506 | Timestamps of a client's events increase strictly |
| SmallDataClient.TimestampIsRecorded | psana/psana/smalldata.py:504 | An event records its own timestamp, unless a later accepted call about it supplies that name |
| SmallDataClient.SmallData.Event | psana/psana/smalldata.py:459-513 | Shipped batches followed by the batch in hand are the merged stream after every call; the first call about timestamp -1 is the only one that fails |
| SmallDataClient.SmallData.Ship | psana/psana/smalldata.py:495-502 | Batches are shipped whole, each of exactly batch_size events |
| SmallDataClient.SmallData.Done | psana/psana/smalldata.py:675-679 | The batches sent hold the whole stream, followed by one finish message |
| SmallDataServer.Server.HandleEvent | psana/psana/smalldata.py:206-234 | After an event every dataset's file rows and cached rows together are the ideal column of all events seen: missing values backfilled for aligned datasets only |
| SmallDataServer.Server.RecvLoop | psana/psana/smalldata.py:192-203 | The loop handles exactly the messages up to the last client's finish |
| SmallDataServer.Server.NewDset | psana/psana/smalldata.py:237-266 | A dataset first seen now gets a fill value for every event already seen, unless what follows the last slash of its name starts with the unaligned prefix |
| SmallDataServer.Server.AppendToCache | psana/psana/smalldata.py:269-283 | One row is added to the dataset, and no cache write is out of range |
| SmallDataServer.Server.WriteToFile | psana/psana/smalldata.py:286-293 | Cached rows move to the file, and old cache contents do not |
| SmallDataServer.Server.Backfill | psana/psana/smalldata.py:296-307 | Exactly the asked number of fill values is added |
| SmallDataServer.Server.Done | psana/psana/smalldata.py:310-317 | The file alone is the ideal table of all events seen |
| SmallDataServer.CacheArray.Append | psana/psana/smalldata.py:159-162 | The datum follows the cached rows |
| SmallDataServer.MidwayDatum | psana/psana/smalldata.py:222-229 | Handling one item of an event is one step of the plan for that event, in any order of the items |
| SmallDataTable.AlignedRow | psana/psana/smalldata.py:231-234 | Row i of an aligned column is event i's datum or the fill value |
| SmallDataTable.UnalignedRow | psana/psana/smalldata.py:222-234 | An unaligned column is exactly the data there are, in order |
| SmallDataTable.UnalignedIff | psana/psana/smalldata.py:96-97 | A name is unaligned exactly when what follows its last slash, or the whole name without one, starts with the prefix |
| SmallDataTable.LastAfterSlash | psana/psana/smalldata.py:97 | The last component is what follows the last slash, whatever comes before |
| SmallDataTable.NestedNames | psana/psana/smalldata.py:96-97 | An unaligned dataset in a group is unaligned, an aligned one in a group so named is not |
| SmallDataTable.FirstTypeIs | psana/psana/smalldata.py:237-256 | A dataset has the type of the first datum seen |
| SmallDataTable.ColumnConcat | psana/psana/smalldata.py:752-802 | The column of two lists of events is the two columns joined |
| SmallDataTable.AbsentColumn | psana/psana/smalldata.py:263-264 | Until a dataset appears its column holds fill values only |
| SmallDataJoin.JoinIsFaithful | psana/psana/smalldata.py:752-802 | The joined dataset, rows converted to its type as they are read, is the ideal column over all servers' events with that column's type, if and only if the last server to see it gave it the first one's type and no server with another type holds a fill value or a datum that its type did not keep |
| SmallDataJoin.OneTypeJoins | psana/psana/smalldata.py:752-802 | Servers that gave a dataset one type meet that condition whatever the events |
| SmallDataJoin.SurvivesIff | psana/psana/smalldata.py:159-162 | A datum stored in one type and read in another is as if stored in the other, except a float with a fraction, or NaN, that went through an integer |
| SmallDataJoin.JoinedRows | psana/psana/smalldata.py:783-802 | The same for the rows: row i of an aligned joined dataset is its datum in event i of that list, or the fill value |
| SmallDataJoin.TypesMayDiffer | psana/psana/smalldata.py:760-778 | Two servers whose first data had different types are a case where it is not |
| SmallDataJoin.BetweenMayDiffer | psana/psana/smalldata.py:760-802 | With integers on the first and the last server, floats on one between join when it has no gap, and do not when it has one |
| SmallDataJoin.Measure | psana/psana/smalldata.py:756-772 | Pass one finds the length of the joined rows |
| SmallDataJoin.Place | psana/psana/smalldata.py:783-798 | Pass two fills a layout of that length with the files' rows as they are read, never outside it: the passes agree |
| SmallDataJoin.JoinFiles | psana/psana/smalldata.py:733-806 | Every dataset of any file is joined |
| SmallDataJoin.NameIsSomewhere | psana/psana/smalldata.py:725-743 | A name is found in some file exactly when some event had it |
| SmallDataJoin.RootedAlignment | psana/psana/smalldata.py:96-97 | The leading slash a file visit adds does not change whether a name is unaligned |
| FileWriter.ShortWrites | psdaq/drp/FileWriter.cc:17-30 | The write loop writes every buffer as it is if and only if at most one call continues a short one |
| FileWriter.SecondContinuationFails | psdaq/drp/FileWriter.cc:17-30 | Three bytes written one at a time leave the first, the second and the second |
| FileWriter.ByteOf | psdaq/drp/FileWriter.cc:26-28 | Where in the buffer each byte of the file came from |
| FileWriter.Write | psdaq/drp/FileWriter.cc:17-30 | The loop puts into the file what the sizes returned by write(2) say, and fails exactly when the last one is an error |
| FileWriter.BufferedFileWriter.WriteEvent | psdaq/drp/FileWriter.cc:99-131 | File followed by buffer is everything written; a datagram joins the buffer exactly when it fits and the batch is at most two seconds old by the 32-bit difference, and else everything before goes to the file; only a datagram larger than the buffer is refused |
| FileWriter.YoungAge | psdaq/drp/FileWriter.cc:111 | The 32-bit difference of seconds is at most two exactly when the clock is at most two past the start, also across its wrap |
| FileWriter.BufferedFileWriter.Close | psdaq/drp/FileWriter.cc:75-97 | After closing, the file is everything written |
| Fifo.PushContents | psdaq/psdaq/service/Fifo.hh:62-74 | Pushing appends to the contents, or changes nothing when full |
| Fifo.PopContents | psdaq/psdaq/service/Fifo.hh:78-89 | Popping takes the oldest, or nothing when empty |
| Fifo.VacatedSlot | psdaq/psdaq/service/Fifo.hh:62-89 | The next push takes the slot just popped if and only if the ring was full |
| Fifo.FifoRing.Push | psdaq/psdaq/service/Fifo.hh:62-74 | The class does this in place with remainders, and reports full |
| Fifo.FifoRing.Pop | psdaq/psdaq/service/Fifo.hh:78-89 | Likewise, and reports empty |
| FileWriterMT.NothingLost | psdaq/drp/FileWriter.cc:252-330 | Under every interleaving of caller and thread: file, pending buffers, the one in hand and the front free one hold exactly what was written, in order; each buffer is in one place |
| FileWriterMT.FlushReturns | psdaq/drp/FileWriter.cc:252-265 | When flush returns the file is everything written |
| FileWriterMT.RefusedIsTooLarge | psdaq/drp/FileWriter.cc:295-302 | writeEvent throws exactly for a datagram larger than a buffer; otherwise the datagram is appended |
| FileWriterMT.SomeThreadCanStep | psdaq/drp/FileWriter.cc:252-330 | No deadlock: whenever there is something to do some thread can step |
| FileWriterMT.WorkEnds | psdaq/drp/FileWriter.cc:252-330 | With no new call the threads are done within a number of steps known from the state, however scheduled, and until then one of them can step: writeEvent and flush return |
| FileWriterMT.ClearInv | psdaq/drp/FileWriter.cc:315-326 | Clearing the count through the reference to a popped slot touches no queued buffer, since the ring cannot be full then |
| FileWriterMT.StepInv | psdaq/drp/FileWriter.cc:252-330 | Every step of either thread keeps all of this |
| FileWriterMT.BufferedFileWriterMT.constructor | psdaq/drp/FileWriter.cc:187-200 | All buffers are free and empty at first |
| FileWriterMT.BufferedFileWriterMT.ChooseBuffer | psdaq/drp/FileWriter.cc:275-291 | The front buffer is taken in hand exactly when the datagram does not fit or its batch is more than two seconds old, and the batch then starts at the datagram; this is the machine's choice |
| FileWriterMT.BufferedFileWriterMT.StartWrite | psdaq/drp/FileWriter.cc:267-274 | A first call starts the batch at its time |
| WriterBatches.StaleIsQueued | psdaq/drp/FileWriter.cc:275-303 | In every run, when a stale datagram, or one that does not fit, is about to be copied, one buffer was queued, the front one is empty, the batch starts at its time, and all written before is in the file or queued |
| WriterBatches.FittingStays | psdaq/drp/FileWriter.cc:275-303 | In every run a datagram that is neither queues nothing: the front buffer stays and then has it behind the same bytes |
| WriterBatches.FrontIsYoung | psdaq/drp/FileWriter.cc:267-303 | In every run the datagrams in the front buffer are within two seconds of the start of its batch |
| FileWriterMT.BufferedFileWriterMT.FillBuffer | psdaq/drp/FileWriter.cc:296-302 | Copying into the front buffer is the machine's step, exception included |
| FileWriterMT.BufferedFileWriterMT.ReturnBuffer | psdaq/drp/FileWriter.cc:324-327 | The emptied buffer goes back as in the machine |
| EbReceiver.RunIsRecorded | psdaq/drp/DrpBase.cc:396-537 | In every recorded run across any number of rollovers: the chunk files 0, 1, 2, ... in order are exactly the datagrams to be recorded, configuration first, and each small-data record gives the place of its datagram in the chunk then open |
| Recording.ChunkIsOnDisk | psdaq/drp/DrpBase.cc:297-409 | In every run of the receiver together with the writer's threads, for every interleaving and any number of rollovers: a closed file is its chunk, the open one a prefix of its own, each index record of a closed chunk gives the place of its datagram on disk, and when process has returned every chunk has its file |
| Recording.RunIsOnDisk | psdaq/drp/DrpBase.cc:297-537 | After the run the files on disk in chunk order are exactly the datagrams to be recorded, and every record finds its own |
| Recording.SomethingCanStep | psdaq/drp/DrpBase.cc:396-537 | No deadlock between process and the writer's thread |
| Recording.BetweenFlushes | psdaq/drp/FileWriter.cc:235-305 | What goes to the file between two returns of flush is exactly what writeEvent was given between them |
| Recording.LogIsWrites | psdaq/drp/FileWriter.cc:267-303 | With datagrams that fit a buffer the log is what writeEvent was given |
| EbReceiver.WrittenAsExpected | psdaq/drp/DrpBase.cc:517-537 | What is written is what a fold over the transitions says should be, kept L1Accepts only |
| EbReceiver.ProcessedIsWritten | psdaq/drp/DrpBase.cc:517-537 | While files are open every transition and every kept L1Accept is written, the configuration before BeginRun, and nothing else; EndRun closes |
| EbReceiver.ConfigIsLatest | psdaq/drp/DrpBase.cc:476-490 | The configuration written is that of the last Configure |
| EbReceiver.RequestedWhenOver | psdaq/drp/DrpBase.cc:507-532 | An L1Accept requests a chunk exactly when the open one is over the threshold; the next Enable opens it, and nothing before |
| EbReceiver.AdvanceWhenDue | psdaq/drp/DrpBase.cc:859-881 | enable() announces the next chunk exactly when the open one is over half the threshold |
| EbReceiver.RolloverWhenDue | psdaq/drp/DrpBase.cc:297-342 | Enable then opens that chunk, a file not opened before in the run, after its own datagram went to the old one; otherwise the chunk stays; each opening has one advance before it |
| EbReceiver.NamesDiffer | psdaq/drp/DrpBase.cc:178-186 | Different runs, nodes or chunks of an experiment have different file names |
| EbReceiver.NameExamples | psdaq/drp/DrpBase.cc:178-186 | A run name, literally |
| EbReceiver.StepInv | psdaq/drp/DrpBase.cc:228-537 | Each datagram and each phase 1 call keeps chunks, index and rollover state consistent; a request while writing means a chunk over half the threshold |
| EbReceiver.WriteRecorded | psdaq/drp/DrpBase.cc:396-409 | Writing a datagram with its record keeps every record right |
| EbReceiver.ReopenRecorded | psdaq/drp/DrpBase.cc:297-342 | So does opening the next chunk |
| EbReceiver.EbReceiver.Process | psdaq/drp/DrpBase.cc:476-537 | The object does what the machine does with each datagram |
| EbReceiver.EbReceiver.PrepareEnable | psdaq/drp/DrpBase.cc:859-881 | And at enable(), and announces the id of the chunk to come |
| EbReceiver.EbReceiver.StartRun | psdaq/drp/DrpBase.cc:775-810 | And at beginrun() |
| EbReceiver.EbReceiver.ReopenFiles | psdaq/drp/DrpBase.cc:297-342 | Reopening is refused exactly when not writing |
| EbReceiver.NextPowerOf2 | psdaq/drp/DrpBase.cc:54-68 | The least power of two not below n, defined if and only if n <= 2^31 |
| ParabolaFit.DetNonzero | psdaq/drp/OpalTTFex.cc:797-812 | The determinant of the normal equations from the sums over 0..n-1 is nonzero if and only if n >= 3 |
| ParabolaFit.DetClosed | psdaq/drp/OpalTTFex.cc:797-812 | 2160 times it is n^3 (n^2-1)^2 (n^2-4) |
| ParabolaFit.ParabFit | psdaq/drp/OpalTTFex.cc:774-823 | The accumulating loop and the cofactors solve the normal equations, or give zeros for fewer than three samples |
| ParabolaFit.FitIsBest | psdaq/drp/OpalTTFex.cc:819-821 | The result has the least sum of squares of all parabolas, and is the parabola itself for samples on one |
| ParabolaFit.SolutionIsUnique | psdaq/drp/OpalTTFex.cc:797-821 | The normal equations have one solution for three samples or more |
| ParabolaFit.SolutionIsBest | psdaq/drp/OpalTTFex.cc:819-821 | A solution of the normal equations is a least-squares fit |
| PeakFinder.FindPeaks | psdaq/drp/OpalTTFex.cc:724-772 | At most max_peaks places in non-increasing height, the highest of all peaks detected |
| PeakFinder.FoundIsRight | psdaq/drp/OpalTTFex.cc:733-771 | Detected peaks are highest between valleys below the fraction of their height; and for a fraction up to one every rise followed by a fall has a detected peak as high between: none is missed |
| PeakFinder.PeaksAreApart | psdaq/drp/OpalTTFex.cc:747-766 | Between two detected peaks come a sample below the fraction of the first and then one below the fraction of the second |
| PeakFinder.Insert | psdaq/drp/OpalTTFex.cc:748-761 | Inserting keeps the list the highest, in order |
| PeakFinder.ScanAdvance | psdaq/drp/OpalTTFex.cc:738-770 | One sample keeps the scan sound and complete |
| EventBatcher.RoundTrip | psdaq/drp/EventBatcher.hh:8-64 | Iterating backwards over the batcher's frame of any non-empty list of non-empty subframes gives exactly those, last first |
| EventBatcher.WalkEnds | psdaq/drp/EventBatcher.hh:48-64 | The iteration ends well exactly when a subframe begins right after the header; it fails exactly at a tail whose subframe would reach into the header |
| EventBatcher.WalkIsApart | psdaq/drp/EventBatcher.hh:48-64 | On any frame the iteration ends, and the places it gives before the end or the error are disjoint, after the header and before their tails |
| EventBatcher.DataIsInside | psdaq/drp/EventBatcher.hh:25-31 | A subframe's data are inside its place if and only if rounding its size up does not wrap around 32 bits |
| EventBatcher.WrappingSizeIsOutside | psdaq/drp/EventBatcher.hh:25-64 | A frame of 16 bytes whose tail has size 2^32 - 1 iterates without error to data far outside it |
| EventBatcher.Covers | psdaq/drp/EventBatcher.hh:25-31 | The rounded size covers the size if and only if the sum does not wrap |
| EventBatcher.EvtBatcherIterator.Advance | psdaq/drp/EventBatcher.hh:48-64 | The cursor gives the iteration's subframes one by one, the end and the exception |
| EventBatcher.TableOfPack | psdaq/drp/BEBDetector.cc:227-238 | The table of a batcher's frame has each subframe's data at its destination |
| EventBatcher.NestedRoundTrip | psdaq/drp/BEBDetector.cc:246-249 | Also for a frame inside a subframe, which reads back in turn |
| EventBatcher.Subframes | psdaq/drp/BEBDetector.cc:227-238 | The vector is that of the iteration, the last visited winning; it throws exactly on a corrupt frame, unless a destination is beyond the first one's |
| Bld.PointerAfterClear | psdaq/drp/BldDetectorSlow.cc:389-435 | Whatever was buffered and has arrived: after clear the payload pointer is to the last event read if and only if the first event not dropped does not start a packet; then it shows that event's payload, and otherwise the bytes of the packet received over it |
| Bld.WaitKeepsPointer | psdaq/drp/BldDetectorSlow.cc:389-435 | Over any arrivals and calls of clear since an event was read, the pointer stays on it if and only if every clear found the next buffered event not older than its time, or nothing buffered and nothing arrived; then it shows the event's payload |
| Bld.ClearShowsLater | psdaq/drp/BldDetectorSlow.cc:396-403 | With packets of one event: next reads the first, clear with nothing to drop receives the second, and the pointer shows the second's payload |
| Bld.ClearDropsOlder | psdaq/drp/BldDetectorSlow.cc:389-435 | clear leaves, of all events buffered and arrived, those without the longest older prefix |
| Bld.DropOlderIsLongest | psdaq/drp/BldDetectorSlow.cc:389-435 | That is exactly the longest prefix older than ts |
| Bld.NextIsFirst | psdaq/drp/BldDetectorSlow.cc:438-472 | next gives the first event to come over all packets, and the pointer and pulse id are that event's |
| Bld.Bld.IsReady | psdaq/drp/BldDetector.hh:39 | ready holds exactly when an unread event is buffered |
| Bld.ClearMovesOn | psdaq/drp/BldDetectorSlow.cc:396-403 | clear changes nothing exactly when none of its branches that receive or read is taken |
| BldPackets.RoundTrip | psdaq/drp/BldDetectorSlow.cc:375-386 | Reading a packet written byte by byte, header with little-endian timestamp and pulse id, payloads, and words of 20 and 12 bits of offset, gives back exactly its events |
| BldPackets.RunRefines | psdaq/drp/BldDetectorSlow.cc:389-472 | Over any arrivals of such packets and calls of next and clear, next gives the events put into them, in order, with timestamp, pulse id and payload, without those that clear found older at the front |
| Bld.Bld.Clear | psdaq/drp/BldDetectorSlow.cc:389-435 | The loop of clear leaves the handler as the above says |
| Bld.Bld.Next | psdaq/drp/BldDetectorSlow.cc:438-472 | next gives the timestamp of the first event to come and reads it |
| Bld.Bld.Arrive | psdaq/drp/BldDetectorSlow.cc:446-452 | A packet adds its events at the end |
| BldWorker.ContributionIff | psdaq/drp/BldDetectorSlow.cc:737-848 | In every run with any number of handlers, arrivals at any time: an L1Accept has a contribution of a handler exactly when the last event read there has its time, or nothing was read and its time is 0; it is marked exactly when one is missing; the copy is from where that event was if and only if every clear since was quiet, and then it is that event's payload |
| BldWorker.LaterPayloadIsSent | psdaq/drp/BldDetectorSlow.cc:737-811 | A run with one handler where the contribution sent for the first event's time holds the second event's payload |
| BldWorker.WaitsIff | psdaq/drp/BldDetectorSlow.cc:737-742 | In every run next waits for a packet exactly when a datagram is held, the handler was ready or reported, and everything it has is older: clear took what poll reported |
| BldWorker.EveryDatagramIsSent | psdaq/drp/BldDetectorSlow.cc:699-878 | In every run a datagram received is sent once, in order, or held; one is asked for exactly when none is held; a poll or a ready contribution is always next; and all that a held one waits for is asked for |
| BldWorker.HeldWhileBehind | psdaq/drp/BldDetectorSlow.cc:748-848 | After an iteration a datagram is held exactly while it is an L1Accept, a contribution is behind it and poll did not time out; otherwise it is the one sent |
| BldWorker.TurnReads | psdaq/drp/BldDetectorSlow.cc:737-742 | A handler that was ready or reported gives its first event not older than the held datagram, or the first of a packet it waits for; the others are only cleared |
| BldWorker.TimeoutClears | psdaq/drp/BldDetectorSlow.cc:858-876 | After a timeout with no datagram every handler has lost its events older than the clock, and is asked again |
| BldWorker.ContributorsAskedAgain | psdaq/drp/BldDetectorSlow.cc:806-818 | After an L1Accept is sent the handlers that contributed are asked for their next event |
| BldWorker.StepKeepsInv | psdaq/drp/BldDetectorSlow.cc:699-878 | Every iteration and every arrival keeps all of this |
| BldWorker.Worker.Iterate | psdaq/drp/BldDetectorSlow.cc:699-878 | The loop body over the driver and the handlers does the machine's iteration |
| BldWorker.Worker.Build | psdaq/drp/BldDetectorSlow.cc:748-848 | Asking, copying the payloads and sending are the machine's |
| BldWorker.Worker.TakeBlds | psdaq/drp/BldDetectorSlow.cc:737-746 | Every handler in turn is cleared to the held datagram's time, then read if it was ready or reported |
| BldWorker.Worker.TakeDgram | psdaq/drp/BldDetectorSlow.cc:728-735 | A datagram is taken only when none is held |
| Bits.AndMask | psdaq/drp/mpscqueue.cc:9-16 | Masking with 2^k - 1 is the remainder by 2^k |
| Bits.PowerTest | psdaq/drp/DrpBase.cc:58 | n & (n - 1) is zero exactly for powers of two |
| Bits.AndHighMask | psdaq/drp/EventBatcher.hh:30 | Masking with ~(2^k - 1) rounds down to a multiple of 2^k |

## Left out

- Sockets, DMA calls, ZMQ, MPI, EPICS, the Python C-API, metrics and logging: they
  appear as inputs, schedules or sequences.
- HDF5: datasets and virtual layouts are sequences; the conversion of rows of another
  type as they are read is taken to be the one of an assignment, integers are unbounded
  and floats are reals; save_summary and the serial mode are not modelled.
- SmallDataServer.Server.NewDset: does not model arrays and their shapes, types other
  than i8 and f8, or the TypeError and ValueError about them.
- Dataset names are canonical: no leading slash and no empty component; a call's nested
  dictionaries are already flattened.
- The SPSC queues are bounded or unbounded sequences; their implementation is not part
  of this model.
- PVA match degrees 0 and 1, and the payload of an event beyond the one PV record.
- Wall-clock age of a PVA timeout beyond the timestamps themselves.
- PGP: DMA buffer errors and overflow exceptions, transition buffers running out and
  shutdown, and the contents of events.
- Pebble slots, datagram headers and file pages are values: aliasing between a slot and
  the datagram in it is not captured.
- Fifo.FifoRing.Push: does not model the lock and condition variable of FifoW, whose
  operations are atomic steps of the machine.
- FileWriter.BufferedFileWriter.Close: the descriptor is 0 before the first open, where the
  constructor leaves it unset.
- FileWriterMT.BufferedFileWriterMT.FillBuffer: the pages are a sequence of byte
  sequences rather than arrays; write(2) may be split but always takes the bytes in
  order, since FileWriter.ShortWrites states when it does.
- FileWriterMT.WorkEnds: bounds the steps, and does not say that the scheduler takes them
  or that write(2) keeps taking bytes.
- EbReceiver.EbReceiver.Process: does not model index checks, damage and monitoring,
  and offsets do not wrap around 64 bits.
- EbReceiver.NamesDiffer: is about the run name, not about directories.
- PeakFinder.FindPeaks: does not say which of two equally high peaks is listed.
- ParabolaFit.ParabFit: is over the reals; rounding is not modelled.
- The amplitude and width computed from the parabola, and the projections.
- EventBatcher.EvtBatcherIterator.Advance: line widths of 2^31 bytes and more, for which
  the shift is undefined, end the model's iteration instead.
- BldWorker.Worker.Iterate: what poll and the driver answer are inputs; the handlers are
  values, with the functions that the methods of class Bld are proved to compute; packets
  arrive between iterations, or end a wait in recv. A wait that no packet ends is no
  iteration.
- psdaq/drp/AxiBatcherParser.cc, psdaq/drp/BldDetector.cc, psdaq/drp/UdpEncoder.cc,
  psdaq/drp/Piranha4TTFex.cc: variants of what is modelled.
- Detector configuration, register programming, command lines and build scripts.
