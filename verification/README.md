# ec-systemcore in Dafny

ec-systemcore is a daemon that owns one or more EtherCAT buses, lets one client at a time drive their
outputs, streams inputs to any number of clients, and ships C++ and Java client libraries and a small
configuration server. This project models the parts of it that must be right for a robot to be safe
and for its data to be true, and proves properties over every input, every run and every interleaving.

The main results:

* **Outputs** (`Leases`, `OutputModel` to `OutputTheorems`, `OutputImages`, `OutputBits`). The daemon and
  one worker thread per bus are a transition system whose steps are single loads and stores of the
  shared atomics, and each worker carries its IO map. On every run, every set output bit on the wire is
  a bit of a command accepted from the only client that ever held the lease of the epoch the worker
  read at its transmit recheck, and was accepted within the output timeout of that cycle's freshness
  check (`SentBitsAreAuthorized`); an epoch store ends the images of older epochs; an applied epoch
  means its all-zero frame came back complete; a fault latched while outputs are enabled zeroes every
  later frame of every bus.
* **A race in the readiness check** (`OutputRace`). `AllBusesOperational` reads a bus's state, and
  `SafetyBarrierComplete` reads it again and answers true if the bus has left OP in between. If the
  worker has also validated its topology anew before that flag is read, outputs become enabled in an
  epoch whose zero barrier the bus never sent. `ReadinessRace` builds the run;
  `AtomicReadinessGivesBarrier` shows the barrier holds on every run in which the two reads agree, and
  `EnabledAfterBarrier` that otherwise only the buses skipped this way, and not yet through their
  barrier either, lack the guarantee.
* **Inputs** (`PackedPdo` to `InputEndToEnd`). The workers of all buses, the main loop and the client
  table are one system in which every access to the lock-free queues may interleave with every other.
  No snapshot is ever cut (`SnapshotsAreNeverCut`), and a snapshot once begun is completed
  (`BegunIsCompleted`). In every run, every image that an application pops is the whole image of one
  SubDevice in one single cycle (`InputsEndToEnd`); and a client that receives the first chunk of a
  cycle receives the whole publication next, and then holds the image of every SubDevice of that cycle
  (`PublicationsAreDelivered`).
* **Connections** (`ClientTable`, `ClientEvents`, `ClientFrames`). Closing, broadcasting and queueing
  call one another; the code is proved to terminate and to equal a specification that does not recurse.
  Every handler keeps exact byte accounting and the buses informed. One event moves the epoch at most
  once, with exactly one exception (`EpochMovesAtMostOnce`): an unlock granted to a client that has no
  room for the answer moves it twice, and `UnlockMovesTheEpochTwice` is a run that gets there.
* **The Java session** (`JavaSession`, `JavaFutures`, `JavaAssembler`). At the granularity of reads and
  compare-and-sets of the session reference: commands never cross generations, the disable barrier is
  final, slots are conserved. The Java and the C++ assembler deliver the same image (`ClientsAgree`).
* **Time** (`ClockSync`, `Deadline`, `RateLimit`). The distributed-clock controller in terms of its
  sample history alone; the exact range in which deadline realignment works; the exact traffic a token
  bucket accepts.
* **Archives** (`Crc32`, `ZipFormat`, `StoredZip`). The streamed ZIP reads back to exactly its inputs,
  and the table-driven CRC is the bit-serial one.

Objects that the source updates in place are classes, and their loops are methods with invariants; each
method is proved against a function on values, and the lemmas are about those functions. Atomics are
sequentially consistent steps. What the code does not decide (send results, working counters, link
state, reads of clocks, short reads, scheduling) is a parameter or a free choice of a step.

Where code and intent differ: the readiness race and the double epoch step above; and
`Deadline.LongStopStaysLate`, where a worker stopped for more than 2^32 microseconds realigns to a
deadline still in the past (`Deadline.RealignedExactly` gives the exact limit).

## Model

| member | source | states |
|---|---|---|
| `PackedPdo.WriteThenRead` | daemon/include/ec_systemcore/safety.hpp:86-172 | an image written at any start bit and bit count reads back unchanged when its padding is canonical |
| `PackedPdo.ReadIsCanonical` | daemon/include/ec_systemcore/safety.hpp:67-138 | whatever the neighbours hold, an image read has zero padding bits |
| `PackedPdo.WriteKeepsOthers` | daemon/include/ec_systemcore/safety.hpp:140-172 | writing changes exactly the SubDevice's own bits |
| `PackedPdo.DisjointWritesCommute` | daemon/include/ec_systemcore/safety.hpp:140-172 | writes to disjoint bit ranges commute, even when they share bytes |
| `PackedPdo.ZeroThenRead` | daemon/include/ec_systemcore/safety.hpp:174-195 | zeroing makes exactly that image read as zero |
| `PackedPdo.ChunkIsSlice` | daemon/include/ec_systemcore/safety.hpp:86-138 | reading a chunk is slicing the image |
| `PackedPdo.ChunksJoinToImage` | daemon/include/ec_systemcore/safety.hpp:86-138 | concatenated chunks of any size are the whole image |
| `PackedPdoLoops.ReadPackedPdoChunk` | daemon/include/ec_systemcore/safety.hpp:86-138 | accepts exactly the valid requests; both the byte-copy path and the bit loop compute the same chunk |
| `PackedPdoLoops.WritePackedPdoImage` | daemon/include/ec_systemcore/safety.hpp:140-172 | accepts exactly whole canonical images; both paths compute the same IO map and refuse without change |
| `PackedPdoLoops.ZeroPackedPdoImage` | daemon/include/ec_systemcore/safety.hpp:174-195 | zeroes exactly the SubDevice's bits, or refuses without change |
| `SafetyGates.SafetyGate.constructor` | daemon/include/ec_systemcore/safety.hpp:257-265 | starts disabled, unleased, with a non-zero epoch |
| `SafetyGates.SafetyGate.DropControllerAndAdvanceEpoch` | daemon/include/ec_systemcore/safety.hpp:409-419 | the epoch always changes and never becomes zero; lease and enable are gone |
| `SafetyGates.SafetyGate.Acquire` | daemon/include/ec_systemcore/safety.hpp:288-299 | succeeds exactly for a non-zero client while nobody else holds the lease; leaves the epoch |
| `SafetyGates.SafetyGate.Heartbeat` | daemon/include/ec_systemcore/safety.hpp:301-309 | succeeds exactly for the holder in the current epoch, and then refreshes its heartbeat and nothing else |
| `SafetyGates.SafetyGate.SetOutputEnabled` | daemon/include/ec_systemcore/safety.hpp:311-329 | outputs turn on only for the holder, in its epoch, with healthy process data; disabling drops the lease |
| `SafetyGates.SafetyGate.RecordOutputWrite` | daemon/include/ec_systemcore/safety.hpp:331-351 | only an authorized write in enabled state feeds the output watchdog |
| `SafetyGates.SafetyGate.Release` | daemon/include/ec_systemcore/safety.hpp:358-364 | the holder gives up the lease and the epoch advances |
| `SafetyGates.SafetyGate.Disconnect` | daemon/include/ec_systemcore/safety.hpp:366-371 | a disconnected client holds nothing; others are untouched |
| `SafetyGates.SafetyGate.HandleSafetyTimeouts` | daemon/src/main.cpp:2480-2511 | afterwards neither watchdog is overdue |
| `Leases.StepKeepsInv` | daemon/src/main.cpp:2745-2852 | every daemon event keeps the lease invariant |
| `Leases.StepEffect` | daemon/include/ec_systemcore/safety.hpp:288-419 | an event leaves the gate, enables it, or advances the epoch by one with outputs off |
| `Leases.LeaseSafety` | daemon/include/ec_systemcore/safety.hpp:288-419 | on every run each epoch has one holder, a connection acquires once, enabled implies leased, the holder is open, and writes come from the holder of the epoch they name |
| `Leases.NeverWritesAgain` | daemon/src/main.cpp:2745-2852 | a connection that lost its lease never has another write accepted |
| `Leases.WrapGrantsAnEpochTwice` | daemon/include/ec_systemcore/safety.hpp:409-419 | why the results exclude a wrap of the counter: a run of 2^64 - 1 invalidations in which two clients are granted the same epoch |
| `OutputTheorems.NextKeepsInv` | daemon/src/main.cpp:1502-1709 | every load or store of the daemon or of any worker keeps the output invariant |
| `OutputTheorems.SentOutputsAreAuthorized` | daemon/src/main.cpp:1554-1598 | every image sent was written by a command accepted from the unique lease holder of the epoch read at the recheck |
| `OutputTheorems.SentOutputsAreFresh` | daemon/src/main.cpp:1765-1799 | every image sent was accepted within the output timeout of that cycle's freshness check |
| `OutputTheorems.OldImagesEndWithTheEpoch` | daemon/src/main.cpp:969-976 | after an epoch store only a send already past its recheck can carry an older image |
| `OutputTheorems.AppliedMeansBarrier` | daemon/src/main.cpp:1556-1605 | an applied epoch is published only for an all-zero frame that came back with a full working counter |
| `OutputTheorems.EnabledAfterBarrier` | daemon/src/main.cpp:2513-2545 | outputs are enabled only behind the zero barrier of the epoch on every bus that the check did not skip or that has published the epoch as applied |
| `OutputTheorems.AtomicReadinessGivesBarrier` | daemon/src/main.cpp:987-994 | when the two state reads agree, no bus is skipped and the barrier holds on all |
| `OutputRace.ReadinessRace` | daemon/src/main.cpp:987-994 | a reachable state with outputs enabled and no barrier sent on the only bus: it left OP between the two state reads and validated its topology before that was read |
| `OutputTheorems.FaultStaysLatched` | daemon/src/main.cpp:1970-1979 | while the epoch stands, no racing fault of an older epoch can clear the latch |
| `OutputTheorems.LatchedFaultZeroesEveryBus` | daemon/src/main.cpp:1589-1593 | every frame whose latch check follows the latch is all zero, whatever the permit flag says |
| `OutputImages.WriteRepresentsApply` | daemon/src/main.cpp:1711-1763 | applying a command in the IO map changes exactly the slot the transition system says |
| `OutputImages.ApplyCommand` | daemon/src/main.cpp:1711-1763 | the checks in the source order and the write: the IO map changes exactly if the command is current, fresh and a whole canonical image |
| `OutputImages.ApplyRepresents` | daemon/src/main.cpp:1711-1763 | applying any command, accepted or refused, keeps the IO map in step with the slots |
| `OutputImages.EnforcePerSubDeviceFreshness` | daemon/src/main.cpp:1765-1799 | the loop zeroes exactly the images older than the timeout |
| `OutputImages.RefreshRepresents` | daemon/src/main.cpp:1765-1799 | and so keeps the IO map in step with the slots |
| `OutputImages.ZeroOutputs` | daemon/src/main.cpp:1906-1921 | the loop zeroes the image of every SubDevice with outputs and no other bit |
| `OutputImages.ZeroRepresents` | daemon/src/main.cpp:1906-1921 | zeroing every output makes the IO map stand for zero slots |
| `OutputImages.BitIsCommandBit` | daemon/src/main.cpp:1554-1598 | a bit of a SubDevice in the IO map is the bit of the command in its slot, and clear if there is none |
| `OutputBits.BitsMirrorSlots` | daemon/src/main.cpp:1502-1709 | on every run, through commands, freshness checks, zeroing, received inputs and remapping, the bits of every worker's IO map are those of its slots |
| `OutputBits.SentBitsAreAuthorized` | daemon/src/main.cpp:1554-1598 | every set output bit at a transmission is a bit of a command accepted for that SubDevice from the unique lease holder of the rechecked epoch, within the output timeout |
| `SpscQueues.LinearizableFifo` | daemon/src/main.cpp:782-828 | on every interleaving of the two threads what was popped and what is queued is what was pushed, in order, never more than capacity less one |
| `SpscQueues.RefusalIsExact` | daemon/src/main.cpp:787-809 | a push is refused only when the ring was full at its load |
| `SpscQueues.CreditIsHonoured` | daemon/src/main.cpp:811-818 | what AvailableToWrite returned stays available until the producer uses it |
| `SpscQueues.SpscQueue.TryPush` | daemon/src/main.cpp:787-796 | appends, or refuses exactly when full |
| `SpscQueues.SpscQueue.TryPop` | daemon/src/main.cpp:798-809 | takes the head, or reports empty |
| `SpscQueues.SpscQueue.AvailableToWrite` | daemon/src/main.cpp:811-818 | the free places |
| `LittleEndian.LeRoundTrip` | daemon/include/ec_systemcore/protocol.hpp:479-541 | reading back a little-endian field of sufficient width gives the value |
| `LittleEndian.FromLeRoundTrip` | daemon/include/ec_systemcore/protocol.hpp:479-541 | and re-encoding a field gives its bytes |
| `LittleEndian.AppendLe` | daemon/include/ec_systemcore/protocol.hpp:479-499 | the append loop emits exactly the field |
| `Framing.FrameDecoder.Feed` | daemon/include/ec_systemcore/protocol.hpp:575-648 | consumes exactly the frames and the error that one-shot parsing of buffer and new bytes yields |
| `Framing.Extract` | daemon/include/ec_systemcore/protocol.hpp:587-648 | the extraction loop is the one-shot parser |
| `Framing.DecoderRefinesParser` | daemon/include/ec_systemcore/protocol.hpp:563-661 | for every stream and every cut into socket reads the decoder equals the one-shot parser and never overflows its buffer |
| `Framing.EncodedFramesDecode` | daemon/include/ec_systemcore/protocol.hpp:543-661 | any concatenation of encoded frames decodes to those frames |
| `Framing.PrefixDecodes` | daemon/include/ec_systemcore/protocol.hpp:543-661 | any received prefix, however cut, decodes to a prefix of the sent frames |
| `Payloads.PdoInputRoundTrip` | daemon/include/ec_systemcore/protocol.hpp:944-997 | a valid PDO_INPUT decodes to itself |
| `Payloads.DecodedPdoInputIsCanonical` | daemon/include/ec_systemcore/protocol.hpp:969-997 | a payload that decodes is the one encoding of its value |
| `Payloads.OutputWriteRoundTrip` | daemon/include/ec_systemcore/protocol.hpp:353-389 | a valid OUTPUT_WRITE decodes to itself |
| `InputPublisher.FindRange` | daemon/src/main.cpp:1861-1870 | finds the range that holds an ordinal, or there is none |
| `InputPublisher.Publisher.CollectRanges` | daemon/src/main.cpp:1814-1841 | the ranges tile the chunk ordinals of the snapshot |
| `InputPublisher.Publisher.PublishInputs` | daemon/src/main.cpp:1801-1904 | run alone, pushes the whole numbered snapshot or nothing, exactly by room and limit; the cursor returns to zero and no inner exit is ever taken |
| `InputQueues.WorkKeepsInv` | daemon/src/main.cpp:1801-1904 | no access of the worker, at any point of the queue's life, cuts a snapshot short: the room that was reported outlasts the pushes |
| `InputQueues.SnapshotsAreNeverCut` | daemon/src/main.cpp:1801-1904 | in every interleaving with the draining loop no push is refused, the cursor stays zero, and what was pushed and popped is whole snapshots in order up to the one being pushed |
| `InputQueues.AdmissionIsExact` | daemon/src/main.cpp:1842-1850 | a snapshot is begun exactly if it has 1 to 128 chunks and the queue has room for all of them at the moment of asking |
| `InputQueues.BegunIsCompleted` | daemon/src/main.cpp:1852-1904 | a begun snapshot is complete after at most four accesses of the worker for each chunk, whatever the consumer does |
| `InputPath.InputPublicationAccumulator.Take` | daemon/src/main.cpp:3482-3541 | one popped chunk updates the accumulator and completes a publication as specified |
| `InputPath.SnapshotIsAllOrNothing` | daemon/src/main.cpp:3482-3541 | from any state a snapshot is published whole exactly when each of its chunks found a subscriber; the size guard never drops one |
| `InputPath.DrainPublishesSnapshots` | daemon/src/main.cpp:3472-3563 | over a whole queue the publications are exactly those snapshots, in order |
| `InputPath.PublishedChunksAreTrue` | daemon/src/main.cpp:1801-1904 | every chunk of every cycle is a slice of the image that its tags name uniquely |
| `InputPath.EveryImageIsOneCycle` | daemon/src/client.cpp:827-843 | for every history, mix of frames, received prefix and cut, and whenever the application pops, each image popped or queued is one SubDevice in one cycle of the session's epoch |
| `InputPath.WholeSnapshotIsDelivered` | daemon/src/client.cpp:962-1073 | from any client state with no assembly of that cycle open, one publication delivers every SubDevice's image, in order |
| `InputPath.NothingIsEvicted` | daemon/src/client.cpp:1045-1053 | a drained queue holds a whole publication of up to 32 SubDevices |
| `InputPlans.PlannedWhole` | daemon/src/main.cpp:3543-3556 | queueing a publication later than all of its bus before keeps the client's history a sequence of whole publications, none twice, and of other frames |
| `InputPlans.FrameTellsCycle` | daemon/src/main.cpp:1871-1895 | equal chunk frames are the same chunk of the same cycle |
| `InputPlans.PublicationsAreContiguous` | daemon/src/main.cpp:3107-3132 | in such a history the first chunk of a cycle is followed by the rest of it |
| `InputEndToEnd.DrainPublishesCycles` | daemon/src/main.cpp:3472-3563 | whatever has been popped so far, each publication made is the publication of one cycle |
| `InputEndToEnd.StreamRises` | daemon/src/main.cpp:1852-1904 | along the queue of a bus the cycle sequence rises exactly behind the last chunk of a cycle |
| `InputEndToEnd.CompletedIsNew` | daemon/src/main.cpp:3533-3541 | the publication that a chunk completes is that of its own cycle, which is later than every publication of that bus before |
| `InputEndToEnd.StepKeepsInv` | daemon/src/main.cpp:3472-3563 | every access of a worker or of the main loop and every event of the table keeps queues, accumulators and clients consistent: process data is sent only as whole publications of recorded cycles, each at most once to a client and in order |
| `InputEndToEnd.InputsEndToEnd` | daemon/src/main.cpp:3472-3563 | IO map to application in one statement, over every run of workers, main loop and client table: every cut of what any client has received decodes, and every image popped or queued is one SubDevice in one cycle |
| `InputEndToEnd.PublicationsAreDelivered` | daemon/src/main.cpp:3472-3563 | over every run: what follows the first chunk of a cycle on a client's stream is the rest of its publication, no earlier frame is of that cycle, and receiving it delivers the image of every SubDevice in order |
| `Reassembly.TrueChunksNeverConflict` | daemon/src/client.cpp:1024-1039 | slices of one image never contradict each other and keep the buffer true |
| `Reassembly.MergedHolds` | daemon/src/client.cpp:1024-1042 | the buffer holds exactly the covered bytes and is complete exactly when all are covered |
| `ClientAssembler.Assembler.AssembleInput` | daemon/src/client.cpp:962-1073 | the loops and counters do what the value-level step says; storage counters equal the real sums within every limit; both final size exits are unreachable |
| `ClientAssembler.Assembler.OpenFor` | daemon/src/client.cpp:963-1022 | stale assemblies go, the current one is found or made after evicting the oldest |
| `ClientAssembler.Merge` | daemon/src/client.cpp:1024-1039 | copies and counts, stopping exactly at a contradiction |
| `ClientAssembler.Assembler.PopInputImage` | daemon/src/client.cpp:452-462 | takes the oldest image and its storage |
| `ClientAssembler.AssembledBounded` | daemon/src/client.cpp:962-1073 | at most one assembly per SubDevice and 16 in all, at most 32 images, both stores within 4 MiB |
| `ClientAssembler.DeliveredImagesAreExact` | daemon/src/client.cpp:962-1073 | chunks of any mix of cycles yield only published images |
| `ClientAssembler.CoveredImageIsDelivered` | daemon/src/client.cpp:962-1073 | from any state, order and overlap, the completing chunk delivers the image and leaves nothing behind |
| `ClientTable.Clients.CloseClient` | daemon/src/main.cpp:3168-3188 | terminates and equals the non-recursive specification |
| `ClientTable.Clients.BroadcastOutputsDisabled` | daemon/src/main.cpp:3243-3258 | offers the frame of the current epoch to exactly the open clients that said hello |
| `ClientTable.Clients.QueueFrame` | daemon/src/main.cpp:3076-3105 | queues, counts a drop, or closes, exactly by room, requiredness and stall limits |
| `ClientTable.Clients.QueueFramesAtomically` | daemon/src/main.cpp:3107-3132 | queues all frames of a publication or none |
| `ClientTable.Clients.FlushClient` | daemon/src/main.cpp:3134-3166 | moves bytes to the wire in order for every sequence of send results |
| `ClientTable.Clients.AdvanceEpoch` | daemon/src/main.cpp:2465-2478 | advances, tells the buses, broadcasts the new epoch, and lets the old controller drain |
| `ClientTable.Clients.HandleHello` | daemon/src/main.cpp:2791-2852 | grants the lease if it may, tells the buses, and greets; a client without room for the answer is closed and loses the lease again |
| `ClientTable.Clients.HandleHeartbeat` | daemon/src/main.cpp:2854-2866 | answers exactly if there is room, and then refreshes exactly the holder of the current epoch and changes nothing else of the gate |
| `ClientTable.Clients.HandleOutputEnable` | daemon/src/main.cpp:2868-2890 | sets the enable, tells the buses, answers, and after a disable broadcasts and lets the client drain |
| `ClientTable.Clients.HandleOutputWrite` | daemon/src/main.cpp:2892-2948 | answers exactly if there is room, and then has fed the watchdog exactly for an authorized write, with outputs enabled, that the bus took |
| `ClientTable.Clients.HandleRelease` | daemon/src/main.cpp:2964-2984 | drops the lease, answers, and only then tells the buses and broadcasts |
| `ClientTable.Clients.HandleAdapterUnlock` | daemon/src/main.cpp:3004-3031 | answers first; if granted the lease and the enable are gone and the buses told, after one step of the epoch if the answer had room; if refused and answered nothing of the gate changes |
| `ClientTable.Clients.HandleSafetyTimeouts` | daemon/src/main.cpp:2480-2511 | the output watchdog, else the heartbeat watchdog, each with its broadcast and the end of the controller |
| `ClientTable.WrittenValid` | daemon/src/main.cpp:3154-3161 | a partial write keeps wire plus pending equal to everything queued |
| `ClientEvents.CloseAdvancesOnce` | daemon/src/main.cpp:3168-3188 | the epoch moves exactly when the holder closes, by one step whatever the broadcast closes, and everyone still open is told or counted |
| `ClientEvents.NextKeepsInv` | daemon/src/main.cpp:2726-3031 | every event and handler keeps exact byte counts within 2 MiB, distinct identifiers, the lease with an open client, and the buses informed of epoch and enable |
| `ClientEvents.EpochMovesAtMostOnce` | daemon/src/main.cpp:3004-3031 | one event moves the epoch at most once and a lease never changes hands without it, if and only if it is not an unlock granted to a client without room for the answer; that one moves it twice |
| `ClientEvents.UnlockMovesTheEpochTwice` | daemon/src/main.cpp:3004-3031 | a run from the empty table in which a controller that reads nothing sends heartbeats until its queue is full, and its unlock moves the epoch from 1 to 3 |
| `ClientEvents.ReleaseInforms` | daemon/src/main.cpp:2964-2984 | a release leaves the buses informed although its answer may close the client before they are told |
| `ClientFrames.NextGrows` | daemon/src/main.cpp:3049-3132 | whatever happens, the history of every client continues a former one only with what an event brings, acknowledgements and broadcasts, or is new and empty |
| `ClientTable.WireCarriesWholeFrames` | daemon/src/main.cpp:3134-3166 | at any moment, open or closed, what was received decodes to a prefix of the frames queued |
| `JavaAssembler.PdoAssembler.Accept` | clients/java/src/main/java/ec_systemcore/SystemCoreClient.java:1256-1322 | delivers, waits or rejects as specified, with the byte count exact |
| `JavaAssembler.PdoAssembler.ExpireOlderThan` | clients/java/src/main/java/ec_systemcore/SystemCoreClient.java:1324-1334 | drops exactly the old assemblies and their bytes |
| `JavaAssembler.RemoveExpired` | clients/java/src/main/java/ec_systemcore/SystemCoreClient.java:1324-1334 | the removal loop keeps the byte count equal to the sum |
| `JavaAssembler.PdoAssembler.RemoveSuperseded` | clients/java/src/main/java/ec_systemcore/SystemCoreClient.java:1302-1313 | after a delivery no older assembly of that SubDevice remains |
| `JavaAssembler.AcceptKeepsInv` | clients/java/src/main/java/ec_systemcore/SystemCoreClient.java:1256-1322 | the limits hold and every open assembly is newer than the last delivery |
| `JavaAssembler.DeliveriesIncrease` | clients/java/src/main/java/ec_systemcore/SystemCoreClient.java:1256-1322 | over every run each SubDevice's delivered sequences rise strictly |
| `JavaAssembler.DeliveriesAreExact` | clients/java/src/main/java/ec_systemcore/SystemCoreClient.java:1256-1322 | over every run of published chunks each delivery is the published image |
| `JavaAssembler.CoveredImageIsDelivered` | clients/java/src/main/java/ec_systemcore/SystemCoreClient.java:1256-1322 | with room in the limits, slices in any order and overlap wait until they cover the image, and the completing chunk delivers it |
| `JavaAssembler.ClientsAgree` | clients/java/src/main/java/ec_systemcore/SystemCoreClient.java:1256-1322 | for the same chunks the Java and the C++ client deliver the same image at the same chunk |
| `JavaSession.NextKeepsInv` | clients/java/src/main/java/ec_systemcore/SystemCoreClient.java:181-353 | every read, compare-and-set and store keeps the session invariant |
| `JavaSession.SentCommandsAreCurrent` | clients/java/src/main/java/ec_systemcore/SystemCoreClient.java:564-615 | every command sent in a generation was captured in it with its HELLO epoch, control commands by its controller, an enable or write before the barrier rose, a write after an acknowledged enable, and is sent once |
| `JavaSession.BarrierIsFinal` | clients/java/src/main/java/ec_systemcore/SystemCoreClient.java:195-227 | a raised barrier never falls and outputs are never reported enabled again in that generation |
| `JavaSession.BarrierRisesOnce` | clients/java/src/main/java/ec_systemcore/SystemCoreClient.java:335-353 | one disable or release per generation wins the compare-and-set |
| `JavaSession.EnabledHasCause` | clients/java/src/main/java/ec_systemcore/SystemCoreClient.java:875-897 | enabled is reported only in the live generation, after an acknowledged enable and before any disable |
| `JavaFutures.SlotsAreConserved` | clients/java/src/main/java/ec_systemcore/SystemCoreClient.java:1107-1149 | permits, live futures and threads in between always add up, however often futures are retired |
| `ClockSync.DistributedClockController.Update` | daemon/include/ec_systemcore/dc_sync.hpp:33-148 | equals the value-level step, and no intermediate value leaves 64 bits |
| `ClockSync.HistoryMeans` | daemon/include/ec_systemcore/dc_sync.hpp:33-148 | after every history each counter and flag says what the samples say |
| `ClockSync.SynchronizedExactly` | daemon/include/ec_systemcore/dc_sync.hpp:83-132 | synchronized exactly after twenty steady samples in a row with no three stuck ones since |
| `ClockSync.FaultExactly` | daemon/include/ec_systemcore/dc_sync.hpp:33-148 | the 3, 10 and 500 rules in terms of the samples |
| `ClockSync.NoOverflow` | daemon/include/ec_systemcore/dc_sync.hpp:98-119 | the integral never overflows for any cycle up to 2^63 / 100 nanoseconds, nor within 2^63 - 1 updates for a longer one, and the correction is at most a tenth of a cycle |
| `Deadline.AddToTimespec` | daemon/src/main.cpp:1981-1992 | exact for every duration, and normalized if and only if the nanoseconds do not have to borrow, as for all durations that are not negative |
| `Deadline.AddNanoseconds` | daemon/src/main.cpp:1994-2008 | exact and normalized for either sign |
| `Deadline.DifferenceMicros` | daemon/src/main.cpp:2016-2037 | whole microseconds, clamped to 32 bits |
| `Deadline.NextDeadline` | daemon/src/main.cpp:1678-1704 | the next deadline, realigned exactly when it has passed |
| `Deadline.RealignedExactly` | daemon/src/main.cpp:1684-1704 | the realigned deadline lies within one period after now if and only if the lateness is within reach, as it is below 2^32 microseconds |
| `Deadline.LongStopStaysLate` | daemon/src/main.cpp:1684-1704 | a lateness for which it does not |
| `Deadline.DeadlinesKeepPhase` | daemon/src/main.cpp:1678-1704 | over every run deadlines move by whole periods plus the corrections, at least nine tenths of a period per cycle |
| `RateLimit.RateBucket.ConsumeRateToken` | daemon/src/main.cpp:2726-2743 | refills, then takes a token or marks the client for closing |
| `RateLimit.AcceptsExactly` | daemon/src/main.cpp:2726-2743 | a full bucket accepts a trace exactly when every window fits burst plus rate times elapsed |
| `RateLimit.RateCoversDemand` | daemon/include/ec_systemcore/safety.hpp:202-236 | every valid configuration gets twice its refresh demand plus 100 and three refreshes plus 64 of burst |
| `RateLimit.DemandIsAccepted` | daemon/src/main.cpp:2806-2825 | so traffic within that demand is never cut off |
| `Crc32.ComputeEntry` | configuration/zip.ts:65-71 | a table entry is eight shifts of its index |
| `Crc32.UpdateCrc32` | configuration/zip.ts:73-77 | the table-driven update is the bit-serial register |
| `Crc32.LookupIsSerial` | configuration/zip.ts:73-77 | one lookup equals eight clocks of the register |
| `Crc32.RegisterAppend` | configuration/zip.ts:193-204 | the CRC may be computed chunk by chunk |
| `ZipFormat.ArchiveRoundTrip` | configuration/zip.ts:79-138 | following the end record recovers exactly the names and bytes, with every record, length, offset and CRC checked |
| `StoredZip.ValidateEntries` | configuration/zip.ts:140-170 | accepts exactly the bounded sets of distinct basenames and handles |
| `StoredZip.CopyFile` | configuration/zip.ts:191-204 | whatever the pattern of short reads, the bytes are the file's first `size` bytes and the CRC is theirs; it fails exactly when a read returns nothing |
| `StoredZip.ProgressCompletes` | configuration/zip.ts:193-203 | a long enough file completes under every pattern of reads that makes progress |
| `StoredZip.RequestFits` | configuration/zip.ts:4-6 | the limits make every offset and size fit 32 bits |
| `StoredZip.GenerateStoredZip` | configuration/zip.ts:172-231 | succeeds exactly for valid readable requests, and then the archive reads back to its inputs |

## Left out

- Memory ordering: acquire and release atomics are sequentially consistent steps.
- Master library, sockets, poll, clocks, threads, scheduling and real-time set-up: their results are free choices or parameters.
- OutputTheorems: the counting of working-counter misses and the distributed-clock fault are a free choice at the end of a cycle, and runs are those in which the 64-bit epoch does not wrap (`Leases.WrapGrantsAnEpochTwice` shows what a wrap does).
- Liveness: nothing says that a barrier is eventually completed or a future eventually answered.
- ClientTable.Clients.CloseClient: one reading of the clock serves the whole outer call, where the source reads it again for each client that has no room.
- ClientTable.Clients.FlushClient: a send never reports more bytes than it was given; the list of results ends where the model stops looking.
- UpdateInputPublicationDemand, SUBSCRIBE_INPUTS and each client's publication period: which publications a client is offered, and whether a popped chunk found a subscriber, is any choice.
- InputEndToEnd.InputsEndToEnd: cycle sequences rise strictly, that is, the saturating counter stays below 2^64 - 1; status and bus information frames are any frames that encode and are no process data.
- Stale-output counters: EnforcePerSubDeviceFreshness is modelled without the count that it publishes.
- RateLimit.AcceptsExactly: real arithmetic in place of double precision.
- Crc32.UpdateCrc32: the table is a function of its index rather than an array of 256 words.
- StoredZip.GenerateStoredZip: names are UTF-8 byte strings (lone surrogates are not modelled), sizes are integers, DOS time stamps are given, the output is one byte string rather than a sequence of chunks, and closing of handles is not modelled.
- JavaSession.SentCommandsAreCurrent: executors, callbacks, health reporting, request expiry and forced reconnects are the step that ends a generation at any moment.
- JavaAssembler.PdoAssembler.ExpireOlderThan: nanosecond clocks do not wrap.
- C++ client commands, reconnection, heartbeats and output queue: the session logic is modelled in its Java form, the byte accounting in the daemon's.
- The other fixed-layout payload codecs: the same field-by-field round trip as the two modelled.
- Event log, configuration loading, adapter scanning and locking, JSON, the HTTP server and the web page: file, system and user-interface plumbing.
- Python and TypeScript decoders and assemblers: the same logic as the C++ and Java ones.
