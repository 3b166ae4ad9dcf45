# Verified model of the emulator's transport, kernel core and scheduler

This project models, in Dafny, three parts of the emulator and proves what they promise.

**Transport.** The message ring is a byte array with 8-byte-aligned records, a wrap marker and two
cursors. `RingLayout` says what the bytes mean, `RingValue` proves the ring over whole runs,
`MsgRing` is the ring as it updates its array, and `RingConcurrency` takes every atomic load, atomic
store and block write of producer and consumer as a separate step under every schedule; `RingCalls`
finds the whole calls among the schedules. `IndexRing`
and `SlotPool` are the slot rings with their wrapping 32-bit counters, `IndexConcurrency` interleaves
their loads and stores, `FrameProtocol` runs the
scenario engine against the native consumer over those rings, `FrameProgress` proves that it cannot get
stuck, and `Mailbox`, `Ports` and `Endpoint`
add coalescing, delivery classes, counters and the order of draining.

**Kernel core.** `Timers`, `TimerForm`, `TimerSplits`, `Ppu`, `Renderer` and `Serial` state what the batched loops
compute: closed forms, cycle-by-cycle references, a per-pixel description of a frame. `TimerReads`,
`PpuStatus` and `PixelBytes` say in plain numbers and raw bytes what that makes of DIV, TIMA, STAT, the
interrupt flags and every pixel. `TimerDevice`,
`PpuDevice`, `FrameRenderer` and `Serial.SerialLink` are the loops themselves, in place. `MemoryBus`
is the memory map and `MemoryMap` what it promises; `Core` and `Instructions` are the processor, written once over an execution
backend as in the source, with each instruction body a small program of operations and a declared
cost; `CoreLoop`, `CycleBooks` and `CoreDevice` account for cycles. `Lanes` and `Lockstep` run the
same core over vectors and prove that in lockstep it is the scalar core in every lane; `LaneWise` says
what the vector operations do on lanes that differ. `Decimal`,
`ByteLaws`, `ByteRuns`, `Stack` and `Behaviour` prove laws of instructions. `Manual` is an independent account
of all 512 opcodes, interrupts and turns in terms of visible registers, without micro-operations;
`ManualSteps`, `ManualRuns`, `ManualAgrees` and `ManualLoop` prove that the core refines it, and `Branches`
spells out the conditional branches. `TimerRegisters` and `TimerClient`
join timers and bus: the timer step, made call by call against the bus, alone or over many lanes, is
the step the closed form is about. `PpuClient` does the same for the picture unit, and `Peripherals`
puts timers, picture unit and serial clock together as the core steps them.

**Scheduler.** `Scheduler` proves order and no loss under backpressure, whatever services answer,
`AttemptOrder` in which order intents are tried; `SchedulerDevice` is the queues and the loop in place.

Results that hold only under a condition carry the exact condition: when a slot ring is a queue
forever, when a drained ring still takes a record, when a short commit breaks the reader, when the
mailbox's counters mislead, when interrupt dispatch can fail, and where a step of the timers may be
split.

Two conventions: counters named `ticks`, `reloads`, `frames` and `vblanks` beside the registers count
events for the statements and are read by nothing; and a method's `ensures` ties the new state to a
function of the old one, about which the lemmas then speak.

Where the code differs from what hardware or comments suggest, the model follows the code: tall
sprites take their lower half 32 bytes on (`crates/04-services/kernel-core/src/ppu_stub.rs:304`), an
instruction after EI forces the master enable on (`crates/04-services/kernel-core/src/core.rs:412`),
IE is kept unmasked (`crates/04-services/kernel-core/src/mmu.rs:157`), the joypad register reads a
pressed key as one (`crates/04-services/kernel-core/src/mmu.rs:39`), a retried intent goes ahead of any
that outranks it (`crates/05-app-loop/app/src/lib.rs:97`), and a commit moves the head by
the reserved length while storing the written one
(`crates/01-transport/transport/src/msg_ring.rs:140`).

## Model

| member | source | states |
|---|---|---|
| RingLayout.ReserveIsExact | crates/01-transport/transport/src/msg_ring.rs:504-550 | the branch-by-branch placement decision returns a plan exactly when that plan is a legal placement: at the head or, past a marker, at zero, on free bytes only, never making the ring look empty; None exactly when no legal placement exists |
| RingLayout.PlacesStable | crates/01-transport/transport/src/msg_ring.rs:282-286 | a placement decided against an older tail is still legal after the consumer has moved the tail on |
| RingLayout.FreeWritesKeepQueue | crates/01-transport/transport/src/msg_ring.rs:448-484 | writes that stay off the unread bytes leave the queued records as they were |
| RingLayout.CommitAppends | crates/01-transport/transport/src/msg_ring.rs:130-151 | a whole block at the planned place, and the marker if one was due, make the bytes up to the new head spell the old queue with the record appended |
| RingLayout.RecordReadsBack | crates/01-transport/transport/src/msg_ring.rs:563-577 | envelope and payload bytes read back as the record written: length word, tag, version, flags and payload |
| RingLayout.RecordOnTheWire | crates/01-transport/transport/src/msg_ring.rs:130-151 | a record byte by byte: the little-endian length of envelope and payload, tag, version, little-endian flags, the payload, zeros up to a multiple of eight |
| RingLayout.MarkerOnTheWire | crates/01-transport/transport/src/msg_ring.rs:552-562 | the wrap marker is four bytes of 0xFF and four of zero |
| RingLayout.FrontIsOldest | crates/01-transport/transport/src/msg_ring.rs:310-362 | off the marker, the bytes at the tail are the oldest record, whole, and its length is in range, so no check of the peek can fail |
| RingLayout.MarkerIsSkipped | crates/01-transport/transport/src/msg_ring.rs:315-336 | on the marker the length word is the sentinel, and resetting the tail to zero keeps the queue |
| RingLayout.PopRemovesOldest | crates/01-transport/transport/src/msg_ring.rs:365-398 | advancing the tail by the padded length, with the exact-fit wrap to zero, removes exactly the oldest record |
| RingLayout.QueueFits | crates/01-transport/transport/src/msg_ring.rs:504-550 | the region's size bounds the number of queued records |
| RingValue.SendAppends | crates/01-transport/transport/src/msg_ring.rs:267-297 | a whole send appends its record, or is refused exactly when the padded length reaches the capacity or no placement exists |
| RingValue.ReceivePops | crates/01-transport/transport/src/msg_ring.rs:310-398 | a whole receive hands over the oldest record and removes it, and hands over nothing exactly when there is none |
| RingValue.FifoOverEveryRun | crates/01-transport/transport/src/msg_ring.rs:267-398 | over every sequence of sends and receives from a new ring, accepted records are those handed over followed by those still in the bytes |
| RingValue.ProgressBound | crates/01-transport/transport/src/msg_ring.rs:272-280 | for a payload whose padded length is under the capacity: every reachable drained ring takes it if and only if twice the padded length is at most the capacity |
| RingValue.StuckAfterOneShot | crates/01-transport/transport/src/msg_ring.rs:504-542 | past that bound, one send and one receive from a new ring leave it empty and refusing that payload length |
| RingValue.WedgedForever | crates/01-transport/transport/src/msg_ring.rs:504-542 | and from then on no sequence of receives and sends of that length changes it or gets anything in |
| RingConcurrency.EveryRunIsGood | crates/01-transport/transport/src/msg_ring.rs:267-398 | every atomic load, store and block write of both sides taken as a step, each side with its own stale copy of the other's cursor, every schedule keeps the invariant |
| RingConcurrency.FifoUnderEverySchedule | crates/01-transport/transport/src/msg_ring.rs:267-398 | at every moment of every schedule, committed records are those consumed followed by those the bytes still spell, and no consumer check has failed |
| RingConcurrency.UnreadBytesNeverChange | crates/01-transport/transport/src/msg_ring.rs:448-484 | no step of either side changes a byte the consumer has still to read |
| RingConcurrency.PeekedRecordStays | crates/01-transport/transport/src/msg_ring.rs:310-362 | between a peek and its pop the record's bytes stay what they were, and it is the next record owed |
| RingCalls.SendIsSchedule | crates/01-transport/transport/src/msg_ring.rs:267-297 | from any state good in that sense with the producer at rest, the producer's atomic steps run alone amount to the value ring's send, bytes included, or change nothing when it is refused |
| RingCalls.ReceiveIsSchedule | crates/01-transport/transport/src/msg_ring.rs:310-398 | and the consumer's, a peek that may step over the marker and a pop, to its receive |
| RingCalls.CallsAreSchedules | crates/01-transport/transport/src/msg_ring.rs:267-398 | so any history of whole sends and receives is a schedule that ends in the value ring's bytes and cursors, with the records it accepted committed and those it handed over consumed |
| MsgRing.AlignedCapacity | crates/01-transport/transport/src/msg_ring.rs:171-198 | requested capacities are raised to the minimum and rounded up to eight; refused exactly when the result reaches the 32-bit limit |
| MsgRing.MsgRing.constructor | crates/01-transport/transport/src/msg_ring.rs:171-198 | a new ring is empty and zeroed |
| MsgRing.MsgRing.TryReserveWith | crates/01-transport/transport/src/msg_ring.rs:267-297 | grants a legal placement with its marker in place, or leaves the bytes alone exactly when there is none |
| MsgRing.MsgRing.WritePayload | crates/01-transport/transport/src/msg_ring.rs:112-119 | writing through the grant changes the reserved block only |
| MsgRing.MsgRing.Commit | crates/01-transport/transport/src/msg_ring.rs:130-151 | writes envelope and padding, moves the head by the reserved length, and appends the record when the commit fills the reserved block |
| MsgRing.MsgRing.ConsumerPeek | crates/01-transport/transport/src/msg_ring.rs:310-362 | returns the oldest record at an 8-aligned position, or Empty exactly when there is none, never Panic; the queue is unchanged |
| MsgRing.MsgRing.ConsumerPopAdvance | crates/01-transport/transport/src/msg_ring.rs:365-398 | removes the oldest record; fails only when called on a marker without a peek |
| MsgRing.FullCommit | crates/01-transport/transport/src/msg_ring.rs:130-151 | a commit whose padded length is the reserved one appends exactly the written payload |
| MsgRing.ShortCommit | crates/01-transport/transport/src/msg_ring.rs:140-146 | a commit of fewer bytes than reserved, whatever is queued: the queued records and then the short one are read back, and the next peek panics if and only if its padded length differs from the reserved one |
| IndexRing.PushRefines | crates/01-transport/transport/src/slot_pool.rs:149-173 | a push is the queue's push as long as cells cannot collide: refused exactly at capacity, otherwise appended |
| IndexRing.PopRefines | crates/01-transport/transport/src/slot_pool.rs:175-199 | a pop hands over the queue's head, nothing exactly when empty |
| IndexRing.RunRefines | crates/01-transport/transport/src/slot_pool.rs:149-199 | over every run the ring stands for the queue, for capacities that divide 2^32 or runs short of a counter wrap |
| IndexRing.QueueUntilWrap | crates/01-transport/transport/src/slot_pool.rs:149-199 | every answer is the queue's answer while fewer than 2^32 pushes have been accepted, and for dividing capacities always |
| IndexRing.StraddleOverwrites | crates/01-transport/transport/src/slot_pool.rs:149-173 | for any other capacity there is a run after which a push overwrites an unread entry and the next pop hands over the newcomer |
| IndexRing.QueueForeverIff | crates/01-transport/transport/src/slot_pool.rs:149-199 | the ring is a bounded queue over all runs, counter wrap included, if and only if the capacity divides 2^32 |
| IndexRing.IndexRing.Push | crates/01-transport/transport/src/slot_pool.rs:149-173 | the push in place: entries, head counter and answer |
| IndexRing.IndexRing.Pop | crates/01-transport/transport/src/slot_pool.rs:175-199 | the pop in place |
| IndexRing.IndexRing.FillSequential | crates/01-transport/transport/src/slot_pool.rs:201-213 | the fill loop queues every index once, in order |
| IndexRing.FilledRefines | crates/01-transport/transport/src/slot_pool.rs:201-213 | a filled ring stands for the queue of all indices in order |
| IndexConcurrency.EveryRunIsGood | crates/01-transport/transport/src/slot_pool.rs:149-199 | every load and store of both sides taken as a step, each with its own stale copy of the other's counter, every schedule keeps the invariant, for dividing capacities or short of 2^32 pushes |
| IndexConcurrency.FifoUnderEverySchedule | crates/01-transport/transport/src/slot_pool.rs:149-199 | at every moment of every such schedule, what was popped is what was pushed, in order, up to some point; what is left is in the entries and never exceeds the capacity |
| IndexConcurrency.FifoForeverIff | crates/01-transport/transport/src/slot_pool.rs:149-199 | first in, first out under every schedule of any length, from an empty or a filled ring, if and only if the capacity divides 2^32 |
| IndexConcurrency.AnswersAreHonest | crates/01-transport/transport/src/slot_pool.rs:149-199 | with an outdated tail a push is refused exactly if the ring was full when the tail was loaded; with an outdated head a pop finds nothing exactly if everything pushed by the load is gone, and otherwise reads the oldest entry |
| IndexConcurrency.CallIsSchedule | crates/01-transport/transport/src/slot_pool.rs:149-199 | a whole push or pop is one of the schedules |
| SlotPool.SlotsAreConserved | crates/01-transport/transport/src/slot_pool.rs:375-427 | in every run in which each side pushes only indices it holds, free ring, producer, ready ring and consumer hold every slot exactly once and no push has met a full ring, while no counter wraps or the slot count divides 2^32 |
| SlotPool.ConservedForeverIff | crates/01-transport/transport/src/slot_pool.rs:375-427 | over runs of any length that holds if and only if the slot count divides 2^32 |
| SlotPool.SixAndEight | crates/03-driver/services-fabric/src/lib.rs:79 | the audio pool's six slots do not, eight do |
| SlotPool.SlotPool.constructor | crates/01-transport/transport/src/slot_pool.rs:306-338 | a new pool has every slot free and zeroed and none ready |
| SlotPool.SlotPool.TryAcquireFree | crates/01-transport/transport/src/slot_pool.rs:375-378 | takes the oldest free slot, None exactly when there is none |
| SlotPool.SlotPool.PushReady | crates/01-transport/transport/src/slot_pool.rs:397-404 | queues the slot as ready, or reports a full ring and changes nothing |
| SlotPool.SlotPool.PopReady | crates/01-transport/transport/src/slot_pool.rs:411-417 | takes the oldest ready slot |
| SlotPool.SlotPool.ReleaseFree | crates/01-transport/transport/src/slot_pool.rs:419-428 | gives the slot back |
| SlotPool.SlotPool.WriteSlot | crates/01-transport/transport/src/slot_pool.rs:389-395 | changes the front of that slot's bytes and no other slot's |
| SlotPool.SlotPool.ProduceFrame | crates/04-services/kernel/src/sink_transport.rs:27-69 | publishes a frame: no slot, a whole or cut frame in a queued slot, or the slot handed back with the pixels copied out; the returned pixels and span say which |
| SlotPool.AcquiredSlotIsQueued | crates/04-services/kernel/src/sink_transport.rs:27-69 | in a conserved pool an acquired slot always finds room in the ready ring, so the copy-out branch is dead |
| FrameProtocol.FramesArriveInOrder | crates/01-transport/transport-scenarios/src/engine.rs:61-101 | under every interleaving of engine and consumer calls over the real rings: the k-th delivery has event frame k, the event names the ready slot, the slot holds k; no push is ever refused and no event malformed |
| FrameProgress.SomeoneGoes | crates/02-runtime/runtime-native/src/lib.rs:140-243 | no deadlock: in every reachable state no call of either side loses ground, at most 8 per frame can gain any, and until everything is delivered and released some side's next call gains one |
| FrameProgress.EveryFrameArrives | crates/02-runtime/runtime-native/src/lib.rs:140-243 | from every state of every interleaving all frames can still be delivered, in exactly as many further calls as are missing from eight per frame |
| FrameProtocol.RunKeepsInv | crates/02-runtime/runtime-native/src/lib.rs:140-243 | every interleaving keeps the protocol invariant: slots partitioned, the i-th pending slot carrying frame first + i, queued events naming the announced slots |
| FrameProtocol.FewEvents | crates/01-transport/transport-scenarios/src/engine.rs:61-101 | there are never more queued events than slots |
| FrameProtocol.EventRoom | crates/02-runtime/runtime-native/src/lib.rs:164-175 | with at most one event per slot outstanding the event ring never refuses one |
| FrameProtocol.NativeConfig | crates/02-runtime/runtime-native/src/lib.rs:69-80 | the native runtime's eight slots and 512 KiB event ring meet the protocol's conditions |
| FrameProtocol.EventOnTheWire | crates/01-transport/transport-scenarios/src/engine.rs:61-101 | the sixteen bytes of an event on the ring: length, tag 0x13, version 1, no flags, frame id and slot, low bytes first |
| FrameProtocol.ScenarioEngine.Poll | crates/01-transport/transport-scenarios/src/engine.rs:109-173 | frame ids count up across polls of every scenario, modulo 2^32; a poll makes min(100, left) frames of a flood, one whole burst, or min(50, left) under backpressure, and one without work means the scenario is finished or its bursts are empty |
| FrameProtocol.ScenarioEngine.Batch | crates/01-transport/transport-scenarios/src/engine.rs:113-129 | the counted loops produce exactly min(limit, left) consecutive ids |
| FrameProtocol.ScenarioEngine.BurstFrames | crates/01-transport/transport-scenarios/src/engine.rs:130-153 | one burst produces its ids in order, wrapping at 32 bits |
| Mailbox.AlignCapacity | crates/01-transport/transport/src/mailbox.rs:236-246 | at least eight, a multiple of eight, and less than eight above the request |
| Mailbox.PackRoundTrip | crates/01-transport/transport/src/mailbox.rs:248-258 | an envelope packed into 32 bits unpacks to itself: tag in the top byte, version below it, flags in the lower half |
| Mailbox.SendRefines | crates/01-transport/transport/src/mailbox.rs:143-180 | a send in the bytes and counters is the abstract send: newest message and unread count; too large a payload changes nothing |
| Mailbox.TakeRefines | crates/01-transport/transport/src/mailbox.rs:183-202 | a take is the abstract take |
| Mailbox.LastWriteWins | crates/01-transport/transport/src/mailbox.rs:143-202 | for every sequence of sends and takes, sequence numbers wrapping wherever they do: every take returns the newest unread message or None, and every send reports Coalesced when it replaces an unread one and Accepted otherwise, if and only if never 2^32 sends wait for a take |
| Mailbox.SharedMailbox.TrySend | crates/01-transport/transport/src/mailbox.rs:143-180 | the send in the shared region |
| Mailbox.SharedMailbox.TakeLatest | crates/01-transport/transport/src/mailbox.rs:183-202 | the take in the shared region |
| Mailbox.SharedMailbox.constructor | crates/01-transport/transport/src/mailbox.rs:71-98 | a new mailbox is empty |
| Ports.ReserveAndCommit | crates/01-transport/transport-fabric/src/port.rs:224-233 | appends the record, or fails exactly when the ring has no placement for it and leaves the queue alone |
| Ports.RingPort.TrySend | crates/01-transport/transport-fabric/src/port.rs:76-100 | accepted, blocked or dropped by class, or an error for the coalescing class; a refusal leaves the queue unchanged, and the counters are the outcome totals modulo 2^32 |
| Ports.RingPort.DrainRecords | crates/01-transport/transport-fabric/src/port.rs:113-139 | hands over the oldest records, as many as there are up to the limit; accepted stays delivered followed by queued |
| Ports.MailboxPort.TrySend | crates/01-transport/transport-fabric/src/port.rs:235-244 | coalesced or accepted by the mailbox's unread count, or an error for another class or too large a payload; counters as above |
| Ports.MailboxPort.DrainRecords | crates/01-transport/transport-fabric/src/port.rs:138-146 | a drain of any positive size takes the newest message; a drain of zero takes nothing |
| Ports.TickCounts | crates/01-transport/transport-fabric/src/port.rs:166-182 | counting an outcome on the wrapping counters is counting it modulo 2^32 |
| Ports.CountersCount | crates/01-transport/transport-fabric/src/port.rs:166-182 | over any history of outcomes each wrapping counter is, modulo 2^32, how often its own outcome occurred; a closed port counts nowhere |
| Endpoint.DrainRespectsLimit | crates/01-transport/transport-fabric/src/endpoint.rs:95-113 | a drain delivers at most its limit, and a lower class is touched only when the classes above left room |
| Endpoint.SubmitAnswers | crates/01-transport/transport-fabric/src/endpoint.rs:22-31 | a command goes to the port of its class and no other; a full ring blocks a lossless command and drops a best-effort one, a mailbox refuses only what it cannot hold, and a missing port or encoding is an error |
| Endpoint.DeliveredInOrder | crates/01-transport/transport-fabric/src/endpoint.rs:22-31 | with a round-tripping codec, over any run of submits and drains from new ports, each ring port's accepted commands are those delivered followed by those still in its bytes, in order |
| Endpoint.WorkerEndpoint.DrainRingPort | crates/01-transport/transport-fabric/src/endpoint.rs:126-162 | the drain loop decodes the oldest records in order, skipping those that do not decode |
| Endpoint.WorkerEndpoint.DrainPorts | crates/01-transport/transport-fabric/src/endpoint.rs:95-113 | lossless first, then the mailbox, then best effort, with what is left of the limit after each |
| Scheduler.NoLossInOrder | crates/05-app-loop/app/src/lib.rs:70-102 | over any run of arrivals and budgeted turns, whatever the services answer: for each priority the arrivals are, in order, those that have left, the one awaiting a retry, and those still in line; at most one retry, at the very front |
| Scheduler.LeavesOnlyWhenTaken | crates/05-app-loop/app/src/lib.rs:78-100 | an intent leaves exactly when it asks for nothing, or its one answer is not Closed and, unless it is a frame or a snapshot, not WouldBlock; an attempt asks at most once |
| Scheduler.RetryChangesNothing | crates/05-app-loop/world/src/reduce_intent.rs:14-63 | an attempt that is sent back leaves the world as it was and puts the intent at the front; any other leaves the queues alone and applies the intent once |
| Scheduler.WorldReducedOnce | crates/05-app-loop/world/src/reduce_intent.rs:14-63 | after any run the world is what each intent that has left does to it, once each, in the order they left |
| Scheduler.PopIsHead | crates/05-app-loop/app/src/priority.rs:63-72 | a pop takes the retried intent if there is one, otherwise the head of the first non-empty line: P1 only behind an empty P0 line, P2 only behind two empty lines, and nothing only when all three are empty |
| AttemptOrder.AttemptsInOrder | crates/05-app-loop/app/src/lib.rs:70-102 | over every run of arrivals and budgeted turns, whatever the services answer: an intent sent back is the next one tried, and every other attempt is on the oldest intent of its priority while the queues of every higher priority are empty |
| AttemptOrder.RetryOutranks | crates/05-app-loop/app/src/lib.rs:97-100 | the order is not by priority alone: a run in which a P2 intent sent back is tried before a P0 intent that arrived meanwhile |
| AttemptOrder.BudgetSpent | crates/05-app-loop/app/src/lib.rs:70-77 | a turn tries as many intents as its budget allows and stops early only on empty queues |
| Scheduler.SpeedSetsTheFrame | crates/05-app-loop/world/src/reduce_intent.rs:14-30 | a speed request sets the allowed speed nearest to it, and the next frame is asked for the whole number of cycles nearest to that many times 70224 |
| Scheduler.WorldChanges | crates/05-app-loop/world/src/reduce_intent.rs:14-63 | pausing flips, a lane selection replaces, and no intent but these and a speed request changes the world |
| Scheduler.CommandsCarry | crates/05-app-loop/world/src/reduce_intent.rs:14-63 | which one command each intent asks for, with everything the intent names |
| Scheduler.LosslessIntents | crates/05-app-loop/world/src/types.rs:90-102 | which intents ask for a command that may not be lost |
| SchedulerDevice.Scheduler.ProcessIntents | crates/05-app-loop/app/src/lib.rs:70-102 | the budgeted loop in place computes the processing function, whose attempts and departures the theorems above order |
| SchedulerDevice.Scheduler.Submit | crates/05-app-loop/app/src/lib.rs:79-96 | the command loop stops at the first command sent back |
| SchedulerDevice.PQueues.PopNext | crates/05-app-loop/app/src/priority.rs:63-72 | in place: the head of P0 if it has one, else of P1, else of P2, the other queues as they were, and nothing exactly when all are empty |
| SchedulerDevice.PQueues.Enqueue | crates/05-app-loop/app/src/priority.rs:49-55 | the enqueue in place |
| SchedulerDevice.PQueues.EnqueueFrontP0 | crates/05-app-loop/app/src/priority.rs:58-60 | the front insert in place |
| Timers.StepAdds | crates/04-services/kernel-core/src/timers.rs:174-184 | stepping a multiple of four cycles and then any number more is one step of the sum, from any timer state and any latched writes |
| TimerSplits.SplitsAtFours | crates/04-services/kernel-core/src/timers.rs:174-184 | for every number of cycles a: a step may be split after a, after every history since power-on and whatever follows, if and only if a is a multiple of four; and the same over all states |
| TimerSplits.SplitShows | crates/04-services/kernel-core/src/timers.rs:277-303 | after any other number there is a history whose timer has nothing latched, its input up to date and TIMA at zero if a reload waits, and from which the split shows: the reload wait is counted in the chunks the calls happen to make |
| Timers.WritesFollowSignal | crates/04-services/kernel-core/src/timers.rs:186-240 | a latched DIV reset or TAC write ticks TIMA exactly when the selected signal falls from before to after it, and the input afterwards is the signal |
| Timers.EdgesCount | crates/04-services/kernel-core/src/timers.rs:314-334 | counting falling edges cycle by cycle is counting multiples of the period |
| Timers.ChunkEnds | crates/04-services/kernel-core/src/timers.rs:314-334 | comparing the two ends of a chunk of at most four cycles finds every edge in it |
| Timers.CyclesFollowSignal | crates/04-services/kernel-core/src/timers.rs:174-184 | over any number of cycles, however chunked and across the divider's wrap, TIMA ticks once for every falling edge of a cycle-by-cycle divider |
| Timers.SingleEdgeRule | crates/04-services/kernel-core/src/timers.rs:186-254 | one rule for all three tick sites: with at most one DIV or TAC write waiting, a step's ticks are the edge at the write and the edges of its cycles, and the input again is enable and selected bit |
| Timers.WritesWait | crates/04-services/kernel-core/src/mmu.rs:119-132 | single register writes to a settled timer leave exactly the situation that rule asks for |
| TimerForm.ClosedForm | crates/04-services/kernel-core/src/timers.rs:174-184 | with no write waiting, the whole timer state after any multiple of four cycles equals a closed form, from every state (running, overflow waiting, reload being made); what DIV then reads is TimerReads.DividerShown |
| TimerForm.RegistersAfter | crates/04-services/kernel-core/src/timers.rs:256-303 | while enabled ticks are floor((d+n)/P) - floor(d/P), otherwise none; TIMA counts them from its start and, after each overflow, from TMA; one interrupt per overflow, four cycles late, TIMA reading 0 in between; a reload pending at the start is made first |
| TimerForm.StepKeepsWaiting | crates/04-services/kernel-core/src/timers.rs:256-303 | no step leaves a reload wait of more than four cycles, so the closed form is about every state the timer reaches |
| TimerForm.NextTick | crates/04-services/kernel-core/src/timers.rs:256-275 | one more tick overflows exactly from 0xFF, and the count then starts again at TMA |
| TimerForm.TicksAreSparse | crates/04-services/kernel-core/src/timers.rs:314-334 | a chunk holds at most one tick and ticks are at least four chunks apart, so a reload is never overtaken |
| TimerReads.DividerShown | crates/04-services/kernel-core/src/timers.rs:314-334 | after any step DIV shows (d + n) mod 65536 divided by 256, d being the divider before it, or 0 if a DIV write was waiting, whatever else was written |
| Peripherals.DividerRead | crates/04-services/kernel-core/src/mmu.rs:29-51 | and so does a processor read of 0xFF04 after the peripherals have been given a span |
| TimerReads.TimaCounts | crates/04-services/kernel-core/src/timers.rs:242-275 | TIMA counts floor((d+n)/r) - floor(d/r) with r = 1024, 16, 64 or 256 by TAC's low bits, and nothing while bit 2 is clear, until it passes 0xFF; IF stays |
| TimerReads.TimerInterrupt | crates/04-services/kernel-core/src/timers.rs:277-303 | over any multiple of four cycles IF bit 2 is set if and only if it was or a reload happened, and no other line changes |
| TimerReads.ReloadIsDue | crates/04-services/kernel-core/src/timers.rs:277-303 | a call of up to four cycles that does not use up the wait for a reload only shortens it; one that does makes the reload and raises IF bit 2 |
| TimerReads.TimaWriteByState | crates/04-services/kernel-core/src/timers.rs:204-218 | a TIMA write counts from there, calls off a waiting reload, and is lost during one |
| TimerReads.TmaWriteByState | crates/04-services/kernel-core/src/timers.rs:220-225 | a TMA write is what the next reload takes, a waiting one included, and at once one being made |
| TimerReads.TacWriteShows | crates/04-services/kernel-core/src/timers.rs:227-239 | a TAC write keeps its low three bits, reads with the others set, and leaves the divider |
| TimerRegisters.PowerOnRegisters | crates/04-services/kernel-core/src/bus.rs:81-112 | the registers the timer's runs start from are those of a new bus |
| TimerRegisters.CpuWritesLatch | crates/04-services/kernel-core/src/mmu.rs:119-132 | CPU writes to FF04 to FF07 through the memory map latch what the timer's account of its registers says |
| TimerRegisters.TakesClearLatches | crates/04-services/kernel-core/src/timers.rs:43-65 | each take answers with its latch, clears it and touches nothing else |
| TimerClient.StepByCalls | crates/04-services/kernel-core/src/timers.rs:174-334 | the step made one register call at a time on the bus, from any bus and whatever was latched, ends and leaves timer and registers as the step function does |
| TimerClient.ConsumeStepsTimer | crates/04-services/kernel-core/src/core.rs:121-134 | consuming n cycles steps timer and registers by exactly n; 65 calls are room for every span of an instruction |
| TimerClient.CallKeeps | crates/04-services/kernel-core/src/timers.rs:174-334 | after every single call, timer and registers owe exactly what they owed before it |
| TimerClient.CallShrinks | crates/04-services/kernel-core/src/timers.rs:174-334 | every call brings the step nearer its end, each latched write and each chunk by a bounded number of calls |
| TimerClient.StepInEveryLane | crates/04-services/kernel-core/src/bus_simd.rs:155-285 | on a bus of many equal lanes the one shared timer steps once and every lane's registers are those of that step |
| TimerClient.TurnTouches | crates/04-services/kernel-core/src/timers.rs:174-334 | the timer's calls change nothing on the bus but DIV, TIMA, IF and the latched writes |
| TimerDevice.TimerBlock.Step | crates/04-services/kernel-core/src/timers.rs:174-184 | the step in place, its chunk loop included, computes the step function, whose DIV, TIMA and IF the theorems above give in numbers |
| TimerDevice.TimerBlock.ProcessRegisterWrites | crates/04-services/kernel-core/src/timers.rs:186-240 | the latched writes consumed in place, in order |
| TimerDevice.TimerBlock.AdvanceTimaState | crates/04-services/kernel-core/src/timers.rs:277-303 | the overflow and reload states in place |
| TimerDevice.TimerBlock.ApplyDivIncrement | crates/04-services/kernel-core/src/timers.rs:314-334 | the divider chunk in place, with its 16-bit wrap |
| TimerDevice.TimerBlock.IncrementTima | crates/04-services/kernel-core/src/timers.rs:256-275 | the tick in place |
| TimerDevice.TimerBlock.ComputeTimerInput | crates/04-services/kernel-core/src/timers.rs:242-254 | the input is the enable bit and the selected divider bit |
| TimerDevice.MaskIsHalf | crates/04-services/kernel-core/src/timers.rs:305-312 | masking one divider bit asks for the upper half of twice its value |
| TimerDevice.Replay | crates/04-services/kernel-core/src/mmu.rs:119-132 | steps and CPU register writes in place, from power-on, reach what the history reaches |
| Ppu.StepAdds | crates/04-services/kernel-core/src/ppu_stub.rs:102-133 | however cycles are split over calls, counters, registers, STAT and its interrupts end up the same, LCD on or off |
| Ppu.RunIsDots | crates/04-services/kernel-core/src/ppu_stub.rs:111-132 | jumping from event to event is moving dot by dot |
| Ppu.ClosedForm | crates/04-services/kernel-core/src/ppu_stub.rs:102-133 | with the LCD on and no write, ly*456+dot advances modulo 70224, the mode is a function of it, frame_ready is raised exactly at the wrap, and afterwards IF has its VBlank bit set exactly if it was set before or line 144 began meanwhile |
| Ppu.LeapStaysInStep | crates/04-services/kernel-core/src/ppu_stub.rs:111-132 | the loop never starts on a boundary: its zero branch is dead and its subtraction never goes below zero |
| Ppu.EventMakesRoom | crates/04-services/kernel-core/src/ppu_stub.rs:435-463 | an event at a boundary leaves room before the next, so the loop ends from any sane counters |
| Ppu.StepStaysGood | crates/04-services/kernel-core/src/ppu_stub.rs:344-387 | between arbitrary register writes, every step leaves the unit parked or in step with its position |
| Ppu.Play | crates/04-services/kernel-core/src/ppu_stub.rs:102-149 | and so over whole runs of steps, register writes and frames taken |
| Ppu.EnterLineKeeps | crates/04-services/kernel-core/src/ppu_stub.rs:465-485 | entering a line: mode, LY, comparison, frame and VBlank by its number |
| PpuStatus.StatusAfter | crates/04-services/kernel-core/src/ppu_stub.rs:389-433 | from any running unit, after n dots: STAT bits 0-1 are the mode due at the position, bit 2 is LY == LYC, LY is the line, bits 3-7 are unchanged, and IF bit 1 is set if and only if it was, or the first comparison asked, or among those dots mode 0, 1 or 2 began with STAT bit 3, 4 or 5 set or a line equal to LYC began with bit 6 set |
| Peripherals.PictureRead | crates/04-services/kernel-core/src/mmu.rs:29-51 | what the processor reads from LY and STAT after a span, the STAT enables kept, and that the core is told of a frame exactly when the position passes its end |
| PpuStatus.SwitchedOn | crates/04-services/kernel-core/src/ppu_stub.rs:358-368 | switching the LCD on: line 0, mode 2, its STAT bits, and which of its two interrupts are asked for |
| PpuStatus.SwitchedOff | crates/04-services/kernel-core/src/ppu_stub.rs:370-387 | switching it off: line 0, mode 0, the comparison bit, and no interrupt |
| PpuStatus.FramesAfter | crates/04-services/kernel-core/src/ppu_stub.rs:465-485 | a frame is complete exactly once the position passes 70224 dots, and IF bit 0 is set if and only if it was or line 144 began among the dots passed |
| PpuStatus.FirstFrame | crates/04-services/kernel-core/src/ppu_stub.rs:102-133 | from power-on the first step with the LCD on begins a frame at its first dot |
| PpuStatus.OtherLinesStay | crates/04-services/kernel-core/src/ppu_stub.rs:344-387 | whatever the unit does, it sets bits 0 and 1 of IF at most, clears none and leaves the other lines alone |
| PpuDevice.PpuUnit.Step | crates/04-services/kernel-core/src/ppu_stub.rs:102-133 | the event loop in place computes the step function |
| PpuDevice.PpuUnit.LoopBody | crates/04-services/kernel-core/src/ppu_stub.rs:117-131 | one turn of the loop in place |
| PpuDevice.PpuUnit.RefreshCoincidence | crates/04-services/kernel-core/src/ppu_stub.rs:389-406 | STAT's mode and comparison bits, and the interrupt on a fresh match, in place |
| PpuDevice.PpuUnit.SetMode | crates/04-services/kernel-core/src/ppu_stub.rs:408-433 | mode change, STAT and its interrupt in place |
| PpuDevice.PpuUnit.AdvanceLine | crates/04-services/kernel-core/src/ppu_stub.rs:465-485 | the next line in place |
| PpuDevice.PpuUnit.HandleEvent | crates/04-services/kernel-core/src/ppu_stub.rs:445-463 | the event in place |
| PpuDevice.PpuUnit.CyclesUntilNextEvent | crates/04-services/kernel-core/src/ppu_stub.rs:435-443 | the cycles to the mode's boundary, without underflow |
| PpuDevice.PpuUnit.ForceLcdOff | crates/04-services/kernel-core/src/ppu_stub.rs:370-387 | the LCD switched off in place |
| PpuDevice.PpuUnit.StartLcd | crates/04-services/kernel-core/src/ppu_stub.rs:358-368 | the LCD switched on in place |
| PpuDevice.Replay | crates/04-services/kernel-core/src/ppu_stub.rs:102-149 | such a run in place |
| PpuClient.StepByCalls | crates/04-services/kernel-core/src/ppu_stub.rs:102-133 | the step made one register call at a time on the bus ends within 24 + 36n calls, leaves the unit and STAT, LY and IF as the step function does, and nothing else on the bus changed; switched off it makes none |
| PpuClient.RefreshGoes | crates/04-services/kernel-core/src/ppu_stub.rs:389-406 | the comparison's reads and writes, in order, are the refresh on the bus's registers, in at most five calls |
| PpuClient.LoopGoes | crates/04-services/kernel-core/src/ppu_stub.rs:111-132 | the loop's calls are the loop, in at most eighteen calls a turn and at most two turns a cycle |
| FrameRenderer.RenderFrame | crates/04-services/kernel-core/src/ppu_stub.rs:151-342 | for every content of VRAM, OAM and registers and every frame size: each pixel is the described one, whole pixels beyond the frame are white, stray bytes stay; every access in bounds |
| FrameRenderer.PixelAt | crates/04-services/kernel-core/src/ppu_stub.rs:151-342 | the same by row and column |
| PixelBytes.PixelFromBytes | crates/04-services/kernel-core/src/ppu_stub.rs:151-342 | every pixel from raw bytes, in offsets into video and object memory: LCD off is white; the first sprite that covers it gives its two bits at its flipped row and column through OBP0 or OBP1; else window or background give theirs, the map by LCDC bit 6 or 3, the tile row at 16*id + 2*row, with 0x1000 added for ids below 0x80 when LCDC bit 4 is clear, the color at bit 7 - column, through BGP; else white |
| Renderer.FirstSpriteWins | crates/04-services/kernel-core/src/ppu_stub.rs:275-341 | the lowest-numbered sprite that covers the pixel, is not transparent there and does not yield to the layers decides it |
| Renderer.NoSpriteShows | crates/04-services/kernel-core/src/ppu_stub.rs:275-341 | where none shows, window or background do |
| Renderer.TileRow | crates/04-services/kernel-core/src/ppu_stub.rs:196-202 | both addressing modes give a tile row inside video memory; where exactly is in PixelBytes.RowStartIs |
| PixelBytes.RowStartIs | crates/04-services/kernel-core/src/ppu_stub.rs:196-202 | with LCDC bit 4 set a tile row starts at 0x8000 + 16*id + 2*row; clear, at 0x9000 + 16*id + 2*row for ids below 0x80 and 0x8000 + 16*id + 2*row otherwise |
| Renderer.SpriteBytes | crates/04-services/kernel-core/src/ppu_stub.rs:299-310 | a sprite row's bytes lie inside video memory, 8 or 16 tall, flipped or not |
| FrameRenderer.DrawBackground | crates/04-services/kernel-core/src/ppu_stub.rs:174-218 | the background pass leaves color and shade of every pixel as described |
| FrameRenderer.DrawWindow | crates/04-services/kernel-core/src/ppu_stub.rs:220-273 | the window pass overrides exactly the pixels it covers |
| FrameRenderer.DrawSprites | crates/04-services/kernel-core/src/ppu_stub.rs:275-341 | drawing from the last sprite to the first leaves the first that shows on top |
| FrameRenderer.DrawSprite | crates/04-services/kernel-core/src/ppu_stub.rs:281-340 | one sprite drawn over the later ones |
| FrameRenderer.FillSolid | crates/04-services/kernel-core/src/ppu_stub.rs:509-516 | every whole pixel filled, the rest untouched |
| FrameRenderer.DecodePalette | crates/04-services/kernel-core/src/ppu_stub.rs:500-507 | the four shades of a palette register |
| Serial.ClosedForm | crates/04-services/kernel-core/src/bus.rs:266-313 | after n cycles of an internal transfer min(8, floor(n/512)) bits are out, SB is the byte with that many ones shifted in, and at 4096 cycles, not before, the byte is delivered once with the interrupt and the start bit cleared |
| Serial.AnySplit | crates/04-services/kernel-core/src/bus.rs:266-285 | calls of any sizes amount to one call of their sum, in any state of the link |
| Serial.StartBit | crates/04-services/kernel-core/src/bus.rs:236-264 | the start bit with the internal clock starts a transfer of SB |
| Serial.RetriggerIgnored | crates/04-services/kernel-core/src/bus.rs:248-255 | setting it again during a transfer changes only the choice of clock |
| Serial.StopBit | crates/04-services/kernel-core/src/bus.rs:241-246 | a control write with the start bit clear stops a transfer for good, with SB as shifted so far and no interrupt |
| Serial.ExternalStart | crates/04-services/kernel-core/src/bus.rs:248-263 | the start bit with the external clock loads SB, and nothing moves |
| Serial.ExternalWaits | crates/04-services/kernel-core/src/bus.rs:266-269 | under the external clock nothing moves |
| Serial.SerialLink.AdvanceSerial | crates/04-services/kernel-core/src/bus.rs:266-285 | the cycle loop in place |
| Serial.SerialLink.WriteSerialControl | crates/04-services/kernel-core/src/bus.rs:236-264 | the control write in place |
| Serial.SerialLink.ClockSerialBit | crates/04-services/kernel-core/src/bus.rs:287-296 | one bit in place |
| Serial.SerialLink.FinishTransfer | crates/04-services/kernel-core/src/bus.rs:302-313 | the end of a transfer in place |
| MemoryBus.DmaCopies | crates/04-services/kernel-core/src/mmu.rs:98-106 | OAM DMA copies 160 bytes of memory as it was, even from a source inside OAM |
| MemoryBus.EchoMirrors | crates/04-services/kernel-core/src/mmu.rs:86-91 | work RAM answers at two addresses, for reads and writes |
| MemoryBus.BankFor | crates/04-services/kernel-core/src/bus.rs:197-208 | the selected ROM bank exists and is never 0 when there is more than one |
| MemoryBus.WritesKeepFlagsHigh | crates/04-services/kernel-core/src/bus.rs:516-521 | no CPU write anywhere clears IF's upper three bits |
| MemoryBus.CallsKeepFlagsHigh | crates/04-services/kernel-core/src/bus.rs:302-313 | nor does any call of a peripheral |
| MemoryMap.CellsKeep | crates/04-services/kernel-core/src/mmu.rs:5-160 | a write to video, work, object or high memory or IE is read back at every address of its cell, and no other address of the whole map reads differently for it |
| MemoryMap.WritesIgnored | crates/04-services/kernel-core/src/mmu.rs:66-92 | cartridge, external memory and the gap after object memory ignore writes; the latter two read 0xFF |
| MemoryMap.BankWindow | crates/04-services/kernel-core/src/mmu.rs:15-20 | after a bank write the upper window reads rom[bank*0x4000 + k], the bank being the write's low five bits around the banks there are, with 0 standing for 1, and the lower window reads as before |
| MemoryMap.BootUntilWritten | crates/04-services/kernel-core/src/mmu.rs:8-14 | the boot program covers the start of the cartridge while it is mapped |
| MemoryMap.BootGoes | crates/04-services/kernel-core/src/mmu.rs:107-112 | only an odd byte written to 0xFF50 unmaps it, and nothing maps it back |
| MemoryMap.RegisterShows | crates/04-services/kernel-core/src/mmu.rs:95-149 | what every register but joypad, DMA and boot reads right after a write, unused bits included |
| MemoryMap.JoypadShows | crates/04-services/kernel-core/src/mmu.rs:31-41 | the joypad register: selection bits, and a key as one if it is pressed in a selected half |
| MemoryMap.PowerOnState | crates/04-services/kernel-core/src/bus.rs:81-112 | a new bus: registers zero but IF and the speed register, nothing latched, no transfer, no key pressed, boot program mapped if there is one |
| MemoryMap.PowerOn | crates/04-services/kernel-core/src/bus.rs:81-112 | it reads zero in all memory and bank 1 in the upper window |
| MemoryMap.AnswersAreReads | crates/04-services/kernel-core/src/bus.rs:423-527 | what timers and picture unit are answered for a register is what the processor would read |
| MemoryMap.PutsAreRead | crates/04-services/kernel-core/src/bus.rs:434-521 | and what they put there is what it then reads, nothing else changing |
| MemoryMap.LinkOnBus | crates/04-services/kernel-core/src/bus.rs:287-313 | the serial link's registers are the bus's SB, SC and IF and no others |
| CoreLoop.CyclesConserved | crates/04-services/kernel-core/src/core.rs:282-422 | for every opcode, prefixed opcode and branch outcome, on every backend: the cycles advance by exactly the declared cost, a multiple of 4 in 4..24, and the credit starts over |
| Instructions.OpcodesPriced | crates/04-services/kernel-core/src/instr.rs:60-1021 | on every path of every opcode the access fees and the opcode fetch stay within the declared cost |
| Instructions.PrefixedPriced | crates/04-services/kernel-core/src/instr.rs:911-936 | the same for every CB opcode, prefix included |
| Core.RunWithinCost | crates/04-services/kernel-core/src/core.rs:121-172 | along any path of any priced body, cycles and credit grow together and within the declared cost |
| CoreLoop.BudgetRespected | crates/04-services/kernel-core/src/core.rs:220-255 | a step by a budget ends, reports what it consumed, overshoots by at most 23 cycles, and stops short only at a completed frame |
| CycleBooks.PeripheralsFed | crates/04-services/kernel-core/src/core.rs:121-134 | for any peripherals: wrapping them in a count of the cycles they are handed changes nothing else in a step, the count ends at exactly the cycles the step reports, and no span is longer than 24 |
| CycleBooks.ExecuteCounted | crates/04-services/kernel-core/src/core.rs:282-422 | the same for one instruction: the wrapped run is the plain run, and the count grows as the cycles do |
| CycleBooks.StepKeeps | crates/04-services/kernel-core/src/core.rs:220-255 | whatever every span of at most 24 cycles keeps of the peripherals, a whole step by any budget keeps |
| Peripherals.SpanStepsAll | crates/04-services/kernel-core/src/core.rs:121-134 | a span of an instruction's length or less steps timers, picture unit and serial link, in this order, by exactly that span, each on the bus the one before left, and leaves them ready for the next |
| Peripherals.EmulatorFed | crates/04-services/kernel-core/src/core.rs:220-255 | so through a whole step by any budget: they are ready at its end, the spans they were stepped by add up to the cycles it reports, and none is longer than 24 |
| Peripherals.SequencedRuns | crates/04-services/kernel-core/src/core.rs:128-132 | two clients stepped one after the other are one client, making the calls of the first and then those of the second |
| CoreLoop.DispatchPanicsIff | crates/04-services/kernel-core/src/core.rs:492-512 | interrupt dispatch overruns its vector table exactly when interrupts are on and only bits above the five lines are pending |
| Lockstep.DispatchTotalIff | crates/04-services/kernel-core/src/core.rs:496-512 | given IF's upper bits set: exactly when IE has an unused bit set and none of the five lines is both enabled and raised |
| CoreLoop.EiShadow | crates/04-services/kernel-core/src/core.rs:412-415 | the instruction after EI cannot keep the master enable off |
| CoreLoop.EnterCosts | crates/04-services/kernel-core/src/core.rs:498-512 | taking an interrupt costs 20 cycles and its stack writes nothing more |
| ManualAgrees.EveryOpcode | crates/04-services/kernel-core/src/instr.rs:60-1021 | for every opcode but the prefix and every state, the core's run of its micro-operations has exactly the effect of an independent manual: registers, flags as carries of sums, memory writes in order, peripherals between accesses, program counter, stack, and cost |
| ManualAgrees.EveryPrefixed | crates/04-services/kernel-core/src/instr.rs:796-936 | the same for every prefixed opcode |
| ManualLoop.WholeInstruction | crates/04-services/kernel-core/src/core.rs:282-422 | a whole instruction, with opcode fetch, prefix, HALT bug, delayed interrupt enable and remaining time, is the manual's |
| ManualLoop.EnterShown | crates/04-services/kernel-core/src/core.rs:498-521 | taking interrupt b clears bit b of IF alone, turns interrupts off, pushes PC high byte first, and enters 0x40 + 8b with 20 cycles spent |
| ManualLoop.InterruptsShown | crates/04-services/kernel-core/src/core.rs:492-521 | which interrupt is taken (the lowest both enabled and flagged), when only a HALT ends, and when dispatch has no vector |
| ManualLoop.EveryTurn | crates/04-services/kernel-core/src/core.rs:220-255 | a turn of the stepping loop, interrupt, sleep or instruction, is the manual's |
| ManualLoop.EveryStep | crates/04-services/kernel-core/src/core.rs:220-255 | a step by any budget is so many of the manual's turns: it goes on exactly while cycles are left and no frame has completed |
| Branches.JumpsRelative | crates/04-services/kernel-core/src/instr.rs:574-584 | JR on 0x20, 0x28, 0x30, 0x38 is taken exactly on Z clear, Z set, C clear, C set: its cost and its program counter in numbers |
| Branches.Returns | crates/04-services/kernel-core/src/instr.rs:958-969 | RET on 0xC0, 0xC8, 0xD0, 0xD8 likewise: cost, program counter off the stack, stack pointer |
| Branches.JumpsFar | crates/04-services/kernel-core/src/instr.rs:971-982 | JP on 0xC2, 0xCA, 0xD2, 0xDA likewise: cost and program counter |
| Branches.Calls | crates/04-services/kernel-core/src/instr.rs:984-997 | CALL on 0xC4, 0xCC, 0xD4, 0xDC likewise: cost, program counter, stack pointer and the two bytes on the stack |
| CoreDevice.CoreUnit.StepCycles | crates/04-services/kernel-core/src/core.rs:220-255 | the budget loop in place, with the bounds above |
| CoreDevice.CoreUnit.ExecuteInstruction | crates/04-services/kernel-core/src/core.rs:282-422 | one instruction in place, returning the cycles it took |
| CoreDevice.CoreUnit.Service | crates/04-services/kernel-core/src/core.rs:492-521 | interrupt service in place |
| CoreDevice.CoreUnit.ConsumeCycles | crates/04-services/kernel-core/src/core.rs:121-134 | the peripherals' calls in place |
| CoreDevice.CoreUnit.FetchByte | crates/04-services/kernel-core/src/cpu.rs:125-135 | the fetch in place, halt bug included |
| CoreDevice.CoreUnit.RunBody | crates/04-services/kernel-core/src/instr.rs:60-1021 | a body's operations in place, in order |
| Behaviour.RegisterMoves | crates/04-services/kernel-core/src/instr.rs:312-318 | LD between registers copies the one into the other and changes nothing else |
| Behaviour.RelativeJump | crates/04-services/kernel-core/src/instr.rs:574-584 | JR cc fetches its offset either way; taken, by the flag its opcode names, it moves on by the signed offset for 12 cycles, otherwise 8 |
| Behaviour.ConditionalCost | crates/04-services/kernel-core/src/instr.rs:958-996 | JR, RET, JP and CALL on a condition cost what the zero or the carry flag before them says, opcode by opcode |
| Stack.PopTakesBackPush | crates/04-services/kernel-core/src/cpu.rs:145-164 | in work RAM a pop brings back the pushed word and the stack pointer and takes no time of its own |
| ByteRuns.RotateAndBack | crates/04-services/kernel-core/src/instr.rs:796-877 | RLC and RRC, RL and RR, SWAP and itself, run on any register: the second gives the register back, and for RL and RR the carry too; only scratch byte and flags are left changed |
| ByteRuns.ShiftLosesCarry | crates/04-services/kernel-core/src/instr.rs:826-877 | SLA, SRA and SRL of any register lose exactly the bit they put in the carry, SRA keeping the sign, and Z tells of the result |
| ByteRuns.AccumulatorShortcut | crates/04-services/kernel-core/src/instr.rs:604-658 | RLCA, RRCA, RLA and RRA are RLC, RRC, RL and RR of the accumulator in four cycles instead of eight, except that they always clear Z |
| ByteRuns.BitShows | crates/04-services/kernel-core/src/instr.rs:879-907 | SET and RES of any bit of any register show in a later BIT of that bit and of no other, and leave the carry |
| ByteRuns.StepAndBack | crates/04-services/kernel-core/src/core.rs:424-450 | INC and DEC of any register undo each other in either order, leave the carry, and Z and H tell of the byte that is back |
| ByteRuns.AddAndBack | crates/04-services/kernel-core/src/exec.rs:237-262 | ADD A,r and SUB r give the accumulator back, with the carry of the addition as borrow |
| ByteRuns.FlagsSurviveStack | crates/04-services/kernel-core/src/instr.rs:768-794 | PUSH AF and, whatever the registers hold by then, POP AF of the same stack bytes bring back accumulator and all four flags |
| Decimal.AddFlagsMeanCarries | crates/04-services/kernel-core/src/exec.rs:237-248 | the addition masks are the carries out of bits 3 and 7 |
| Decimal.SubFlagsMeanBorrows | crates/04-services/kernel-core/src/exec.rs:251-262 | the subtraction masks are the borrows |
| Decimal.SignedOffsetFlags | crates/04-services/kernel-core/src/core.rs:482-490 | adding a signed offset to a word, on any backend: the sum wraps at 16 bits, Z and N are cleared, and the flags set by the XOR masks are the carries out of bits 3 and 7 |
| Decimal.XorMasksAreCarries | crates/04-services/kernel-core/src/core.rs:482-490 | the 16-bit XOR of two words and their sum has bit 4 or bit 8 set exactly when the bits below carry |
| Decimal.DaaAdds | crates/04-services/kernel-core/src/instr.rs:662-688 | after adding decimal bytes, DAA leaves the decimal digits of the sum and its carry |
| Decimal.DaaSum | crates/04-services/kernel-core/src/instr.rs:662-688 | read as numbers: the decimal sum, its hundred in the carry |
| Decimal.DaaSubtracts | crates/04-services/kernel-core/src/instr.rs:662-688 | after subtracting decimal bytes, DAA leaves the decimal digits of the difference and its borrow |
| Decimal.DaaDifference | crates/04-services/kernel-core/src/instr.rs:662-688 | read as numbers: the decimal difference, a hundred borrowed if the carry says so |
| ByteRuns.DecimalArithmetic | crates/04-services/kernel-core/src/instr.rs:662-688 | ADD A,r or SUB r on decimal bytes and then DAA, run as instructions, leave the decimal sum or difference in the accumulator, the hundred in the carry |
| Lockstep.LanesSimulate | crates/04-services/kernel-core/src/core.rs:220-422 | started with equal lanes, after any steps of any budgets and with any peripherals, the SIMD core panics exactly when the scalar core does and otherwise every lane shows the scalar core's registers, flags, memory and time |
| Lockstep.LanesFollowScalarRom | crates/04-services/kernel-core/src/bus_simd.rs:24-33 | a SIMD core constructed from a ROM shows, in every lane and for ever, the scalar core constructed from it |
| Lockstep.PowerOnLifts | crates/04-services/kernel-core/src/cpu.rs:45-67 | both cores are constructed with the same registers in every lane |
| Lockstep.RunsSim | crates/04-services/kernel-core/src/core.rs:220-255 | lifting to lanes commutes with any number of budgeted steps |
| Lockstep.ExecuteSim | crates/04-services/kernel-core/src/core.rs:282-422 | and with one instruction |
| Lockstep.RunSim | crates/04-services/kernel-core/src/instr.rs:60-1021 | and with any instruction body at all |
| Lockstep.ServiceSim | crates/04-services/kernel-core/src/core.rs:492-521 | and with interrupt service |
| Lockstep.TurnSim | crates/04-services/kernel-core/src/bus_simd.rs:100-318 | and with any sequence of peripheral calls, each chosen from the peripherals' state and the answers so far |
| Lanes.ServeSim | crates/04-services/kernel-core/src/bus_simd.rs:128-318 | each call on equal lanes answers as the scalar bus does and leaves the lanes equal, latches merged over lanes included |
| Lanes.ReadSim | crates/04-services/kernel-core/src/bus_simd.rs:105-112 | a read per lane |
| Lanes.WriteSim | crates/04-services/kernel-core/src/bus_simd.rs:115-126 | a write per lane |
| Lanes.AddSim | crates/04-services/kernel-core/src/exec_simd.rs:134-148 | lane-wise addition with flags taken from lane 0 and the zero flag from all lanes |
| Lanes.SubSim | crates/04-services/kernel-core/src/exec_simd.rs:151-166 | lane-wise subtraction likewise |
| Lanes.CombineSim | crates/04-services/kernel-core/src/exec_simd.rs:107-109 | joining bytes lane by lane |
| Lanes.SplitSim | crates/04-services/kernel-core/src/exec_simd.rs:112-116 | splitting words lane by lane |
| Lanes.LogicSim | crates/04-services/kernel-core/src/exec_simd.rs:119-131 | bitwise operations lane by lane |
| Lanes.ConvertSim | crates/04-services/kernel-core/src/exec_simd.rs:57-104 | conversions to and from native values and masks |
| Lanes.HalvesFromWord | crates/04-services/kernel-core/src/exec.rs:212-219 | joining two bytes and splitting the word gives them back |
| LaneWise.SumsPerLane | crates/04-services/kernel-core/src/exec_simd.rs:134-166 | on any lanes, equal or not: sums and differences lane by lane, H and C from lane 0, Z exactly when every lane is zero |
| LaneWise.LogicPerLane | crates/04-services/kernel-core/src/exec_simd.rs:119-131 | logic lane by lane |
| LaneWise.BytesPerLane | crates/04-services/kernel-core/src/exec_simd.rs:107-116 | joining and splitting lane by lane |
| LaneWise.MemoryPerLane | crates/04-services/kernel-core/src/bus_simd.rs:105-126 | every lane reads and writes its own memory at its own address |
| LaneWise.CallsPerLane | crates/04-services/kernel-core/src/bus_simd.rs:128-318 | a peripheral's call reaches every lane and, latches apart, is answered by lane 0 |
| LaneWise.ResetOfAnyLane | crates/04-services/kernel-core/src/bus_simd.rs:177-183 | a divider reset is reported exactly if some lane saw one |
| LaneWise.TimaLatch | crates/04-services/kernel-core/src/bus_simd.rs:186-199 | of several lanes' latched TIMA writes the first lane's is taken, none if there is none |
| LaneWise.TmaLatch | crates/04-services/kernel-core/src/bus_simd.rs:202-215 | TMA writes likewise |
| LaneWise.TacLatch | crates/04-services/kernel-core/src/bus_simd.rs:218-231 | TAC writes likewise |

## Left out

- Memory ordering: the interleavings take atomic loads and stores as sequentially consistent steps; weaker orderings are not modelled.
- RingConcurrency: the consumer's reading of a record's bytes is one step; since no step changes those bytes meanwhile, finer steps would read the same.
- Grants dropped without a commit only notify waiters; parking and waking are no-ops here.
- Regions, raw pointers and WebAssembly layouts: a region is an array or a sequence of bytes.
- Record codecs: a codec is any pair of functions, and where delivery of commands is claimed it is assumed to round-trip; the shipped codecs lose some fields.
- Endpoint.DeliveredInOrder: about ring ports; what a mailbox delivers is in the mailbox theorems. An endpoint's ports are taken to sit behind the classes they serve, as the fabric builds them; the class errors are in the port methods.
- Endpoint.WorkerEndpoint.DrainPorts: the ports are values held by the endpoint rather than shared handles, and the callback is the returned sequence.
- Mailbox.TakeRefines: sends and takes are whole calls, as they are under the port's lock.
- Scheduler: the speed multiplier is a real number and the cycle budget rounds half up; single-precision rounding is not modelled. Reports enter only as arrivals of the intents they defer. Front inserts by callers other than the retry rule are excluded from runs.
- FrameProtocol.ScenarioEngine.Poll: burst ids wrap as in a release build; a debug build stops when the product of burst number and size passes 32 bits. The interleavings are about at most 2^32 frames.
- FrameProtocol: retry loops appear as repeated steps of the engine; statistics counters are not modelled.
- Single-instruction stepping for the inspector (`crates/04-services/kernel-core/src/core.rs:258`): it is one turn of the loop with four cycles to sleep.
- CoreLoop: cycle counts are unbounded, where the source wraps them at 32 bits; differences within a step are the same.
- Lockstep.LanesSimulate: the peripherals are any client that issues bus calls from its own state and the answers so far; the core's own, `Peripherals.Emulator`, are one. Frames are rendered between steps, not by a bus call.
- Core: flags an instruction leaves alone are written back as lane 0 shows them, and an intermediate value goes through scratch registers; on equal lanes, the only states the theorems are about, neither can be seen.
- Renderer: for frames wider than 32767 pixels the window column wraps as in a release build; a debug build would stop.
- SlotPool.ProduceFrame: the renderer is a function from a buffer size to bytes; the overlay it may draw first is not modelled.
- Boot ROM overlay beyond its read path, joypad input setting, save states, reset paths and ROM loading.
- Environment variables that trace or shift the divider's initial phase.
- GPU, audio and file services, health counters, the command-line inspector, the web harness and test fixtures: they would add easy members only.
