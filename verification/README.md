# Verified models of the debug-bridge toolkit

This project models eight parts of the repository and proves what they are for:

* **The lock-free queue** (`verilator_utils/readerwriterqueue.h`) as a transition system of one producer and one
  consumer, one atomic load or store a step, over a growing ring of blocks with stale shadow indices; and the blocking
  queue on top of it, with the semaphore of `verilator_utils/atomicops.h`. Proved for every interleaving: the queue is
  FIFO, free of data races and wait-free, a failed call really met an empty or full queue, memory is taken only for a
  full one, no wakeup is lost, and a wait without a timeout always comes back with an element.
* **The JTAG PHY** (`arm_debug/rtl/jtag_phy.sv`), clock by clock, against the TAP controller of clause 6 of IEEE Std
  1149.1-2013. Proved for every stream of commands: target and PHY stay in lockstep, and a length-0 command sends
  exactly its bits. For every stream in which reads find room for what they capture, and every arrival timing of its
  packets: the target sees one capture, exactly the packets' bits and one update a command, and every command ends.
* **The AHB to ADIv5 debug bridge** (`ahb3lite_debug_bridge/rtl/ahb3lite_debug_bridge.sv`), clock by clock, against a
  MEM-AP (chapter C2 of ARM IHI 0031E). Proved for every run: the cached SELECT, CSW and TAR stay true, each AHB
  transfer becomes exactly one access of the target's memory at its own address and size. However it is used and
  answered, the three-bit response counters never alias, errors are signalled and every transfer ends.
* **The remote AHB pair** (`ahb3lite_host_slave`, `ahb3lite_host_master`): bus transfers as packets through two FIFOs.
  Proved for every pattern of stalls: the far bus sees exactly the near bus's transfers.
* **The UART** (`uart_fifo/rtl`): transmitter, receiver and FIFO handshake. Proved for every divisor of four or more
  and every behaviour of the FIFOs: with the line looped back, the bytes taken are the bytes announced, and each on its
  own clock.
* **The simulator's links** (`verilator_utils/UARTServer.cpp`, `GPIOServer.cpp`, `GPIOClient.cpp`): the UART round trip
  for every period and delay, and the convergence of both ends' signals.
* **The packet demultiplexer** (`fifo_arb_rx/rtl/fifo_arb_rx.sv`): for every stream and stall pattern each packet goes,
  whole and in order, where its header says.
* **The CSR generator** (`ahb3lite_csr/sw`): the register packer, the C struct and the host accessors it emits. Proved
  for every list of fields: nothing overlaps, the compiler lays the struct out as the packer did, and the accessors
  obey the get and set laws.

A hardware block is a datatype of registers, a function that gives every register's next value, and a class whose
methods assign the registers in the order of the source and are proved to compute that function; a system adds its
FIFOs, its surroundings and the histories the properties speak of. What holds of every run is an invariant kept by each
step, carried to all runs by induction; the register packer and the power-of-two round-up are proved by induction over
their inputs. The modules build on each other in the order Wrappers, QueueBlocks, SpscQueue, SpscInvariant,
SpscPreserve, SpscTheorems, CeilToPow2, SpscGrowth, ReaderWriterQueue, BlockingQueue, BlockingWaits; Tap, JtagPhy,
JtagSystem, JtagPreserve, JtagTheorems, JtagLockstep, JtagSequences, JtagLimits; Adiv5, DebugBridge, BridgeSystem,
BridgeKnowledge, BridgeFlow, BridgePreserve, BridgeTheorems, BridgeWords, BridgeLimits, BridgeReads; HostPacket,
HostSlave, HostMaster, HostLink, FifoArbRx; UartLine, UartTx, UartRx, UartFifo, UartServer; GpioLink; CsrPack,
CsrLayout.

Where the code falls short of what it is for, lemmas give the exact condition and what happens instead:
`OversizedBreaks` and the queue's constructor (sizes and block sizes whose arithmetic leaves a `size_t`);
`ServedLengths`, `WriteEnds` and `OneBitNeverEnds` (JTAG write lengths); `PausesInTime` and `RescansWhenFull` (reads
whose last word finds the response FIFO full); `TarCountsWrites`, `NextAccess` and
`SecondReadRun` (bridge reads in sequential mode); `MarkerIsAnAddress` and `FirstTransfer` (the bridge's mark for no
cached TAR, which matters to the first transfer of a run only).

## Model

| member | source | states |
|---|---|---|
| QueueBlocks.FlatConcat | verilator_utils/readerwriterqueue.h:681-711 | the live elements read round a run of blocks are those of its two parts in order |
| SpscInvariant.InvReady | verilator_utils/readerwriterqueue.h:294-354 | in every state of the invariant each thread's next step stays inside its blocks and meets the source's asserts |
| SpscPreserve.ProduceStoreTail | verilator_utils/readerwriterqueue.h:543-554 | publishing the new tail appends the element and keeps the invariant, whatever the consumer is doing |
| SpscPreserve.ProduceStoreNextTail | verilator_utils/readerwriterqueue.h:567-587 | filling the free block ahead of a full tail block keeps the invariant |
| SpscPreserve.ProduceLink | verilator_utils/readerwriterqueue.h:607-608 | linking a newly made block into the circle keeps the invariant, with the consumer possibly reading `next` |
| SpscPreserve.ProduceStoreTailBlock | verilator_utils/readerwriterqueue.h:586-617 | publishing the tail block makes its element the last of the queue |
| SpscPreserve.ConsumeStoreFront | verilator_utils/readerwriterqueue.h:307-310 | publishing the new front removes exactly the oldest element |
| SpscPreserve.ConsumeStoreFrontBlock | verilator_utils/readerwriterqueue.h:326-342 | leaving an emptied front block for the next one loses nothing |
| SpscTheorems.StepPreserves | verilator_utils/readerwriterqueue.h:271-630 | any call or atomic step of either thread keeps the invariant |
| SpscTheorems.FifoInEveryRun | verilator_utils/readerwriterqueue.h:271-362 | in every interleaving what was removed is a prefix of what was added, and the ring read from front to tail is the rest |
| SpscTheorems.AlwaysReady | verilator_utils/readerwriterqueue.h:337-574 | in every interleaving no step leaves its blocks and the asserts at 337, 402, 453, 574 and 604 hold |
| SpscTheorems.RaceFree | verilator_utils/readerwriterqueue.h:303-354 | the producer writes only raw slots and the consumer reads only the slot of the oldest element, never the same one |
| SpscTheorems.ProducerWaitFree | verilator_utils/readerwriterqueue.h:521-630 | an enqueue returns after at most twelve of its own steps, whatever the consumer does |
| SpscTheorems.ConsumerWaitFree | verilator_utils/readerwriterqueue.h:271-476 | try_dequeue, peek and pop return after at most thirteen of their own steps |
| SpscTheorems.EnqueueReturns | verilator_utils/readerwriterqueue.h:521-630 | a call that returned true added its element once, last; one that returned false added nothing |
| SpscTheorems.TryEnqueueFails | verilator_utils/readerwriterqueue.h:96-141 | try_enqueue fails only if at an instant of the call the queue held at least the constructor's `size` |
| SpscTheorems.EnqueueFails | verilator_utils/readerwriterqueue.h:589-596 | enqueue fails only if memory allocation does |
| SpscTheorems.DequeueFails | verilator_utils/readerwriterqueue.h:312-359 | try_dequeue, pop and peek find nothing only if the queue was empty at an instant of the call |
| SpscTheorems.DequeueReturns | verilator_utils/readerwriterqueue.h:298-361 | a successful try_dequeue or pop removes the oldest element, a successful peek returns it and removes nothing |
| SpscGrowth.GrowsOnlyWhenFull | verilator_utils/readerwriterqueue.h:589-597 | a block is added only inside enqueue, never try_enqueue, and only if at an instant of the call the queue held at least the constructor's `size` |
| SpscGrowth.BlocksDouble | verilator_utils/readerwriterqueue.h:591-591 | new blocks double in size up to MAX_BLOCK_SIZE, and then all have that size |
| CeilToPow2.CeilToPow2 | verilator_utils/readerwriterqueue.h:640-652 | the result is the least power of two at or above the argument for 1 to 2^63, and 0 for any other size_t |
| CeilToPow2.MaskedIncrement | verilator_utils/readerwriterqueue.h:542-542 | adding one and masking moves to the next slot and wraps at the end of a block |
| ReaderWriterQueueObject.EnoughBlocks | verilator_utils/readerwriterqueue.h:104-109 | the constructor's number of blocks leaves room for `size` elements in all blocks but one |
| ReaderWriterQueueObject.PowerSizedKept | verilator_utils/readerwriterqueue.h:591-597 | every block has a power-of-two size for ever, as masking needs |
| ReaderWriterQueueObject.ReaderWriterQueue.constructor | verilator_utils/readerwriterqueue.h:85-151 | for any size and MAX_BLOCK_SIZE the asserts allow the queue starts empty with room for `size` elements; a size past 2^63 - 1 leaves a block without slots, and three elements or more with a MAX_BLOCK_SIZE of 2^63 leave no block |
| ReaderWriterQueueObject.ReaderWriterQueue.ProducerStep | verilator_utils/readerwriterqueue.h:538-617 | the producer's step, in place, is the transition system's |
| ReaderWriterQueueObject.ReaderWriterQueue.ConsumerStep | verilator_utils/readerwriterqueue.h:294-467 | the consumer's step, in place, is the transition system's |
| ReaderWriterQueueObject.ReaderWriterQueue.InnerEnqueue | verilator_utils/readerwriterqueue.h:525-630 | with the consumer at rest an enqueue appends its element, or fails for lack of memory or of room |
| ReaderWriterQueueObject.ReaderWriterQueue.Dequeue | verilator_utils/readerwriterqueue.h:271-476 | with the producer at rest try_dequeue, pop and peek succeed exactly when the queue is not empty |
| ReaderWriterQueueObject.OversizedBreaks | verilator_utils/readerwriterqueue.h:102-102 | past the largest serviceable size the first enqueue writes outside its block |
| BlockingQueue.BPreserves | verilator_utils/readerwriterqueue.h:770-903 | every step of the two threads, the inner queue and the semaphore keeps the combined invariant |
| BlockingQueue.SemaphoreInEveryRun | verilator_utils/atomicops.h:585-660 | m_count is signals less grants less a pending wait and at least -1, posts cover exactly the waiters owed one, and no assert(success) fails |
| BlockingQueue.NoLostWakeup | verilator_utils/atomicops.h:601-622 | a consumer is stuck in the kernel exactly when every signalled element is taken or the producer's next step posts |
| BlockingQueue.BlockingReturns | verilator_utils/readerwriterqueue.h:820-903 | a granted call returns the oldest element and an empty-handed one saw every signalled element taken |
| BlockingWaits.WaitReturnsElement | verilator_utils/readerwriterqueue.h:836-843 | in every run a wait_dequeue that comes back has an element |
| BlockingWaits.NeverStuck | verilator_utils/atomicops.h:604-607 | in every state of every run any other call can take its next step, a timed wait in the kernel by timing out |
| BlockingWaits.GivesUpAfterTimeout | verilator_utils/atomicops.h:606-621 | wait_dequeue_timed comes back empty-handed only after the kernel's timed wait ran out, try_dequeue and pop only when m_count showed no element |
| BlockingWaits.SpinsBeforeParking | verilator_utils/atomicops.h:587-604 | a waiting call goes to the kernel after exactly 10,001 loads of m_count that showed no element |
| BlockingWaits.TimedWaitReturns | verilator_utils/atomicops.h:590-622 | a timed wait past its timeout takes at most seventeen more steps of its own, unless its try_wait comes while the producer is between fetch_add and post |
| BlockingWaits.UndoTryGrants | verilator_utils/atomicops.h:619-620 | the undo loop's try_wait fails exactly while the producer is between fetch_add and post |
| BlockingQueue.SizeApproxAtRest | verilator_utils/readerwriterqueue.h:905-910 | with no call in progress size_approx is the number of elements held |
| JtagPhy.LfsrIsShiftRegister | arm_debug/rtl/jtag_phy.sv:80-109 | the state codes move as the three-bit shift register says, with state[1] as TMS |
| JtagPhy.FsmLockstep | arm_debug/rtl/jtag_phy.sv:416-454 | for any target state asked for, the PHY's state and the target's TAP make the same move |
| JtagPhy.Phy.constructor | arm_debug/rtl/jtag_phy.sv:224-237 | the registers out of reset |
| JtagPhy.Phy.Posedge | arm_debug/rtl/jtag_phy.sv:238-456 | the clocked block, assignment by assignment, computes the next value of every register |
| JtagPhy.Phy.Decides | arm_debug/rtl/jtag_phy.sv:242-318 | pausing, asking for data and finishing, of which the last assignment wins |
| JtagPhy.Phy.Receives | arm_debug/rtl/jtag_phy.sv:322-360 | a packet moves from the FIFO to the operating registers, overriding what the shifter did |
| JtagPhy.Phy.Walk | arm_debug/rtl/jtag_phy.sv:365-455 | a length-0 sequence or the TAP state machine drives TMS |
| JtagPreserve.ResetResynchronises | arm_debug/rtl/jtag_phy.sv:370-384 | a RESET command resets the target from any TAP state and leaves it in Run-Test/Idle |
| JtagPreserve.SequenceEndsIdle | arm_debug/rtl/jtag_phy.sv:370-396 | every RESET, SWITCH and FLUSH ends with the target in Run-Test/Idle and TMS low |
| JtagPreserve.WalkStates | arm_debug/rtl/jtag_phy.sv:370-396 | no length-0 command captures, shifts or updates anything on its way |
| JtagPreserve.NeedsDataWhen | arm_debug/rtl/jtag_phy.sv:277-281 | the PHY asks for a packet exactly three bits before the one in hand runs out, while there is more |
| JtagPreserve.DoutShifts | arm_debug/rtl/jtag_phy.sv:297-304 | the shift register always holds the next bits to send, zero- or auto-extended |
| JtagPreserve.FetchShift | arm_debug/rtl/jtag_phy.sv:289-337 | the prefetched packet lands on the exact bit, with no pause |
| JtagPreserve.StarvedShift | arm_debug/rtl/jtag_phy.sv:284-287 | starved, the PHY leaves for PAUSE-xR without losing or repeating a bit |
| JtagPreserve.LoadPreserves | arm_debug/rtl/jtag_phy.sv:247-262 | the packet that arrives in PAUSE-xR is the next to be shifted |
| JtagPreserve.FinishSettles | arm_debug/rtl/jtag_phy.sv:311-318 | two bits early is when to leave for the last bit to be shifted on the way out |
| JtagTheorems.CyclePreserves | arm_debug/rtl/jtag_phy.sv:223-456 | every clock keeps the invariant of PHY, FIFO and target |
| JtagTheorems.ExactlyTheBits | arm_debug/rtl/jtag_phy.sv:243-360 | for writes, reads and length-0 commands and every arrival timing the target has seen a prefix of one capture, the packets' bits, one more for a read, and one update a command, and all of it once the PHY is done |
| JtagLockstep.LockstepInEveryRun | arm_debug/rtl/jtag_phy.sv:127-455 | for any commands, reads included, in any packets and with any response FIFO: outside length-0 sequences the target is in the PHY's state; while TCK is gated it waits in Run-Test/Idle or Update with TMS low |
| JtagLockstep.SequencesEndIdle | arm_debug/rtl/jtag_phy.sv:365-396 | in the same runs every RESET, SWITCH and FLUSH ends with the target in Run-Test/Idle, TMS low and TCK gated |
| JtagSequences.SequenceSent | arm_debug/rtl/jtag_phy.sv:365-396 | in every run the TMS on TCK's edges is, literally: for SWITCH ten zeros, sixty ones, the sixteen bits of 0xE73C low bit first, nine ones and a zero; for RESET ten zeros, eight ones and a zero; for FLUSH nine zeros; and then TCK stops |
| JtagSequences.SelectIs | arm_debug/rtl/jtag_phy.sv:384-389 | the sixteen bits are those of 0xE73C |
| JtagTheorems.EveryCommandEnds | arm_debug/rtl/jtag_phy.sv:223-456 | once every packet has arrived everything is sent within a fixed number of clocks a packet |
| JtagLimits.ServedLengths | arm_debug/rtl/jtag_phy.sv:277-281 | whatever the host's packets hold the target sees one capture, exactly the bits asked for and one update, if and only if the length is at most 64, or 0, 62 or 63 over a multiple of 64 |
| JtagLimits.WriteEnds | arm_debug/rtl/jtag_phy.sv:277-318 | in every run, once the host has sent all packets of a write and time has passed, the target has seen exactly the write asked for if and only if the length is served |
| JtagLimits.LeftoverIsACommand | arm_debug/rtl/jtag_phy.sv:330-360 | in every run of an unserved length, at every instant, the target has seen no more than what the packets taken make of the write, or all of that and another capture |
| JtagLimits.WriteAsTaken | arm_debug/rtl/jtag_phy.sv:277-318 | as long as the packet left over has not arrived the PHY ends the write without it, with the bits asked for if and only if that packet holds zeros only or there is none |
| JtagLimits.ReadShiftsOneMore | arm_debug/rtl/jtag_phy.sv:330-336 | in every run with room in the response FIFO a read of n bits shifts n + 1, the last one zero if the packet ends |
| JtagLimits.PausesInTime | arm_debug/rtl/jtag_phy.sv:242-275 | a read whose last full word, 61 bits of it captured, finds the response FIFO full is in PAUSE-xR four clocks later if and only if more than four bits are left to send |
| JtagLimits.RescansWhenFull | arm_debug/rtl/jtag_phy.sv:242-318 | with exactly four bits left, as for a read of 64 bits, the PHY goes through Update to Capture-DR with nothing in hand |
| JtagLimits.OneBitNeverEnds | arm_debug/rtl/jtag_phy.sv:311-318 | in every run that begins with a write of one bit the PHY reaches SHIFT-xR and stays there, never done, and the target is never told to update |
| Adiv5.SelRoundTrip | arm_debug/rtl/adiv5_pkg.sv:104-109 | SELECT's fields survive packing into a word |
| Adiv5.CswRoundTrip | arm_debug/rtl/adiv5_pkg.sv:89-102 | CSW's fields survive packing into a word |
| DebugBridge.Bridge.constructor | ahb3lite_debug_bridge/rtl/ahb3lite_debug_bridge.sv:424-449 | the registers out of reset |
| DebugBridge.Bridge.Posedge | ahb3lite_debug_bridge/rtl/ahb3lite_debug_bridge.sv:258-976 | the clocked block, assignment by assignment, computes the next value of every register |
| DebugBridge.Bridge.Sending | ahb3lite_debug_bridge/rtl/ahb3lite_debug_bridge.sv:706-890 | a sending state's command and what it makes of the cache |
| DebugBridge.Bridge.Idling | ahb3lite_debug_bridge/rtl/ahb3lite_debug_bridge.sv:451-525 | the decision tree of STATE_IDLE |
| DebugBridge.Bridge.Responding | ahb3lite_debug_bridge/rtl/ahb3lite_debug_bridge.sv:893-929 | the reply waits for every response |
| BridgeKnowledge.Decides | ahb3lite_debug_bridge/rtl/ahb3lite_debug_bridge.sv:479-521 | the state the decision tree picks can serve the access with what is cached |
| BridgeKnowledge.SendsSelect0 | ahb3lite_debug_bridge/rtl/ahb3lite_debug_bridge.sv:814-832 | selecting bank 0 keeps the cache true and leads on to a state whose premises hold |
| BridgeKnowledge.SendsCsw | ahb3lite_debug_bridge/rtl/ahb3lite_debug_bridge.sv:854-870 | setting the width keeps the cache true, and the word sent is the cached CSW with only the width changed |
| BridgeKnowledge.SendsTar | ahb3lite_debug_bridge/rtl/ahb3lite_debug_bridge.sv:873-890 | setting TAR keeps the cache true |
| BridgeKnowledge.SendsDrw | ahb3lite_debug_bridge/rtl/ahb3lite_debug_bridge.sv:774-792 | DRW accesses the transfer's own address and size, and the cached TAR counts as the target's does |
| BridgeKnowledge.SendsBd | ahb3lite_debug_bridge/rtl/ahb3lite_debug_bridge.sv:795-811 | a banked register reaches the transfer's own address though TAR only shares its sixteen bytes |
| BridgeKnowledge.CompleteMeansAnswered | ahb3lite_debug_bridge/rtl/ahb3lite_debug_bridge.sv:245-246 | cmd_complete holds exactly when every command issued has been answered |
| BridgePreserve.SysStep | ahb3lite_debug_bridge/rtl/ahb3lite_debug_bridge.sv:258-976 | every clock keeps the invariant of bridge, queue and target |
| BridgeTheorems.Transparent | ahb3lite_debug_bridge/rtl/ahb3lite_debug_bridge.sv:451-929 | in every run of reads out of sequential mode and writes in either the target is made exactly the accesses the bus asked for, in order and each once |
| BridgeFlow.CountersNeverAlias | ahb3lite_debug_bridge/rtl/ahb3lite_debug_bridge.sv:232-330 | whatever is asked of the bridge, in any mode, and whatever status it is answered with, zero to seven commands are outstanding, and the counters are equal exactly when none is |
| BridgeFlow.ErrorsSignalled | ahb3lite_debug_bridge/rtl/ahb3lite_debug_bridge.sv:298-330 | a transfer ends once every command is answered, and in error, signalled for two clocks, if and only if a response since reset was not STAT_OK |
| BridgeFlow.EveryTransferEnds | ahb3lite_debug_bridge/rtl/ahb3lite_debug_bridge.sv:424-936 | in any mode and whatever the answers, if queue, target and response FIFO keep moving a transfer ends within 93 clocks |
| BridgeWords.WordsWritten | ahb3lite_debug_bridge/rtl/ahb3lite_debug_bridge.sv:528-890 | in every run each CSW word written is the one found with bit 31 set and only bits 5:4 or only bits 2:0 changed; each SELECT word names the access port, bank 0 or 1 and DP bank 0 |
| BridgeWords.FoundIsCsw | ahb3lite_debug_bridge/rtl/ahb3lite_debug_bridge.sv:528-700 | the word found is the answer to the second command of the run, a read of CSW |
| BridgeWords.NoneWasted | ahb3lite_debug_bridge/rtl/ahb3lite_debug_bridge.sv:479-521 | in every run each command before an access changes what is known of the target, so an access the cache serves is commanded alone |
| BridgeFlow.FailureForgetsTar | ahb3lite_debug_bridge/rtl/ahb3lite_debug_bridge.sv:308-317 | a response that is not good makes the cached TAR unknown unless the same clock sets it |
| BridgeFlow.HoldsWhenFull | ahb3lite_debug_bridge/rtl/ahb3lite_debug_bridge.sv:239-243 | no command goes out after a clock on which the queue was full |
| BridgeTheorems.TransferEnds | ahb3lite_debug_bridge/rtl/ahb3lite_debug_bridge.sv:893-929 | a transfer ends only after its own access has been answered, and a read with that answer |
| BridgeTheorems.ReadsFlatMemory | ahb3lite_debug_bridge/rtl/ahb3lite_debug_bridge.sv:451-929 | for any memory behind the MEM-AP a read returns what the transfers before it left at its address |
| BridgeLimits.MarkerIsAnAddress | ahb3lite_debug_bridge/rtl/ahb3lite_debug_bridge.sv:479-521 | with no TAR cached the access made in the end is the one asked for, wherever the target's TAR is, if and only if it is neither the byte at 0xFFFFFFFF nor a word at 0xFFFFFFF0 or above for which CSW has the width |
| BridgeLimits.FirstTransfer | ahb3lite_debug_bridge/rtl/ahb3lite_debug_bridge.sv:424-525 | in every run the first transfer's access is the one asked for, or for those two kinds the one at the target's own TAR, and so right if and only if TAR is there |
| BridgeReads.TarCountsWrites | ahb3lite_debug_bridge/rtl/ahb3lite_debug_bridge.sv:780-788 | a data access keeps the cached TAR true exactly when it writes or increment is off |
| BridgeReads.SecondReadMisses | ahb3lite_debug_bridge/rtl/ahb3lite_debug_bridge.sv:780-788 | from any such state in sequential mode a second read of an address is served from the one after it |
| BridgeReads.GoesWhere | ahb3lite_debug_bridge/rtl/ahb3lite_debug_bridge.sv:479-521 | in any mode, wherever the target's TAR really is, an access of the cached TAR's address, or by a banked register, goes by the real one, and any other access is right |
| BridgeReads.NextAccess | ahb3lite_debug_bridge/rtl/ahb3lite_debug_bridge.sv:780-788 | after a read in sequential mode the next access is right if and only if it is neither of the address read nor of a word of the same sixteen bytes once TAR has left them |
| BridgeReads.SecondReadRun | ahb3lite_debug_bridge/rtl/ahb3lite_debug_bridge.sv:424-929 | for every word address below 0xFFFFFFF0 there is a run from reset in sequential mode that is asked to read it twice and reads it and the word after it |
| UartTx.TxUartLite.Posedge | uart_fifo/rtl/txuartlite.v:90-238 | the transmitter's clocked blocks compute the next value of every register |
| UartTx.SenderStep | uart_fifo/rtl/txuartlite.v:90-238 | every clock keeps the transmitter at its place in the frame it began last |
| UartTx.LineIsWave | uart_fifo/rtl/txuartlite.v:156-163 | the wire carries exactly the frames begun, each bit for its full time |
| UartRx.RxUartLite.Posedge | uart_fifo/rtl/rxuartlite.v:92-198 | the receiver's clocked blocks compute the next value of every register |
| UartRx.HuntCounts | uart_fifo/rtl/rxuartlite.v:99-126 | half a bit into a start bit, and not before, the receiver leaves idle |
| UartRx.SampleIsBit | uart_fifo/rtl/rxuartlite.v:145-148 | each sample is taken in the middle of its own bit |
| UartRx.RxStep | uart_fifo/rtl/rxuartlite.v:92-198 | on any well-spaced line of frames at its rate, every clock keeps the receiver in step with the frame it is reading |
| UartRx.PulseIsDelivery | uart_fifo/rtl/rxuartlite.v:158-164 | o_wr is high on each frame's delivery clock, with its byte, and on no other |
| UartRx.NoStopBitNoByte | uart_fifo/rtl/rxuartlite.v:158-164 | on any line, no byte is announced whose stop bit was sampled low |
| UartRx.WaitsForHigh | uart_fifo/rtl/rxuartlite.v:128-134 | on any line, after a low stop bit nothing is announced until the line is high again |
| UartRx.GlitchesIgnored | uart_fifo/rtl/rxuartlite.v:115-127 | on any line, the receiver leaves idle only once the line has been low for half a bit |
| UartFifo.UartFifo.Posedge | uart_fifo/rtl/uart_fifo.sv:31-54 | the FIFO handshakes and the counter of dropped bytes |
| UartFifo.RoundTrip | uart_fifo/rtl/uart_fifo.sv:31-76 | for every divisor of at least 4 and every FIFO behaviour the bytes announced are the bytes taken, in order and each once; drops are counted modulo 1024 |
| UartFifo.AnnouncedOnTime | uart_fifo/rtl/rxuartlite.v:158-164 | each byte is announced on a clock fixed by the start of its frame |
| UartFifo.BackToBack | uart_fifo/rtl/txuartlite.v:95-104 | a byte ready at the end of a stop bit follows without a gap |
| UartFifo.NothingLeftBehind | uart_fifo/rtl/uart_fifo.sv:31-54 | once the input FIFO stays empty every byte taken is announced within a bounded time |
| UartFifo.BytesKeepMoving | uart_fifo/rtl/uart_fifo.sv:31-54 | while the input FIFO holds bytes another is taken every ten bit times and four clocks at least |
| HostPacket.HeaderRoundTrip | ahb3lite_host_master/rtl/ahb3lite_host_master.sv:152-162 | the fields of a command byte survive packing |
| HostPacket.CodesAreNamed | host_fifo_pkg/rtl/host_fifo_pkg.sv:25-38 | the eight codes stand for 0, 1, 2, 4, 5, 6, 8 and 16 bytes, as they are named |
| HostPacket.Examples | ahb3lite_host_slave/rtl/ahb3lite_host_slave.sv:156-219 | a command written, a command read and a reply, byte for byte |
| HostPacket.PacketReversed | ahb3lite_host_slave/rtl/ahb3lite_host_slave.sv:156-219 | the bytes of a command, shifted in, leave data and address where the far end looks for them |
| HostSlave.HostSlave.Posedge | ahb3lite_host_slave/rtl/ahb3lite_host_slave.sv:104-289 | the near end's clocked block computes the next value of every register |
| HostSlave.HostSlave.Writes | ahb3lite_host_slave/rtl/ahb3lite_host_slave.sv:183-226 | a write's command carries the addressed lanes of its data phase |
| HostMaster.HostMaster.Posedge | ahb3lite_host_master/rtl/ahb3lite_host_master.sv:78-283 | the far end's clocked block computes the next value of every register |
| HostMaster.HostMaster.Answers | ahb3lite_host_master/rtl/ahb3lite_host_master.sv:225-279 | the reply carries the addressed lanes of what the far bus returned |
| HostLink.ThereFlows | ahb3lite_host_slave/rtl/ahb3lite_host_slave.sv:119-134 | no byte is lost, repeated or reordered on the way to the far end |
| HostLink.BackFlows | ahb3lite_host_master/rtl/ahb3lite_host_master.sv:94-108 | nor on the way back |
| HostLink.FarDecodes | ahb3lite_host_master/rtl/ahb3lite_host_master.sv:149-191 | the far end decodes the near end's direction, size, address and data |
| HostLink.ReplyDecoded | ahb3lite_host_slave/rtl/ahb3lite_host_slave.sv:73-76 | the near end finds the status bit and the data where the far end put them |
| HostLink.LinkStep | ahb3lite_host_slave/rtl/ahb3lite_host_slave.sv:78-289 | every clock keeps the invariant of both ends and their FIFOs |
| HostLink.RemoteRoundTrip | ahb3lite_host_master/rtl/ahb3lite_host_master.sv:66-283 | in every run the far bus sees the near bus's transfers, in order and each once, with the same address, direction, size and lanes; in between both FIFOs are empty |
| HostLink.TransferEnds | ahb3lite_host_slave/rtl/ahb3lite_host_slave.sv:244-273 | the near bus is answered OKAY with the far bus's data |
| HostLink.EveryTransferEnds | ahb3lite_host_slave/rtl/ahb3lite_host_slave.sv:78-289 | if nothing stalls a transfer ends within 62 clocks |
| FifoArbRx.FifoArbRx.Posedge | fifo_arb_rx/rtl/fifo_arb_rx.sv:92-133 | the selects and the clocked block |
| FifoArbRx.DemuxStep | fifo_arb_rx/rtl/fifo_arb_rx.sv:93-99 | a valid word always finds room, and is written to one client |
| FifoArbRx.ReadPackets | host_fifo_pkg/rtl/host_fifo_pkg.sv:25-38 | cutting a stream by the length table gives back its packets |
| FifoArbRx.PacketsRouted | fifo_arb_rx/rtl/fifo_arb_rx.sv:92-133 | for every stream and stall pattern client 1 is given exactly the packets whose header matches, whole and in order, and client 2 the rest |
| FifoArbRx.ReplyIsPacket | ahb3lite_host_master/rtl/ahb3lite_host_master.sv:225-279 | every reply the far end sends, of success or failure, is one packet by the length table, for its own interface |
| FifoArbRx.CommandIsPacket | ahb3lite_host_slave/rtl/ahb3lite_host_slave.sv:156-219 | so is every command |
| FifoArbRx.RepliesRouted | fifo_arb_rx/rtl/fifo_arb_rx.sv:92-133 | given the replies of two far ends, mixed as they come, each client is given exactly the bytes of the replies for its interface, for every stall pattern |
| FifoArbRx.EverySecondClock | fifo_arb_rx/rtl/fifo_arb_rx.sv:92-92 | while words are offered and both clients have room one is read every second clock at least |
| FifoArbRx.NothingLost | fifo_arb_rx/rtl/fifo_arb_rx.sv:92-133 | every word read but the one in hand has been written exactly once |
| UartServer.UartServer.Do | verilator_utils/UARTServer.cpp:24-116 | the call, statement by statement, moves the reader and the writer |
| UartServer.WriterStep | verilator_utils/UARTServer.cpp:75-113 | the serialiser keeps its place in the frame it began last |
| UartServer.ReaderStep | verilator_utils/UARTServer.cpp:36-72 | on any well-spaced line the deserialiser takes each bit from its own slot |
| UartServer.RoundTrip | verilator_utils/UARTServer.cpp:24-116 | for every period, delay and pattern of gaps the bytes received are the bytes sent, in order and each once, with no stop-bit error |
| UartServer.NoByteWaits | verilator_utils/UARTServer.cpp:75-83 | a byte on offer is taken as soon as the last frame's ten bit times are over |
| GpioLink.GpioEnd.SendOutputs | verilator_utils/GPIOClient.cpp:48-78 | one command for each changed signal, at most output_cnt + 1 bytes |
| GpioLink.GpioEnd.Poll | verilator_utils/GPIOServer.cpp:45-89 | send what changed, then apply what has arrived: all of it if there is no flush, or else exactly the bytes up to the first |
| GpioLink.PollsOneUpdate | verilator_utils/GPIOServer.cpp:62-86 | a poll of a, a flush and b applies a and leaves b |
| GpioLink.EveryUpdateSeen | verilator_utils/GPIOClient.cpp:48-121 | however changes, polls and deliveries interleave, the poll that meets the client's next flush leaves the server at the client's outputs of that very update, and none is skipped |
| GpioLink.CommandsOnlyForChanges | verilator_utils/GPIOClient.cpp:55-68 | an update's commands are for signals that differ, at the level they have now, lowest first |
| GpioLink.CommandForEachChange | verilator_utils/GPIOClient.cpp:55-68 | and every signal that differs has one |
| GpioLink.NothingBeyond | verilator_utils/GPIOServer.cpp:66-86 | whatever arrives, no signal at or above input_cnt changes |
| GpioLink.ChangesApplied | verilator_utils/GPIOServer.cpp:24-38 | the commands put exactly the changed signals right |
| GpioLink.Converges | verilator_utils/GPIOClient.cpp:81-121 | however changes, polls and deliveries interleave, the bytes on their way bring the receiver to the sender's outputs |
| CsrPack.Pack | ahb3lite_csr/sw/ahb3lite_csr.py:153-183 | the packing loop computes the packing the properties below are proved of |
| CsrPack.PackField | ahb3lite_csr/sw/ahb3lite_csr.py:162-180 | one field's elements extend the packing of those before |
| CsrPack.PackingSound | ahb3lite_csr/sw/ahb3lite_csr.py:165-180 | every element lies within a register of its own type, none overlap, and a strobing field shares with none |
| CsrPack.MoreThanHalfFull | ahb3lite_csr/sw/ahb3lite_csr.py:149-183 | sorted by falling width, n registers of a strobe-free type hold at least 17 (n - 1) bits |
| CsrLayout.EmitStruct | ahb3lite_csr/sw/cppwriter.py:138-155 | the loop emits the struct the layout is proved of |
| CsrLayout.LayField | ahb3lite_csr/sw/cppwriter.py:141-154 | a field's members, with the zero-width bit-field where one is emitted, land where the packer put it |
| CsrLayout.StructMatchesPacking | ahb3lite_csr/sw/cppwriter.py:137-155 | the compiler's layout of the struct gives every field and array element the packer's word and bit |
| CsrLayout.Host.Get | ahb3lite_csr/sw/cppwriter.py:83-94 | the emitted shift and mask give the field's own bits of its register, and zeros above them |
| CsrLayout.Host.Set | ahb3lite_csr/sw/cppwriter.py:97-129 | what is written reads back cut to the field's width, no other register changes, and no bit outside the field does, unless it is write-only: then the bits below are cleared and those above take the rest of the value |
| CsrLayout.Host.GetElement | ahb3lite_csr/sw/cppwriter.py:89-94 | an array element by its own pointer, and 0 past the end |
| CsrLayout.Host.SetElement | ahb3lite_csr/sw/cppwriter.py:114-129 | an array element by its own pointer, and nothing past the end |
| CsrLayout.AccessorLaws | ahb3lite_csr/sw/cppwriter.py:81-129 | in any packing a field reads back what was written, every other field is untouched, and the last of two writes stands |

## Left out

- Weak memory: interleavings are sequentially consistent, fences are no-ops, and the kernel semaphore is a counting
  semaphore that never errors.
- ReaderWriterQueueObject.ReaderWriterQueue.constructor: takes memory to be there, where the source aborts or throws if
  malloc fails, and takes a block's size in bytes, `sizeof(T) * capacity` and its header, to fit a `size_t`: where that
  wraps malloc would give too little. Element constructors, destructors, moves and alignment are not modelled.
- SpscTheorems.DequeueReturns: speaks of the inner queue; its `size_approx` and `max_capacity`, which walk the ring
  without atomicity, are not modelled.
- BlockingQueue.BlockingReturns: leaves out the bulk form of signal(), which the queue never uses.
- JtagTheorems.ExactlyTheBits: reads find room in the response FIFO; where they do not only the lockstep and the pause
  (`PausesInTime`, `RescansWhenFull`) are proved. What is captured from TDO is not modelled; the count of captured bits
  is an input. Writes of one bit never end and are left to `OneBitNeverEnds`. Packets of one command carry the same
  header, as the layer above sends them.
- JtagPhy.Phy.constructor: the FIFO's clock crossing and `pstate`, which nothing reads, are not modelled.
- BridgeTheorems.Transparent: IRQ scanning is off, the bridge stays enabled, responses are good, HSIZE is at most a
  word, addresses are aligned, the CSW found does not use packed transfers, sequential mode is off while a read is in
  hand, and the first transfer of a run is not the byte at 0xFFFFFFFF nor a word at 0xFFFFFFF0 or above with the width
  already set (`TarCountsWrites`, `SecondReadRun` and `FirstTransfer` say what happens otherwise). The target's TAR
  increments through the whole word. The command FIFO is lossless, as it is at a depth of eight or more.
- DebugBridge.Bridge.Posedge: leaves out the IRQ scan, core-register and disabled states.
- DebugBridge.Bridge.Idling: leaves out the tests of IRQSCAN in the decision tree, off throughout.
- UartFifo.RoundTrip: transmitter and receiver share one clock, and the line is ideal.
- CsrLayout.AccessorLaws: speaks of rw fields; w1c and wo fields that share a register read back something else.
- CsrLayout.StructMatchesPacking: arrays are of whole words, since an array of bit-fields is not C.
- CsrPack.MoreThanHalfFull: takes the fields as Python's sort leaves them; parsing, sorting, the CRC and the text of the
  generated files are not modelled.
- HostLink.RemoteRoundTrip: the FIFOs lose nothing, transfers are aligned and at most a word, and the far bus answers
  OKAY; the far end's autoincrement, which the near end never asks for, and error replies are part of the register
  models only. The default slave behind a disabled near end is not modelled.
- FifoArbRx.PacketsRouted: for the default masks, one byte a word.
- UartServer.RoundTrip: odd times, at which the call does nothing, are skipped, so times are halved; the queue between
  the threads is the lock-free queue above.
- GpioLink.Converges: for up to 31 signals, the range of the source's `1 << i`; sockets and threads are not modelled.
- The transmit arbiter, the SWD PHY, and the ADIv5 layers between bridge and PHY.
