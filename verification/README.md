# Cyphal/CAN node firmware for the Raspberry Pi Pico: a Dafny model

This project models the hand-written core of a Raspberry Pi Pico firmware template. The node
speaks Cyphal over CAN FD through an MCP251XFD controller attached over SPI, with libcanard
as the transport library and o1heap as its allocator. The model covers the code that sits
around those libraries:

- the byte-length to DLC encoder and its copy in the adapter (`Dlc`, `CyphalPorting`);
- the libcanard transmit callback `canard_mcp_tx_frame` and the receive routine
  `canard_mcp_rx_process` (`CanardGlue`);
- the adapter `cyphal_port_init` / `cyphal_tx` / `cyphal_rx_poll` (`CyphalPorting`);
- the bitwise CRC-16 supplied to the driver, present in two files (`Crc16Spec`, `CanCrc`,
  `PlatformCrc`);
- the heartbeat publisher `publish_heartbeat` with its 8-bit transfer-ID counter (`Canbus`);
- the CAN receive interrupt flag (`Interrupt`);
- the one-second sensor poll gate (`Instruments`);
- the o1heap-backed memory resource: the heap size round-up, the start-up that halts, and the
  adapters (`CyphalMemory`);
- the example main loop of `src/main.c`: the interrupt handler, the test message with its
  counter, the TX-queue drain and the receive flag check (`MainLoop`).

The code the firmware calls but does not define is modelled as scripted oracles:

- the MCP251XFD driver (`Mcp251xfd.Device`): each driver call answers with the next code of a
  script of result codes, ERR_OK once the script is used up, and a counter records how many
  calls were made;
- libcanard's `canardRxAccept`, `canardTxPush`, `canardTxPeek`, `canardTxPop` and
  `canardTxFree` (`Canard`);
- the generated heartbeat serializer (`Canbus.Serializer`);
- o1heap (`CyphalMemory.Memory`).

What each oracle records differs:

- libcanard's instance logs every `canardRxAccept` call with its frame and interface index, but
  not its timestamp. In one log, in the order they happen, it also records every delivery to a
  subscription handler and every deallocation with its size and block.
- The TX queue logs every push with its deadline, metadata, payload and current time. In one
  log, in call order, it records every pop and free with its frame. `canardTxPeek` only reads
  the queue and is not logged.
- The serializer logs the heartbeats it was given.
- o1heap logs its init calls by arena size only (the arena address is not modelled), its
  allocate calls as (heap, amount) and its free calls as (heap, block).
- The driver records only how many calls were made, together with the messages its TXQ
  accepted and the messages left in FIFO1. It does not log call arguments, so a failed transmit
  leaves no trace of its message, and a status read adds one to the count just as a read does.

C integer widths are written out where they matter (`CTypes`):

- the `int8_t` narrowing of a negated driver error;
- the `uint8_t` parameter of the DLC encoder;
- the `uint32_t` result of the receive routine and of the millisecond uptime;
- the 8-bit counters.

The receive drain of `cyphal_rx_poll` is specified by `CyphalPorting.DrainPlan`, which gives:

- how many messages are read for a FIFO depth and a script of driver results;
- how many driver calls that takes;
- why the drain stops.

The loop is proved to follow it exactly, and the plan's own properties are proved as lemmas.

## Model

| member | source | states |
|---|---|---|
| Dlc.BytesToDlc | src/drivers/canard/canard.c:4-21 | the encoder is total and always returns a 4-bit code (below 16) |
| Dlc.BytesToDlcExact | src/drivers/canard/canard.c:6-7 | up to 8 bytes the code is the byte count, and that code stands for exactly that many bytes |
| Dlc.BytesToDlcMonotone | src/drivers/canard/canard.c:4-21 | a longer payload never gets a smaller code |
| Dlc.BytesToDlcSmallestCovering | src/drivers/canard/canard.c:8-20 | for at most 64 bytes the code is the smallest one whose ISO 11898-1 CAN FD length holds the payload |
| Dlc.BytesToDlcSaturates | src/drivers/canard/canard.c:18-20 | every length above 48 gets 15; above 64 that code's length no longer holds the payload, and there is no error path |
| CanardGlue.TxMessage | src/drivers/canard/canard.c:25-33 | the built message keeps the identifier and payload, is flagged CAN FD with an extended identifier, and for a payload that fits gets the shortest covering DLC |
| CanardGlue.FrameOf | src/drivers/canard/canard.c:89-94 | a received message becomes a frame with the same identifier whose payload is the first `MCP251XFD_DLCToByte(DLC)` bytes of the 64-byte receive buffer, exactly that many |
| CanardGlue.TxFrame | src/drivers/canard/canard.c:23-59 | a failed status read or transmit returns the error negated and narrowed to int8_t; a full TXQ returns 0 and sends nothing; otherwise the message enters the TXQ and 1 is returned; entering the TXQ implies 1, and 1 implies it for driver codes up to 128; the TXQ status flag and FIFO1 are untouched |
| CanardGlue.RxProcess | src/drivers/canard/canard.c:61-127 | at most one message per call (the break at line 120 is unconditional; the ghost `frameCount` mirrors the local `frame_count`); a message is read exactly when the status read succeeds, the FIFO is non-empty and the read succeeds; it is accepted once on interface 0; a completed transfer is delivered to its handler and only after that has its payload freed with its allocated size, in one ordered log; the result for every path |
| CanardGlue.TxErrorIsNegated | src/drivers/canard/canard.c:37-52 | an error code from 1 to 128 comes back as its exact negation, which is negative |
| CanardGlue.TxErrorNarrowing | src/drivers/canard/canard.c:37-52 | what libcanard sees for every error code, by its value modulo 256: 0 comes back as 0 ("TXQ full"), 1 to 128 as the negative code, and 129 to 255 as a positive value (255 as exactly 1), which libcanard reads as success |
| CyphalPorting.PortBytesToDlc | src/cyphal/cyphal_porting.c:25-35 | the adapter's copy of the encoder returns a 4-bit code |
| CyphalPorting.PortBytesToDlcAgrees | src/cyphal/cyphal_porting.c:25-35 | the copy agrees with `bytes_to_dlc` on every input |
| CyphalPorting.PortTxMessage | src/cyphal/cyphal_porting.c:44-49 | `cyphal_tx`'s message keeps the identifier and payload, has a covering DLC, and is flagged CAN FD with a STANDARD identifier |
| CyphalPorting.TxConversionsDifferInIdFormatOnly | src/cyphal/cyphal_porting.c:45-47 | the two transmit paths build the same message except for the identifier format, and they always differ there |
| CyphalPorting.DrainPlanShape | src/cyphal/cyphal_porting.c:64-121 | a drain reads at most the FIFO's depth, and all of it when it stops on an empty FIFO; it makes two calls per message read, plus the first status read, plus one more if a read failed |
| CyphalPorting.FaultFreeDrainEmptiesFifo | src/cyphal/cyphal_porting.c:71-121 | when no driver call fails, the whole FIFO is read with 2·depth+1 calls |
| CyphalPorting.FailedCallBoundsDrain | src/cyphal/cyphal_porting.c:66-120 | if the status read before message j or the read of message j fails, at most j messages are read; so a failed first status read reads nothing and frames behind an error stay in the FIFO |
| CyphalPorting.AcceptCalls | src/cyphal/cyphal_porting.c:94-115 | one `canardRxAccept` call per received message |
| CyphalPorting.AcceptCallsInOrder | src/cyphal/cyphal_porting.c:94-115 | call i carries message i, converted to a frame, on interface 0 |
| CyphalPorting.Port.constructor | src/cyphal/cyphal_porting.c:18 | `g_can` starts NULL |
| CyphalPorting.Port.Init | src/cyphal/cyphal_porting.c:20-23 | the device given is the one later transmit and receive calls use |
| CyphalPorting.Port.Tx | src/cyphal/cyphal_porting.c:37-56 | no device or a NULL frame gives false with no driver call; otherwise exactly one transmit call, true exactly when it returned ERR_OK, and the TXQ gains the message exactly then |
| CyphalPorting.Port.RxPoll | src/cyphal/cyphal_porting.c:58-122 | without a device or instance nothing changes; otherwise the FIFO loses exactly the messages `DrainPlan` reads, the driver sees exactly its calls, and each read message is accepted once, in FIFO order, on interface 0 |
| CyphalPorting.DrainFifo | src/cyphal/cyphal_porting.c:64-121 | the first status read and the loop end as `DrainPlan` says, with `k` messages read and accepted |
| CyphalPorting.DrainLoop | src/cyphal/cyphal_porting.c:70-121 | the loop after a good status read ends as the plan says |
| CyphalPorting.Turn | src/cyphal/cyphal_porting.c:81-120 | one turn: either the loop goes on with one more message read and accepted, or it has done all the plan describes |
| CyphalPorting.ReadOne | src/cyphal/cyphal_porting.c:81-115 | a read either removes the FIFO's head and accepts it, or fails and changes nothing but the call count |
| Crc16Spec.ByteStepUnrolled | src/can.c:147-153 | the per-byte step is the byte xored in followed by eight reflected shift steps with polynomial 0xA001 |
| Crc16Spec.CrcEmpty | src/can.c:144-156 | the CRC of an empty buffer is 0xFFFF |
| Crc16Spec.FoldSnoc | src/can.c:146-154 | one more byte is one more step from the accumulator reached so far |
| Crc16Spec.FoldAppend | src/can.c:146-154 | the CRC of a++b continues the fold over b from the state after a |
| Crc16Spec.ModbusCheckValue | src/can.c:140-157 | the routine's parameters give the CRC-16/MODBUS check value 0x4B37 over "123456789" |
| CanCrc.Crc16Cms | src/can.c:142-157 | the nested loops compute the fold over exactly the first `size` bytes, and the buffer is only read |
| CanCrc.ComputeCrc16Pico | src/can.c:159-162 | the driver hook returns exactly `crc16_cms` |
| PlatformCrc.Crc16Cms | src/drivers/mcp251xfd/platform.c:18-35 | the copy in the platform glue computes the same fold over the first `size` bytes |
| PlatformCrc.ComputeCrc16Pico | src/drivers/mcp251xfd/platform.c:37-40 | the platform hook returns exactly its `crc16_cms` |
| Canbus.HeartbeatMetadata | src/canbus.c:31-37 | fixed subject 7509, nominal priority, message kind, unset remote node, and the counter as transfer-ID |
| Canbus.PublishResult | src/canbus.c:41-50 | the result is never positive; it is CANBUS_OK exactly when the push did not fail, and a negative push result is returned unchanged |
| Canbus.HeartbeatPublisher.constructor | src/canbus.c:9 | the transfer-ID counter starts at 0 |
| Canbus.HeartbeatPublisher.PublishHeartbeat | src/canbus.c:7-51 | serializes uptime (ms, 32 bits), health, mode and vendor status 0; on failure returns -4 with no push and the counter unchanged; otherwise pushes the serialized bytes under the current counter with deadline +500 ms, advances the counter modulo 256 even if the push fails, and maps the push result |
| Canbus.PublishFailsOnlyOnRejection | src/canbus.c:40-50 | publishing fails exactly when libcanard rejects the transfer, with libcanard's code |
| Interrupt.CanRxIrq.constructor | src/interrupt.c:6-8 | the flag starts false and the recorded pin at -1 |
| Interrupt.CanRxIrq.GpioIrq | src/interrupt.c:10-15 | the flag is raised iff the event is on PIN_CAN_INT with the falling-edge bit; it is never lowered |
| Interrupt.CanRxIrq.InitCanRxIrq | src/interrupt.c:17-24 | the given pin is recorded, but the callback is registered on PIN_CAN_INT |
| Interrupt.CanRxIrq.CanRxPending | src/interrupt.c:26-28 | returns the flag and changes nothing |
| Interrupt.CanRxIrq.CanRxPendingReset | src/interrupt.c:30-32 | the flag is false afterwards |
| Interrupt.FlagAfterRaisedIff | src/interrupt.c:10-15 | after any run of events the flag is up iff it was up or some event was a falling edge on the pin (raising is idempotent and sticky) |
| Interrupt.OtherEventsLeaveFlag | src/interrupt.c:10-15 | events on other pins or without the falling-edge bit leave the flag as it was |
| Instruments.PollGate.constructor | src/drivers/instruments/instruments.c:14-35 | the first poll is due one second after the initial clock read |
| Instruments.PollGate.Task | src/drivers/instruments/instruments.c:37-50 | the poll runs iff the clock is strictly past the deadline, at most once per call; it then reschedules one second after the later clock read; otherwise nothing changes; every two polls are more than one second apart |
| Instruments.SpacedAfterPoll | src/drivers/instruments/instruments.c:40-48 | a poll strictly past the deadline keeps all polls more than one interval apart |
| CyphalMemory.HeapSize | src/cyphal/cyphal_memory.c:13-14 | `HEAP_SIZE` is 2048 bytes |
| CyphalMemory.RoundUpAligned | src/cyphal/cyphal_memory.c:14 | for a power-of-two alignment the round-up is aligned, at least the raw size, less than one alignment above it, and equal to it when already aligned |
| CyphalMemory.CyphalMemoryResource | src/cyphal/cyphal_memory.c:56-64 | NULL user reference and this module's two adapters |
| CyphalMemory.Memory.constructor | src/cyphal/cyphal_memory.c:17 | the heap starts NULL |
| CyphalMemory.Memory.Init | src/cyphal/cyphal_memory.c:19-35 | o1heap is set up over `HEAP_SIZE` bytes; the routine goes on only with a non-NULL heap and halts otherwise |
| CyphalMemory.Memory.Allocate | src/cyphal/cyphal_memory.c:39-43 | forwards `amount` unchanged to the heap and returns its block |
| CyphalMemory.Memory.Deallocate | src/cyphal/cyphal_memory.c:47-54 | frees the pointer on the heap; the size is not passed on |
| MainLoop.HandlerAgreesWithGpioIrq | src/main.c:24-29 | main.c's handler filters events exactly as interrupt.c's callback does |
| MainLoop.TestPayload | src/main.c:180 | four bytes: the counter, then 0xAA, 0xBB, 0xCC |
| MainLoop.TestMetadata | src/main.c:183-189 | nominal, message kind, subject 1234, broadcast, and the counter as transfer-ID |
| MainLoop.SentSnoc | src/main.c:211 | handing over one more frame adds its message to what reaches the TXQ exactly when its transmit call succeeded |
| MainLoop.FaultFreeSendsAll | src/main.c:209-215 | without failed transmit calls every queued frame reaches the TXQ, in order |
| MainLoop.ExampleNode.constructor | src/main.c:21 | the flag starts false and the counter at 0 |
| MainLoop.ExampleNode.CanIrqHandler | src/main.c:24-29 | the flag is raised iff the event is a falling edge on pin 6; it is never lowered |
| MainLoop.ExampleNode.PushTestMessage | src/main.c:180-207 | pushes the test payload under the counter's old value with deadline now + 1,000,000 µs, and the 8-bit counter advances by one modulo 256 whatever the push does |
| MainLoop.ExampleNode.DrainTx | src/main.c:209-215 | the queue ends empty; every queued frame is handed over once in peek order, whatever `cyphal_tx` returned; the release log gains, frame by frame, a pop followed by a free (`PopAndFree`); one transmit call per frame; the TXQ status flag and FIFO1 are untouched |
| Canard.PopAndFreeInOrder | src/main.c:212-213 | in the release log of a drain, frame i is popped as entry 2i and freed right after, as entry 2i+1 |
| MainLoop.ExampleNode.HandOver | src/main.c:211-213 | one frame handed to `cyphal_tx`; the release log gains its pop and then its free; the TXQ status flag and FIFO1 are untouched |
| MainLoop.ExampleNode.CheckReceived | src/main.c:227-232 | when the flag was up it is cleared before the receive step runs: the step is logged after the clear, together with the flag value it ran under, which is down; when it was down nothing happens |
| MainLoop.ExampleNode.Pass | src/main.c:173-238 | one pass of the loop: the test push with its metadata, payload and deadline; the counter advances modulo 256; every frame queued before the pass, then the test message's frames, is popped and then freed, in that order (`PopAndFree`), and the queue ends empty; with a device, one transmit call per frame and the controller's TXQ gains exactly the `Sent` messages; the TXQ status flag and FIFO1 are untouched; the flag is down, and if it was up the receive step ran after it was cleared |

## Left out

- libcanard and o1heap internals (reassembly, TX prioritisation, frame expiry, allocator
  internals): these files are not part of this model. Their calls are scripted oracles; what
  each one logs is listed above.
- The MCP251XFD driver internals: register and FIFO configuration, SPI transfers with their
  timeouts, timestamps, and the driver's own `MCP251XFD_DLCToByte`, which is modelled by the
  ISO 11898-1 CAN FD length table. Each driver call is a scripted result code.
- Which bytes of the 64-byte receive buffer the driver writes is not modelled. A message in
  FIFO1 carries the whole buffer, and the frame takes as many leading bytes as its DLC stands for.
- CyphalPorting.Port.RxPoll: FIFO1 is a snapshot taken when the drain starts. Frames that arrive
  while the drain runs are not modelled, although the loop's status read at
  src/cyphal/cyphal_porting.c:117-118 would pick them up. So the bounds "at most the FIFO's depth
  is read" and "the whole FIFO is read on a fault-free drain" are about that snapshot. A drain
  that a steady stream of arrivals keeps from ever ending is not modelled either.
- `cyphal_rx_process`, called at src/main.c:230, is defined in no file of this model. The main
  loop records it as an abstract receive step.
- `cyphal_port_get_usec` and every other clock read are parameters. Time saturation and the
  64-bit range of `absolute_time_t` are not modelled; times are unbounded naturals.
- Instruments.PollGate.Task: requires that the clock does not run backwards (`clock <= now <=
  later`), a property of the Pico timer rather than of the code.
- I2C/sensor set-up, the sensor poll itself and logging/printing are not modelled. A poll is
  recorded in a log of poll times.
- The interrupt and the main loop run concurrently on the device; the model takes them as
  interleaved sequential calls. The `for (;;)` loop is modelled as one pass, `Pass`, that can be
  repeated. The 500 ms sleep is not modelled.
- The `result < 0` test of `canard_mcp_rx_process` compares an `eERRORRESULT` enum. The model
  reads it as a signed comparison, so a negative `canardRxAccept` result stops processing.
- `O1HEAP_ALIGNMENT` is taken as 16, four pointer sizes on the 32-bit target; o1heap.h is not
  part of this model. `RoundUpAligned` is proved for any power-of-two alignment.
- The uptime field of `uavcan.node.Heartbeat.1.0` is defined in seconds, but src/canbus.c:14
  fills it with milliseconds since boot. The model keeps the milliseconds, as written.
- `cyphal_tx` flags its message with a STANDARD identifier (src/cyphal/cyphal_porting.c:47),
  while `canard_mcp_tx_frame` uses EXTENDED. The model keeps both as written;
  `TxConversionsDifferInIdFormatOnly` states the difference.
- CanardGlue.TxFrame: "returns 1 only after a successful transmit" holds only for driver error
  codes up to 128. The `int8_t` narrowing turns every code from 129 to 255 modulo 256 into a
  positive value, which libcanard takes for success; 255 gives exactly 1. A code that is 0
  modulo 256 reads as "TXQ full". `TxErrorNarrowing` states all of these.
- MainLoop.ExampleNode.DrainTx: the order of handing a frame to `cyphal_tx` and then popping
  and freeing it (src/main.c:211-213) is not captured; the same goes for `HandOver` and `Pass`.
  The transmit touches only the controller, pop and free touch only the queue, and frames are
  values, so a free cannot invalidate the frame being sent. Pop before free is captured.
- Mcp251xfd.Device: the TXQ status flag `txqNotFull` is fixed for a whole run. No driver call
  changes it, so a TXQ that fills up or drains while the firmware runs is not modelled.
- CyphalMemory.Memory.Init: requires that start-up has not already halted, since after the halt
  nothing else runs.
