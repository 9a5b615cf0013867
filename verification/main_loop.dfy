/**
 * The example node's main loop (src/main.c): the CAN interrupt handler and its flag, and one pass
 * of the `for (;;)` loop: push a test message under the 8-bit message counter, hand every
 * queued frame to `cyphal_tx` until the TX queue is empty, and run the receive step when the
 * interrupt flag is up. The loop itself never ends; the model gives one pass.
 */
module MainLoop {
  import opened Canard
  import opened Mcp251xfd
  import Interrupt
  import opened CyphalPorting

  /** `PIN_CAN_INT` as main.c defines it for itself (line 18). */
  const MainPinCanInt: nat := 6

  /** An 8-bit increment is an increment modulo 256 (used to state the counter's wrap on `int`). */
  lemma CounterWraps(c: bv8)
    ensures (c + 1) as int == (c as int + 1) % 0x100
  {
  }

  /** The subject ID of the test message. */
  const TestPortId: nat := 1234

  /** The test message's deadline: one second after the clock read, in µs. */
  const TestTimeoutUsec: nat := 1_000_000

  /** Whether a GPIO event sets `can_message_received`: the interrupt pin, with the falling-edge bit. */
  predicate HandlerRaises(gpio: nat, events: bv32)
  {
    gpio == MainPinCanInt && events & Interrupt.GpioIrqEdgeFall != 0
  }

  /** main.c's handler filters GPIO events exactly as interrupt.c's `gpio_irq` does. */
  lemma HandlerAgreesWithGpioIrq(gpio: nat, events: bv32)
    ensures HandlerRaises(gpio, events) == Interrupt.RaisesFlag(gpio, events)
  {
  }

  /** The four-byte test payload for counter value `c`. */
  function TestPayload(c: bv8): (p: seq<bv8>)
    ensures |p| == 4 && p[0] == c && p[1..] == [0xAA, 0xBB, 0xCC]
  {
    [c, 0xAA, 0xBB, 0xCC]
  }

  /** The test message's metadata for counter value `c`: nominal broadcast on subject 1234. */
  function TestMetadata(c: bv8): (md: TransferMetadata)
    ensures md.portId == TestPortId && md.priority == Nominal && md.transferKind == Message
    ensures md.remoteNodeId == None && md.transferId == c as nat
  {
    TransferMetadata(Nominal, Message, TestPortId, None, c as nat)
  }

  /**
   * The messages that reach the controller's TXQ when `frames` are handed to `cyphal_tx` one by
   * one, the first as driver call number `at`: those whose transmit call returned ERR_OK, in
   * order.
   */
  function Sent(frames: seq<Frame>, codes: seq<ErrorResult>, at: nat): (msgs: seq<CanMessage>)
    ensures |msgs| <= |frames|
    decreases |frames|
  {
    if frames == [] then []
    else (if ResultOf(codes, at) == ErrOk then [PortTxMessage(frames[0])] else []) + Sent(frames[1..], codes, at + 1)
  }

  /** Handing over one more frame extends the sent messages by that frame's message, if it went out. */
  lemma {:induction false} SentSnoc(frames: seq<Frame>, f: Frame, codes: seq<ErrorResult>, at: nat)
    ensures Sent(frames + [f], codes, at) ==
              Sent(frames, codes, at) + if ResultOf(codes, at + |frames|) == ErrOk then [PortTxMessage(f)] else []
    decreases |frames|
  {
    if frames == [] {
      assert [f][1..] == [];
    } else {
      assert (frames + [f])[1..] == frames[1..] + [f];
      SentSnoc(frames[1..], f, codes, at + 1);
    }
  }

  /** When no transmit call fails, every frame's message reaches the TXQ, in order. */
  lemma {:induction false} FaultFreeSendsAll(frames: seq<Frame>, codes: seq<ErrorResult>, at: nat)
    requires forall i :: 0 <= i < |codes| ==> codes[i] == ErrOk
    ensures |Sent(frames, codes, at)| == |frames|
    ensures forall i :: 0 <= i < |frames| ==> Sent(frames, codes, at)[i] == PortTxMessage(frames[i])
    decreases |frames|
  {
    if frames != [] {
      FaultFreeSendsAll(frames[1..], codes, at + 1);
    }
  }

  /**
   * The main loop's steps on the receive side, in the order they happen. The receive step
   * records the value `can_message_received` had when it ran.
   */
  datatype RxStep = FlagCleared | RxProcessed(flagAtStep: bool)

  /**
   * The example node's state: the volatile `can_message_received`, the `uint8_t
   * message_counter`, and a log of the receive steps taken.
   */
  class ExampleNode {
    var canMessageReceived: bool
    var messageCounter: bv8
    var rxSteps: seq<RxStep>

    constructor ()
      ensures !canMessageReceived && messageCounter == 0 && rxSteps == []
    {
      canMessageReceived, messageCounter, rxSteps := false, 0, [];
    }

    /** `can_irq_handler`: sets the flag on a falling edge of the interrupt pin, never clears it. */
    method CanIrqHandler(gpio: nat, events: bv32)
      modifies this`canMessageReceived
      ensures canMessageReceived == (old(canMessageReceived) || HandlerRaises(gpio, events))
    {
      if gpio == MainPinCanInt && events & Interrupt.GpioIrqEdgeFall != 0 {
        canMessageReceived := true;
      }
    }

    /**
     * Lines 180-207: push the test message. The payload and the transfer-ID carry the counter's
     * value before the pass; the counter then advances modulo 256 whatever the push does. The
     * deadline is one second after `nowUsec`, the reading of `cyphal_port_get_usec`.
     */
    method PushTestMessage(txq: TxQueue, nowUsec: nat) returns (result: int)
      modifies this`messageCounter, txq`pushes, txq`items
      ensures messageCounter as int == (old(messageCounter) as int + 1) % 0x100
      ensures txq.pushes == old(txq.pushes) + [TxPush(nowUsec + TestTimeoutUsec, TestMetadata(old(messageCounter)),
                                                      TestPayload(old(messageCounter)), 0)]
      ensures txq.items == old(txq.items) + if old(txq.NextPush()).Enqueued? then old(txq.NextPush()).frames else []
      ensures result == PushResult(old(txq.NextPush()))
    {
      var payload := TestPayload(messageCounter);
      var metadata := TestMetadata(messageCounter);
      CounterWraps(messageCounter);
      messageCounter := messageCounter + 1;
      result := txq.Push(nowUsec + TestTimeoutUsec, metadata, payload, 0);
    }

    /**
     * Lines 210-216: each queued frame, in peek order, is handed to `cyphal_tx` exactly once and
     * is then popped and freed, whatever `cyphal_tx` returned; the loop ends with the queue
     * empty. With a registered device, one transmit call is made per frame and the TXQ gains
     * the messages of the frames whose call succeeded.
     */
    method DrainTx(txq: TxQueue, port: Port)
      modifies txq`items, txq`released, port.device
      ensures txq.items == []
      ensures txq.released == old(txq.released) + PopAndFree(old(txq.items))
      ensures port.device != null ==>
                && port.device.calls == old(port.device.calls) + |old(txq.items)|
                && port.device.txq == old(port.device.txq) + Sent(old(txq.items), port.device.codes, old(port.device.calls))
                && port.device.rxFifo == old(port.device.rxFifo)
                && port.device.txqNotFull == old(port.device.txqNotFull)
    {
      ghost var items0, dev := txq.items, port.device;
      ghost var calls0, txq0 := if dev != null then dev.calls else 0, if dev != null then dev.txq else [];
      ghost var n := 0;
      var item := txq.Peek();
      while item.Some?
        invariant n <= |items0| && txq.items == items0[n..]
        invariant item.None? <==> txq.items == []
        invariant item.Some? ==> item.value == txq.items[0]
        invariant txq.released == old(txq.released) + PopAndFree(items0[..n])
        invariant dev != null ==>
                    && dev.calls == calls0 + n
                    && dev.txq == txq0 + Sent(items0[..n], dev.codes, calls0)
                    && dev.rxFifo == old(dev.rxFifo)
                    && dev.txqNotFull == old(dev.txqNotFull)
        decreases |txq.items|
      {
        HandOver(txq, port, item.value, items0[..n], calls0, txq0);
        assert items0[..n + 1] == items0[..n] + [item.value];
        PopAndFreeSnoc(items0[..n], item.value);
        n := n + 1;
        item := txq.Peek();
      }
      assert items0[..n] == items0;
    }

    /**
     * One turn of the loop of lines 210-216: the head of the queue is handed to `cyphal_tx`, then
     * popped and freed.
     */
    method HandOver(txq: TxQueue, port: Port, item: Frame, ghost done: seq<Frame>, ghost calls0: nat, ghost txq0: seq<CanMessage>)
      requires txq.items != [] && item == txq.items[0]
      requires port.device != null ==>
                 port.device.calls == calls0 + |done| && port.device.txq == txq0 + Sent(done, port.device.codes, calls0)
      modifies txq`items, txq`released, port.device
      ensures txq.items == old(txq.items)[1..]
      ensures txq.released == old(txq.released) + [Popped(item), TxFreed(item)]
      ensures port.device != null ==>
                && port.device.calls == calls0 + |done| + 1
                && port.device.txq == txq0 + Sent(done + [item], port.device.codes, calls0)
                && port.device.rxFifo == old(port.device.rxFifo)
                && port.device.txqNotFull == old(port.device.txqNotFull)
    {
      var _ := port.Tx(Some(item));
      if port.device != null {
        SentSnoc(done, item, port.device.codes, calls0);
      }
      txq.Pop();
      txq.Free(item);
    }

    /**
     * Lines 227-232: when the flag is up it is cleared first and the receive step runs after,
     * so the step sees the flag already down; when it is down nothing happens.
     */
    method CheckReceived()
      modifies this`canMessageReceived, this`rxSteps
      ensures !canMessageReceived
      ensures rxSteps == old(rxSteps) + if old(canMessageReceived) then [FlagCleared, RxProcessed(false)] else []
    {
      if canMessageReceived {
        canMessageReceived := false;
        rxSteps := rxSteps + [FlagCleared];
        rxSteps := rxSteps + [RxProcessed(canMessageReceived)];
      }
    }

    /**
     * One pass of the `for (;;)` loop: the test message is pushed under the counter's old value
     * and the counter wraps forward; every frame queued before the pass, then the test message's
     * frames, is handed to `cyphal_tx` once, popped and freed, leaving the queue empty; with a
     * registered device one transmit call is made per frame and the controller's TXQ gains the
     * messages whose call succeeded; and the receive flag is down.
     */
    method Pass(txq: TxQueue, port: Port, nowUsec: nat)
      modifies this, txq, port.device
      ensures messageCounter as int == (old(messageCounter) as int + 1) % 0x100
      ensures txq.pushes == old(txq.pushes) + [TxPush(nowUsec + TestTimeoutUsec, TestMetadata(old(messageCounter)),
                                                      TestPayload(old(messageCounter)), 0)]
      ensures var queued := old(txq.items) + (if old(txq.NextPush()).Enqueued? then old(txq.NextPush()).frames else []);
              && txq.items == []
              && txq.released == old(txq.released) + PopAndFree(queued)
              && (port.device != null ==>
                    && port.device.calls == old(port.device.calls) + |queued|
                    && port.device.txq == old(port.device.txq) + Sent(queued, port.device.codes, old(port.device.calls))
                    && port.device.rxFifo == old(port.device.rxFifo)
                    && port.device.txqNotFull == old(port.device.txqNotFull))
      ensures !canMessageReceived
      ensures rxSteps == old(rxSteps) + if old(canMessageReceived) then [FlagCleared, RxProcessed(false)] else []
    {
      var _ := PushTestMessage(txq, nowUsec);
      DrainTx(txq, port);
      CheckReceived();
    }
  }
}
