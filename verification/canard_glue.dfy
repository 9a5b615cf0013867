/**
 * The libcanard transport callbacks written against the MCP251XFD driver
 * (src/drivers/canard/canard.c): frame to message conversion, the transmit callback
 * `canard_mcp_tx_frame` with its three-way result, and the receive routine
 * `canard_mcp_rx_process`.
 */
module CanardGlue {
  import opened CTypes
  import opened Scripts
  import opened Dlc
  import opened Canard
  import opened Mcp251xfd

  /**
   * The driver message built for an outgoing frame: the identifier is kept, the DLC is
   * `bytes_to_dlc` of the payload size (passed as `uint8_t`, so taken modulo 256), and the
   * message is flagged CAN FD with an extended identifier. A payload that fits a CAN FD frame
   * gets the shortest frame length that holds it.
   */
  function TxMessage(frame: Frame): (msg: CanMessage)
    ensures msg.messageId == frame.extendedCanId && msg.payload == frame.payload
    ensures msg.flags == ControlFlags(true, ExtendedId)
    ensures |frame.payload| <= 64 ==> DlcLength(msg.dlc) >= |frame.payload|
    ensures |frame.payload| <= 64 ==> forall d :: 0 <= d < msg.dlc ==> DlcLength(d) < |frame.payload|
  {
    var size := Uint8(|frame.payload|);
    assert size <= 64 ==> DlcLength(BytesToDlc(size)) >= size
                          && forall d :: 0 <= d < BytesToDlc(size) ==> DlcLength(d) < size by {
      if size <= 64 { BytesToDlcSmallestCovering(size); }
    }
    CanMessage(frame.extendedCanId, BytesToDlc(size), ControlFlags(true, ExtendedId), frame.payload)
  }

  /**
   * The libcanard frame built for a received message: same identifier, and as many leading bytes
   * of the 64-byte receive buffer as the message's DLC stands for.
   */
  function FrameOf(msg: RxMessage): (frame: Frame)
    ensures frame.extendedCanId == msg.messageId
    ensures |frame.payload| == DlcToByte(msg.dlc)
    ensures frame.payload <= msg.payload
  {
    Frame(msg.messageId, msg.payload[..DlcToByte(msg.dlc)])
  }

  /**
   * `canard_mcp_tx_frame`. The deadline is not used. A failed TXQ status read or a failed
   * transmit returns the driver's error negated and narrowed to `int8_t`; a TXQ without the
   * TX_FIFO_NOT_FULL flag returns 0 and sends nothing; a message that entered the TXQ returns 1,
   * and with driver codes up to 128 nothing else returns 1.
   */
  method TxFrame(dev: Device, deadlineUsec: nat, frame: Frame) returns (r: int)
    modifies dev`calls, dev`txq
    ensures -0x80 <= r < 0x80
    ensures var status := ResultOf(dev.codes, old(dev.calls));
            var sent := ResultOf(dev.codes, old(dev.calls) + 1);
            if status != ErrOk then
              r == Int8(-(status as int)) && dev.calls == old(dev.calls) + 1 && dev.txq == old(dev.txq)
            else if !dev.txqNotFull then
              r == 0 && dev.calls == old(dev.calls) + 1 && dev.txq == old(dev.txq)
            else if sent != ErrOk then
              r == Int8(-(sent as int)) && dev.calls == old(dev.calls) + 2 && dev.txq == old(dev.txq)
            else
              r == 1 && dev.calls == old(dev.calls) + 2 && dev.txq == old(dev.txq) + [TxMessage(frame)]
    ensures dev.txq == old(dev.txq) + [TxMessage(frame)] ==> r == 1
    ensures r == 1 && ResultOf(dev.codes, old(dev.calls)) <= 0x80 && ResultOf(dev.codes, old(dev.calls) + 1) <= 0x80 ==>
              dev.txq == old(dev.txq) + [TxMessage(frame)]
  {
    var msg := TxMessage(frame);
    var result, notFull := dev.GetTxqStatus();
    if result != ErrOk {
      return Int8(-(result as int));
    }
    if !notFull {
      return 0;
    }
    result := dev.TransmitMessageToTxq(msg);
    if result != ErrOk {
      return Int8(-(result as int));
    }
    return 1;
  }

  /**
   * `canard_mcp_rx_process`. Nothing is read when the FIFO1 status read fails or FIFO1 is empty.
   * Otherwise at most ONE message is read per call: the do-while of lines 75-122 leaves its body
   * at the `break` of line 120, which is not governed by the `if` of line 118, so its condition
   * is never evaluated. A read message becomes one `canardRxAccept` call on interface 0; a
   * completed transfer is delivered to the subscription handler once and its payload is then
   * deallocated with its allocated size. The ghost `frameCount` mirrors the routine's local
   * `frame_count`; it is not part of the C signature.
   */
  method RxProcess(dev: Device, can: Instance) returns (r: uint32, ghost frameCount: nat)
    modifies dev`calls, dev`rxFifo, can
    ensures frameCount <= 1
    ensures frameCount == 1 <==>
      && ResultOf(dev.codes, old(dev.calls)) == ErrOk
      && old(dev.rxFifo) != []
      && ResultOf(dev.codes, old(dev.calls) + 1) == ErrOk
    ensures dev.rxFifo == old(dev.rxFifo)[frameCount..]
    ensures can.accepted == old(can.accepted) + if frameCount == 1 then [AcceptCall(FrameOf(old(dev.rxFifo)[0]), 0)] else []
    ensures var reply := Reply(can.replies, |old(can.accepted)|, NoTransfer);
            can.effects == old(can.effects) +
              if frameCount == 1 && reply.Completed? then
                [Delivered(reply.transfer), Freed(reply.transfer.allocatedSize, reply.transfer.payloadRef)]
              else []
    ensures var status := ResultOf(dev.codes, old(dev.calls));
            var read := ResultOf(dev.codes, old(dev.calls) + 1);
            var reply := Reply(can.replies, |old(can.accepted)|, NoTransfer);
            if status != ErrOk then
              r == Uint32(status) && dev.calls == old(dev.calls) + 1
            else if old(dev.rxFifo) == [] then
              r == 0 && dev.calls == old(dev.calls) + 1
            else if read != ErrOk then
              r == Uint32(read) && dev.calls == old(dev.calls) + 2
            else if reply.Failed? then
              r == Uint32(reply.code) && dev.calls == old(dev.calls) + 2
            else
              r == Uint32(ResultOf(dev.codes, old(dev.calls) + 2)) && dev.calls == old(dev.calls) + 3
  {
    frameCount := 0;
    var result, notEmpty := dev.GetFifoStatus();
    if result != ErrOk {
      return Uint32(result), frameCount;
    }
    if !notEmpty {
      return Uint32(result), frameCount;
    }
    // The body of the do-while, run once.
    var msg;
    result, msg := dev.ReceiveMessageFromFifo();
    if result == ErrOk {
      frameCount := frameCount + 1;
      var reply := can.Accept(FrameOf(msg), 0);
      if reply.Completed? {
        can.Deliver(reply.transfer);
        can.Deallocate(reply.transfer.allocatedSize, reply.transfer.payloadRef);
      }
      if reply.Failed? {
        return Uint32(reply.code), frameCount;
      }
      result, notEmpty := dev.GetFifoStatus();
    }
    r := Uint32(result);
  }

  /** A driver error code up to 128 comes back from `canard_mcp_tx_frame` as its exact negation. */
  lemma TxErrorIsNegated(e: ErrorResult)
    requires 0 < e <= 0x80
    ensures Int8(-(e as int)) == -(e as int) < 0
  {
  }

  /**
   * The narrowing to `int8_t` is not checked, so what libcanard sees depends only on the error
   * code modulo 256: 0 reads as "TXQ full", 1 to 128 as a failure, and 129 to 255 as a positive
   * value, which libcanard takes for success (255 gives exactly 1).
   */
  lemma TxErrorNarrowing(e: ErrorResult)
    ensures e % 0x100 == 0 ==> Int8(-(e as int)) == 0
    ensures 0 < e % 0x100 <= 0x80 ==> Int8(-(e as int)) == -(e % 0x100) < 0
    ensures 0x80 < e % 0x100 ==> Int8(-(e as int)) == 0x100 - e % 0x100 > 0
    ensures e % 0x100 == 0xFF ==> Int8(-(e as int)) == 1
  {
  }
}
