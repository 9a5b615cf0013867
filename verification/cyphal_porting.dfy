/**
 * The adapter between libcanard and the MCP251XFD driver used by the example node
 * (src/cyphal/cyphal_porting.c): the registered device `g_can`, its own copy of the DLC encoder,
 * the transmit function `cyphal_tx` and the receive drain `cyphal_rx_poll`.
 */
module CyphalPorting {
  import opened CTypes
  import opened Dlc
  import opened Canard
  import opened Mcp251xfd
  import CanardGlue

  /** `MCP251XFD_BytesToDLC`, the adapter's own copy of the byte-length to DLC encoder. */
  function PortBytesToDlc(n: uint8): (dlc: uint8)
    ensures dlc < 16
  {
    if n <= 8 then n
    else if n <= 12 then 9
    else if n <= 16 then 10
    else if n <= 20 then 11
    else if n <= 24 then 12
    else if n <= 32 then 13
    else if n <= 48 then 14
    else 15
  }

  /** The copy agrees with `bytes_to_dlc` on every input. */
  lemma PortBytesToDlcAgrees(n: uint8)
    ensures PortBytesToDlc(n) == BytesToDlc(n)
  {
  }

  /**
   * The driver message `cyphal_tx` builds: identifier kept, DLC from the payload size, flagged
   * CAN FD but with a STANDARD identifier (line 47), although the comment on line 45 says that
   * Cyphal always uses extended identifiers.
   */
  function PortTxMessage(frame: Frame): (msg: CanMessage)
    ensures msg.messageId == frame.extendedCanId && msg.payload == frame.payload
    ensures msg.flags == ControlFlags(true, StandardId)
    ensures |frame.payload| <= 64 ==> DlcLength(msg.dlc) >= |frame.payload|
  {
    var size := Uint8(|frame.payload|);
    assert size <= 64 ==> DlcLength(PortBytesToDlc(size)) >= size by {
      if size <= 64 {
        PortBytesToDlcAgrees(size);
        BytesToDlcSmallestCovering(size);
      }
    }
    CanMessage(frame.extendedCanId, PortBytesToDlc(size), ControlFlags(true, StandardId), frame.payload)
  }

  /**
   * The two transmit paths build the same message except for the identifier format:
   * `canard_mcp_tx_frame` flags it extended, `cyphal_tx` standard.
   */
  lemma TxConversionsDifferInIdFormatOnly(frame: Frame)
    ensures PortTxMessage(frame) == CanardGlue.TxMessage(frame).(flags := ControlFlags(true, StandardId))
    ensures PortTxMessage(frame) != CanardGlue.TxMessage(frame)
  {
    PortBytesToDlcAgrees(Uint8(|frame.payload|));
  }

  /** Why a receive drain stopped. */
  datatype Stop = FifoEmpty | StatusError | ReadError

  /** The course of one receive drain: messages read, driver calls made, and why it stopped. */
  datatype Drain = Drain(read: nat, calls: nat, stop: Stop)

  /**
   * The drain `cyphal_rx_poll` performs on a FIFO holding `depth` messages when driver call
   * number `at` is the next one and successive calls answer with `codes`: a status read, then
   * for each message a read followed by another status read. It stops at the first failed call
   * or when the FIFO is empty.
   */
  function DrainPlan(depth: nat, codes: seq<ErrorResult>, at: nat): Drain
  {
    DrainFrom(depth, codes, at, 0)
  }

  /**
   * The same drain once `k` messages have been read: the next message is read when there is one
   * and its status read and its read both succeed; otherwise the drain stops.
   */
  function DrainFrom(depth: nat, codes: seq<ErrorResult>, at: nat, k: nat): Drain
    requires k <= depth
    decreases depth - k
  {
    if k < depth && PairOk(codes, at, k) then DrainFrom(depth, codes, at, k + 1)
    else Offset(k, 2 * k, Stopped(depth - k, codes, at + 2 * k))
  }

  /**
   * How a drain that reads nothing more from call `at` on ends: on a failed status read, on an
   * empty FIFO after a good status read, or on a failed read.
   */
  function Stopped(depth: nat, codes: seq<ErrorResult>, at: nat): Drain
  {
    if ResultOf(codes, at) != ErrOk then Drain(0, 1, StatusError)
    else if depth == 0 then Drain(0, 1, FifoEmpty)
    else Drain(0, 2, ReadError)
  }

  /** Message `j` of a drain starting at call `at` was read: its status read and its read succeeded. */
  predicate PairOk(codes: seq<ErrorResult>, at: nat, j: nat)
  {
    ResultOf(codes, at + 2 * j) == ErrOk && ResultOf(codes, at + 2 * j + 1) == ErrOk
  }

  /** A drain offset by `read` messages and `calls` calls already made. */
  function Offset(read: nat, calls: nat, d: Drain): Drain
  {
    Drain(read + d.read, calls + d.calls, d.stop)
  }

  /**
   * A drain reads no more messages than the FIFO holds, and all of them when it stops on an empty
   * FIFO; it makes two calls per message read, plus the first status read, plus the failed read
   * if it stopped on one.
   */
  lemma DrainPlanShape(depth: nat, codes: seq<ErrorResult>, at: nat)
    ensures var d := DrainPlan(depth, codes, at);
            && d.read <= depth
            && d.calls == 2 * d.read + (if d.stop == ReadError then 2 else 1)
            && (d.stop == FifoEmpty ==> d.read == depth)
  {
    DrainFromShape(depth, codes, at, 0);
  }

  lemma {:induction false} DrainFromShape(depth: nat, codes: seq<ErrorResult>, at: nat, k: nat)
    requires k <= depth
    ensures var d := DrainFrom(depth, codes, at, k);
            && k <= d.read <= depth
            && d.calls == 2 * d.read + (if d.stop == ReadError then 2 else 1)
            && (d.stop == FifoEmpty ==> d.read == depth)
    decreases depth - k
  {
    if k < depth && PairOk(codes, at, k) {
      DrainFromShape(depth, codes, at, k + 1);
    }
  }

  /** One more message read: the drain goes on from the next one. */
  lemma DrainFromStep(depth: nat, codes: seq<ErrorResult>, at: nat, k: nat)
    requires k < depth && PairOk(codes, at, k)
    ensures DrainFrom(depth, codes, at, k) == DrainFrom(depth, codes, at, k + 1)
  {
  }

  /** A drain whose next message is not read ends there. */
  lemma DrainFromStops(depth: nat, codes: seq<ErrorResult>, at: nat, k: nat)
    requires k <= depth && !(k < depth && PairOk(codes, at, k))
    ensures DrainFrom(depth, codes, at, k) == Offset(k, 2 * k, Stopped(depth - k, codes, at + 2 * k))
  {
  }

  /** When no driver call fails, the drain empties the FIFO. */
  lemma FaultFreeDrainEmptiesFifo(depth: nat, codes: seq<ErrorResult>, at: nat)
    requires forall i :: 0 <= i < |codes| ==> codes[i] == ErrOk
    ensures DrainPlan(depth, codes, at) == Drain(depth, 2 * depth + 1, FifoEmpty)
  {
    FaultFreeDrainFrom(depth, codes, at, 0);
  }

  lemma {:induction false} FaultFreeDrainFrom(depth: nat, codes: seq<ErrorResult>, at: nat, k: nat)
    requires forall i :: 0 <= i < |codes| ==> codes[i] == ErrOk
    requires k <= depth
    ensures DrainFrom(depth, codes, at, k) == Drain(depth, 2 * depth + 1, FifoEmpty)
    decreases depth - k
  {
    if k < depth {
      assert PairOk(codes, at, k);
      FaultFreeDrainFrom(depth, codes, at, k + 1);
    }
  }

  /**
   * A drain reads message number `i` only if every call before that read succeeded, so the
   * first failed call bounds what is read: a drain whose call `at + 2 * j` or `at + 2 * j + 1`
   * fails reads at most `j` messages.
   */
  lemma FailedCallBoundsDrain(depth: nat, codes: seq<ErrorResult>, at: nat, j: nat)
    requires ResultOf(codes, at + 2 * j) != ErrOk || ResultOf(codes, at + 2 * j + 1) != ErrOk
    ensures DrainPlan(depth, codes, at).read <= j
  {
    FailedCallBoundsDrainFrom(depth, codes, at, j, 0);
  }

  lemma {:induction false} FailedCallBoundsDrainFrom(depth: nat, codes: seq<ErrorResult>, at: nat, j: nat, k: nat)
    requires ResultOf(codes, at + 2 * j) != ErrOk || ResultOf(codes, at + 2 * j + 1) != ErrOk
    requires k <= depth && k <= j
    ensures DrainFrom(depth, codes, at, k).read <= j
    decreases depth - k
  {
    if k < depth && PairOk(codes, at, k) {
      assert k != j;
      FailedCallBoundsDrainFrom(depth, codes, at, j, k + 1);
    }
  }

  /** The `canardRxAccept` calls for a run of received messages: each once, in order, on interface 0. */
  function AcceptCalls(msgs: seq<RxMessage>): (calls: seq<AcceptCall>)
    ensures |calls| == |msgs|
  {
    seq(|msgs|, i requires 0 <= i < |msgs| => AcceptCall(CanardGlue.FrameOf(msgs[i]), 0))
  }

  /** Message `i` of the run is accepted as call `i`, converted to a frame, on interface 0. */
  lemma AcceptCallsInOrder(msgs: seq<RxMessage>)
    ensures forall i :: 0 <= i < |msgs| ==> AcceptCalls(msgs)[i] == AcceptCall(CanardGlue.FrameOf(msgs[i]), 0)
  {
  }

  /** One more message received adds its `canardRxAccept` call at the end. */
  lemma AcceptCallsSnoc(msgs: seq<RxMessage>, m: RxMessage)
    ensures AcceptCalls(msgs + [m]) == AcceptCalls(msgs) + [AcceptCall(CanardGlue.FrameOf(m), 0)]
  {
  }

  /** The adapter's module state: `g_can`, the device registered by `cyphal_port_init`. */
  class Port {
    var device: Device?

    /** `g_can` starts out NULL. */
    constructor ()
      ensures device == null
    {
      device := null;
    }

    /** `cyphal_port_init`: the device later transmit and receive calls use. */
    method Init(canDevice: Device?)
      modifies this
      ensures device == canDevice
    {
      device := canDevice;
    }

    /**
     * `cyphal_tx`. Without a registered device or with a NULL frame (`frame == None`) it returns
     * false and calls nothing. Otherwise it makes one transmit call and returns true exactly
     * when that call returned ERR_OK.
     */
    method Tx(frame: Option<Frame>) returns (ok: bool)
      modifies device
      ensures device == old(device)
      ensures device == null || frame.None? ==> !ok
      ensures device != null && frame.None? ==> device.calls == old(device.calls) && device.txq == old(device.txq)
      ensures device != null && frame.Some? ==>
                && ok == (ResultOf(device.codes, old(device.calls)) == ErrOk)
                && device.calls == old(device.calls) + 1
                && device.txq == if ok then old(device.txq) + [PortTxMessage(frame.value)] else old(device.txq)
      ensures device != null ==> device.rxFifo == old(device.rxFifo) && device.txqNotFull == old(device.txqNotFull)
    {
      if device == null || frame.None? {
        return false;
      }
      var r := device.TransmitMessageToTxq(PortTxMessage(frame.value));
      ok := r == ErrOk;
    }

    /**
     * `cyphal_rx_poll`. Without a registered device or instance nothing happens. Otherwise the
     * FIFO is drained as `DrainPlan` describes: every message read is passed to `canardRxAccept`
     * once, in FIFO order, on interface 0 (its result is ignored), and the messages behind a
     * failed call stay in the FIFO.
     */
    method RxPoll(ins: Instance?)
      modifies device, ins
      ensures device == old(device)
      ensures device == null || ins == null ==>
                (device != null ==> device.calls == old(device.calls) && device.rxFifo == old(device.rxFifo))
                && (ins != null ==> ins.accepted == old(ins.accepted))
      ensures device != null && ins != null ==>
                var d := DrainPlan(|old(device.rxFifo)|, device.codes, old(device.calls));
                && d.read <= |old(device.rxFifo)|
                && device.rxFifo == old(device.rxFifo)[d.read..]
                && device.calls == old(device.calls) + d.calls
                && ins.accepted == old(ins.accepted) + AcceptCalls(old(device.rxFifo)[..d.read])
      ensures device != null ==> device.txq == old(device.txq) && device.txqNotFull == old(device.txqNotFull)
      ensures ins != null ==> ins.effects == old(ins.effects)
    {
      if device == null || ins == null {
        return;
      }
      ghost var _ := DrainFifo(device, ins);
    }
  }

  /**
   * The body of `cyphal_rx_poll` once the device and the instance are known: the first status
   * read, then the `while` loop. `k` is the number of messages read.
   */
  method DrainFifo(dev: Device, ins: Instance) returns (ghost k: nat)
    modifies dev`calls, dev`rxFifo, ins
    ensures k <= |old(dev.rxFifo)| && dev.rxFifo == old(dev.rxFifo)[k..]
    ensures var d := DrainPlan(|old(dev.rxFifo)|, dev.codes, old(dev.calls));
            d.read == k && dev.calls == old(dev.calls) + d.calls
    ensures ins.accepted == old(ins.accepted) + AcceptCalls(old(dev.rxFifo)[..k])
    ensures ins.effects == old(ins.effects)
  {
    ghost var fifo0, at := dev.rxFifo, dev.calls;
    var r, notEmpty := dev.GetFifoStatus();
    if r != ErrOk {
      DrainFromStops(|fifo0|, dev.codes, at, 0);
      assert fifo0[..0] == [];
      return 0;
    }
    k := DrainLoop(dev, ins, notEmpty, fifo0, at, DrainPlan(|fifo0|, dev.codes, at));
  }

  /**
   * The `while` loop of `cyphal_rx_poll`, entered after a good status read (call `at`) on the
   * FIFO `fifo0`: it ends as the drain `plan` describes, with `k` messages read and accepted.
   */
  method DrainLoop(dev: Device, ins: Instance, notEmpty0: bool, ghost fifo0: seq<RxMessage>, ghost at: nat, ghost plan: Drain)
    returns (ghost k: nat)
    requires dev.rxFifo == fifo0 && notEmpty0 == (fifo0 != [])
    requires ResultOf(dev.codes, at) == ErrOk && dev.calls == at + 1
    requires plan == DrainPlan(|fifo0|, dev.codes, at)
    modifies dev`calls, dev`rxFifo, ins
    ensures k <= |fifo0| && dev.rxFifo == fifo0[k..]
    ensures plan.read == k && dev.calls == at + plan.calls
    ensures ins.accepted == old(ins.accepted) + AcceptCalls(fifo0[..k])
    ensures ins.effects == old(ins.effects)
  {
    k := 0;
    var notEmpty := notEmpty0;
    while notEmpty
      invariant k <= |fifo0| && dev.rxFifo == fifo0[k..]
      invariant notEmpty == (dev.rxFifo != [])
      invariant DrainFrom(|fifo0|, dev.codes, at, k) == plan
      invariant ResultOf(dev.codes, at + 2 * k) == ErrOk && dev.calls == at + 2 * k + 1
      invariant ins.accepted == old(ins.accepted) + AcceptCalls(fifo0[..k])
      invariant ins.effects == old(ins.effects)
      decreases |dev.rxFifo|
    {
      var go;
      go, notEmpty, k := Turn(dev, ins, fifo0, at, plan, old(ins.accepted), k);
      if !go {
        return;
      }
    }
    DrainFromStops(|fifo0|, dev.codes, at, k);
  }

  /**
   * One turn of the `while` loop of `cyphal_rx_poll` with `k` messages read so far: a message
   * read, passed to `canardRxAccept`, and a status read. `go` tells whether the loop goes on,
   * `read` is the number of messages read after the turn. When the loop stops here, it has done
   * all that the drain `plan` describes.
   */
  method Turn(dev: Device, ins: Instance, ghost fifo0: seq<RxMessage>, ghost at: nat, ghost plan: Drain,
              ghost accepted0: seq<AcceptCall>, ghost k: nat)
    returns (go: bool, notEmpty: bool, ghost read: nat)
    requires k < |fifo0| && dev.rxFifo == fifo0[k..]
    requires DrainFrom(|fifo0|, dev.codes, at, k) == plan
    requires ResultOf(dev.codes, at + 2 * k) == ErrOk && dev.calls == at + 2 * k + 1
    requires ins.accepted == accepted0 + AcceptCalls(fifo0[..k])
    modifies dev`calls, dev`rxFifo, ins
    ensures read <= |fifo0| && dev.rxFifo == fifo0[read..]
    ensures ins.accepted == accepted0 + AcceptCalls(fifo0[..read])
    ensures ins.effects == old(ins.effects)
    ensures go ==> && read == k + 1 && notEmpty == (dev.rxFifo != [])
                   && DrainFrom(|fifo0|, dev.codes, at, read) == plan
                   && ResultOf(dev.codes, at + 2 * read) == ErrOk && dev.calls == at + 2 * read + 1
    ensures !go ==> plan.read == read && dev.calls == at + plan.calls
  {
    var ok := ReadOne(dev, ins, fifo0, accepted0, k);
    if !ok {
      DrainFromStops(|fifo0|, dev.codes, at, k);
      return false, false, k;
    }
    DrainFromStep(|fifo0|, dev.codes, at, k);
    read := k + 1;
    var r;
    r, notEmpty := dev.GetFifoStatus();
    go := r == ErrOk;
    if !go {
      DrainFromStops(|fifo0|, dev.codes, at, read);
    }
  }

  /**
   * The first half of a turn of the `while` loop of `cyphal_rx_poll`: message `k` of the FIFO
   * `fifo0` is read and, when the read succeeds, passed to `canardRxAccept` on interface 0.
   */
  method ReadOne(dev: Device, ins: Instance, ghost fifo0: seq<RxMessage>, ghost accepted0: seq<AcceptCall>, ghost k: nat)
    returns (ok: bool)
    requires k < |fifo0| && dev.rxFifo == fifo0[k..]
    requires ins.accepted == accepted0 + AcceptCalls(fifo0[..k])
    modifies dev`calls, dev`rxFifo, ins
    ensures ok == (ResultOf(dev.codes, old(dev.calls)) == ErrOk) && dev.calls == old(dev.calls) + 1
    ensures ok ==> dev.rxFifo == fifo0[k + 1..] && ins.accepted == accepted0 + AcceptCalls(fifo0[..k + 1])
    ensures !ok ==> dev.rxFifo == old(dev.rxFifo) && ins.accepted == old(ins.accepted)
    ensures ins.effects == old(ins.effects)
  {
    var r, msg := dev.ReceiveMessageFromFifo();
    ok := r == ErrOk;
    if ok {
      var _ := ins.Accept(CanardGlue.FrameOf(msg), 0);
      assert fifo0[..k + 1] == fifo0[..k] + [msg];
      AcceptCallsSnoc(fifo0[..k], msg);
    }
  }
}
