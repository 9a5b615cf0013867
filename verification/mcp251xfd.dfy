/**
 * The MCP251XFD CAN FD controller as the firmware's glue sees it, an abstract oracle. Register
 * access, SPI transfers and FIFO configuration are not part of this model: each driver call
 * answers with the next code of a script of result codes, and the TX queue (TXQ) and receive
 * FIFO1 are sequences of messages.
 */
module Mcp251xfd {
  import opened Scripts
  import opened Dlc

  /** `eERRORRESULT`: zero is ERR_OK, every other value is an error. */
  type ErrorResult = nat

  const ErrOk: ErrorResult := 0

  /** The 4-bit data-length code field of a message. */
  type DlcCode = d: int | 0 <= d < 16

  datatype IdFormat = StandardId | ExtendedId

  /** A message's control flags: the CAN FD frame flag and the identifier format. */
  datatype ControlFlags = ControlFlags(canFd: bool, idFormat: IdFormat)

  /** `MCP251XFD_CANMessage`. */
  datatype CanMessage = CanMessage(messageId: nat, dlc: DlcCode, flags: ControlFlags, payload: seq<bv8>)

  /** The size of the receive buffer the firmware hands the driver: `uint8_t payload[64]`. */
  const RxBufferSize: nat := 64

  /**
   * A message read from FIFO1: its payload is the whole 64-byte receive buffer, of which the
   * DLC says how many leading bytes the frame carries.
   */
  type RxMessage = m: CanMessage | |m.payload| == RxBufferSize
    witness CanMessage(0, 0, ControlFlags(true, ExtendedId), seq(64, _ => 0))

  /**
   * `MCP251XFD_DLCToByte(dlc, true)`: the number of payload bytes a received CAN FD message
   * carries, from the ISO 11898-1 table.
   */
  function DlcToByte(dlc: DlcCode): (n: nat)
    ensures n <= 64
  {
    DlcLength(dlc)
  }

  /** The result code of driver call number `i` (from 0) when successive calls answer with `codes`. */
  function ResultOf(codes: seq<ErrorResult>, i: nat): ErrorResult
  {
    Reply(codes, i, ErrOk)
  }

  /**
   * One controller. `codes` scripts the result codes of successive driver calls (ERR_OK once
   * used up) and `calls` counts the calls made; `txqNotFull` is the TXQ status flag
   * TX_FIFO_NOT_FULL; `txq` holds the messages the TXQ has accepted; `rxFifo` holds the messages
   * waiting in FIFO1, oldest first.
   */
  class Device {
    const codes: seq<ErrorResult>
    var calls: nat
    var txqNotFull: bool
    var txq: seq<CanMessage>
    var rxFifo: seq<RxMessage>

    constructor (codes: seq<ErrorResult>, txqNotFull: bool, rxFifo: seq<RxMessage>)
      ensures this.codes == codes && calls == 0 && this.txqNotFull == txqNotFull
      ensures this.rxFifo == rxFifo && txq == []
    {
      this.codes := codes;
      calls := 0;
      this.txqNotFull := txqNotFull;
      this.rxFifo := rxFifo;
      txq := [];
    }

    /** `MCP251XFD_GetTXQStatus`. */
    method GetTxqStatus() returns (err: ErrorResult, notFull: bool)
      modifies this`calls
      ensures err == ResultOf(codes, old(calls)) && calls == old(calls) + 1
      ensures notFull == txqNotFull
    {
      err := ResultOf(codes, calls);
      calls := calls + 1;
      notFull := txqNotFull;
    }

    /** `MCP251XFD_TransmitMessageToTXQ(dev, msg, true)`: on ERR_OK the message enters the TXQ. */
    method TransmitMessageToTxq(msg: CanMessage) returns (err: ErrorResult)
      modifies this`calls, this`txq
      ensures err == ResultOf(codes, old(calls)) && calls == old(calls) + 1
      ensures txq == if err == ErrOk then old(txq) + [msg] else old(txq)
    {
      err := ResultOf(codes, calls);
      calls := calls + 1;
      if err == ErrOk {
        txq := txq + [msg];
      }
    }

    /** `MCP251XFD_GetFIFOStatus(dev, FIFO1, ...)`: reports whether FIFO1 holds a message. */
    method GetFifoStatus() returns (err: ErrorResult, notEmpty: bool)
      modifies this`calls
      ensures err == ResultOf(codes, old(calls)) && calls == old(calls) + 1
      ensures notEmpty == (rxFifo != [])
    {
      err := ResultOf(codes, calls);
      calls := calls + 1;
      notEmpty := rxFifo != [];
    }

    /**
     * `MCP251XFD_ReceiveMessageFromFIFO(dev, ..., FIFO1)`: on ERR_OK the oldest message leaves
     * FIFO1; on an error FIFO1 is left as it was.
     */
    method ReceiveMessageFromFifo() returns (err: ErrorResult, msg: RxMessage)
      requires rxFifo != []
      modifies this`calls, this`rxFifo
      ensures err == ResultOf(codes, old(calls)) && calls == old(calls) + 1
      ensures err == ErrOk ==> msg == old(rxFifo)[0] && rxFifo == old(rxFifo)[1..]
      ensures err != ErrOk ==> rxFifo == old(rxFifo)
    {
      err := ResultOf(codes, calls);
      calls := calls + 1;
      msg := rxFifo[0];
      if err == ErrOk {
        rxFifo := rxFifo[1..];
      }
    }
  }
}
