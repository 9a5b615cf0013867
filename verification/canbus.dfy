/**
 * The node's heartbeat publisher (src/canbus.c): builds a `uavcan.node.Heartbeat.1.0` message,
 * serializes it and pushes it onto the libcanard TX queue under a transfer-ID counter of its own.
 * The generated serializer is an oracle that answers from a script.
 */
module Canbus {
  import opened CTypes
  import opened Scripts
  import opened Canard

  /** `CANBUS_OK` and `CANBUS_ERROR_DSDL_SERIALIZATION` (src/errors.h). */
  const CanbusOk: int := 0
  const CanbusErrorDsdlSerialization: int := -4

  /** The fixed subject ID of `uavcan.node.Heartbeat.1.0` in the Cyphal standard data types. */
  const HeartbeatPortId: nat := 7509

  /** The transmission deadline of a heartbeat, 500 ms after the clock read that sets it, in µs. */
  const HeartbeatTimeoutUsec: nat := 500_000

  /**
   * `uavcan_node_Heartbeat_1_0`. The Cyphal standard defines `uptime` in seconds; line 14 fills it
   * with milliseconds since boot, and the model keeps that.
   */
  datatype Heartbeat = Heartbeat(uptime: uint32, health: nat, mode: nat, vendorSpecificStatusCode: bv8)

  /**
   * The generated `uavcan_node_Heartbeat_1_0_serialize_`. `replies` scripts its outcomes: the
   * bytes written, or `None` for a non-zero (failed) return; once used up it fails. `calls` logs
   * the messages it was given.
   */
  class Serializer {
    const replies: seq<Option<seq<bv8>>>
    var calls: seq<Heartbeat>

    constructor (replies: seq<Option<seq<bv8>>>)
      ensures this.replies == replies && calls == []
    {
      this.replies := replies;
      calls := [];
    }

    /** The outcome of the serialization that comes next. */
    function NextReply(): Option<seq<bv8>>
      reads this
    {
      Reply(replies, |calls|, None)
    }

    method Serialize(msg: Heartbeat) returns (bytes: Option<seq<bv8>>)
      modifies this
      ensures bytes == old(NextReply()) && calls == old(calls) + [msg]
    {
      bytes := NextReply();
      calls := calls + [msg];
    }
  }

  /** The metadata of the heartbeat with transfer-ID `tid`: fixed subject, nominal, broadcast. */
  function HeartbeatMetadata(tid: uint8): (md: TransferMetadata)
    ensures md.portId == HeartbeatPortId && md.priority == Nominal && md.transferKind == Message
    ensures md.remoteNodeId == None && md.transferId == tid
  {
    TransferMetadata(Nominal, Message, HeartbeatPortId, None, tid)
  }

  /** How `publish_heartbeat` reports the result of its push. */
  function PublishResult(push: int): (r: int)
    ensures r <= CanbusOk
    ensures r == CanbusOk <==> push >= 0
    ensures r < CanbusOk ==> r == push
  {
    if push < 0 then push else CanbusOk
  }

  /**
   * `publish_heartbeat`'s module state: the `static uint8_t heartbeat_tid`, which starts at 0.
   */
  class HeartbeatPublisher {
    var tid: uint8

    constructor ()
      ensures tid == 0
    {
      tid := 0;
    }

    /**
     * `publish_heartbeat`. `nowUsec` is the clock read of line 10, `timeoutBaseUsec` the clock
     * read inside `make_timeout_time_ms` on line 11. The message carries the uptime in
     * milliseconds, truncated to 32 bits, and vendor status 0. A failed serialization returns
     * CANBUS_ERROR_DSDL_SERIALIZATION and neither pushes nor advances the counter. Otherwise the
     * serialized bytes are pushed under the current counter, which then advances modulo 256
     * whatever the push does; a negative push result is returned, anything else gives CANBUS_OK.
     */
    method PublishHeartbeat(txq: TxQueue, ser: Serializer, nowUsec: nat, timeoutBaseUsec: nat, health: nat, mode: nat)
      returns (result: int)
      modifies this, txq, ser
      ensures ser.calls == old(ser.calls) + [Heartbeat(Uint32(nowUsec / 1000), health, mode, 0)]
      ensures old(ser.NextReply()).None? ==>
                && result == CanbusErrorDsdlSerialization
                && tid == old(tid)
                && txq.pushes == old(txq.pushes) && txq.items == old(txq.items)
      ensures old(ser.NextReply()).Some? ==>
                && txq.pushes == old(txq.pushes) + [TxPush(timeoutBaseUsec + HeartbeatTimeoutUsec,
                                                           HeartbeatMetadata(old(tid)),
                                                           old(ser.NextReply()).value, 0)]
                && txq.items == old(txq.items) + (if old(txq.NextPush()).Enqueued? then old(txq.NextPush()).frames else [])
                && tid == (old(tid) + 1) % 0x100
                && result == PublishResult(PushResult(old(txq.NextPush())))
      ensures txq.released == old(txq.released)
    {
      var deadline := timeoutBaseUsec + HeartbeatTimeoutUsec;
      var msg := Heartbeat(Uint32(nowUsec / 1000), health, mode, 0);
      var bytes := ser.Serialize(msg);
      if bytes.None? {
        return CanbusErrorDsdlSerialization;
      }
      var md := HeartbeatMetadata(tid);
      tid := Uint8(tid + 1);
      var pushed := txq.Push(deadline, md, bytes.value, 0);
      result := PublishResult(pushed);
    }
  }

  /** A push is reported as a failure exactly when libcanard rejected the transfer. */
  lemma PublishFailsOnlyOnRejection(reply: PushReply)
    ensures PublishResult(PushResult(reply)) < CanbusOk <==> reply.Rejected?
    ensures reply.Rejected? ==> PublishResult(PushResult(reply)) == reply.code
  {
  }
}
