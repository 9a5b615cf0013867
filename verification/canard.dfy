/**
 * The parts of libcanard the firmware calls, as abstract oracles. Reassembly, the prioritised
 * TX queue and the memory resource's allocator are not part of this model: each call is answered
 * from a script of replies, and each call's arguments are logged.
 */
module Canard {
  import opened Scripts

  /**
   * `CanardFrame`: a CAN identifier and a payload. A CAN FD frame carries at most 64 bytes; the
   * type itself does not bound the length, and the DLC encoders state what happens above 64.
   */
  datatype Frame = Frame(extendedCanId: nat, payload: seq<bv8>)

  /** The eight Cyphal transfer priorities, most urgent first. */
  datatype Priority = Exceptional | Immediate | Fast | High | Nominal | Low | Slow | Optional

  datatype TransferKind = Message | Response | Request

  /** `CanardTransferMetadata`; `remoteNodeId == None` is CANARD_NODE_ID_UNSET. */
  datatype TransferMetadata = TransferMetadata(
    priority: Priority,
    transferKind: TransferKind,
    portId: nat,
    remoteNodeId: Option<nat>,
    transferId: nat)

  datatype Option<T> = None | Some(value: T)

  /** The arguments of one `canardTxPush` call: deadline (µs), metadata, payload and current time (µs). */
  datatype TxPush = TxPush(deadlineUsec: nat, metadata: TransferMetadata, payload: seq<bv8>, nowUsec: nat)

  /**
   * What `canardTxPush` does with a transfer: it enqueues the frames it was cut into (and returns
   * their number), or rejects it with a negative error code.
   */
  datatype PushReply = Enqueued(frames: seq<Frame>) | Rejected(code: NegInt)

  /** The `int32_t` result of a push. */
  function PushResult(reply: PushReply): (r: int)
    ensures reply.Enqueued? ==> r == |reply.frames|
    ensures reply.Rejected? ==> r == reply.code < 0
  {
    match reply
    case Enqueued(frames) => |frames|
    case Rejected(code) => code
  }

  /** A reassembled transfer as `canardRxAccept` hands it out; `payloadRef` stands for its heap block. */
  datatype RxTransfer = RxTransfer(portId: nat, payloadSize: nat, allocatedSize: nat, payloadRef: nat)

  /** What `canardRxAccept` reports: 1 with a transfer, 0, or a negative error code. */
  datatype AcceptReply = Completed(transfer: RxTransfer) | NoTransfer | Failed(code: NegInt)

  type NegInt = x: int | x < 0 witness -1

  /** One `canardRxAccept` call: the frame and the redundant-interface index. */
  datatype AcceptCall = AcceptCall(frame: Frame, ifaceIndex: nat)

  /**
   * What happens to a reassembled transfer after `canardRxAccept`: the subscription handler is
   * invoked with it, and its payload block is handed back to the memory resource as a
   * (size, block) pair.
   */
  datatype RxEffect = Delivered(transfer: RxTransfer) | Freed(size: nat, payloadRef: nat)

  /**
   * A `CanardInstance`. `replies` scripts the results of successive `canardRxAccept` calls (once
   * used up, every call reports no transfer); `accepted` logs the calls, so its length is the
   * number of replies given; `effects` logs, in the order they happen, the subscription handler
   * invocations and the memory resource's deallocate calls.
   */
  class Instance {
    const replies: seq<AcceptReply>
    var accepted: seq<AcceptCall>
    var effects: seq<RxEffect>

    constructor (replies: seq<AcceptReply>)
      ensures this.replies == replies
      ensures accepted == [] && effects == []
    {
      this.replies := replies;
      accepted, effects := [], [];
    }

    /** `canardRxAccept`: logs the call and gives the next scripted reply. */
    method Accept(frame: Frame, ifaceIndex: nat) returns (reply: AcceptReply)
      modifies this
      ensures reply == Reply(replies, |old(accepted)|, NoTransfer)
      ensures accepted == old(accepted) + [AcceptCall(frame, ifaceIndex)]
      ensures effects == old(effects)
    {
      reply := Reply(replies, |accepted|, NoTransfer);
      accepted := accepted + [AcceptCall(frame, ifaceIndex)];
    }

    /** The subscription handler, reached through the subscription's user reference. */
    method Deliver(transfer: RxTransfer)
      modifies this
      ensures effects == old(effects) + [Delivered(transfer)]
      ensures accepted == old(accepted)
    {
      effects := effects + [Delivered(transfer)];
    }

    /** `memory.deallocate(user_reference, size, pointer)`. */
    method Deallocate(size: nat, payloadRef: nat)
      modifies this
      ensures effects == old(effects) + [Freed(size, payloadRef)]
      ensures accepted == old(accepted)
    {
      effects := effects + [Freed(size, payloadRef)];
    }
  }

  /** What happens to a queue item after `canardTxPeek`: it is popped, then its memory is freed. */
  datatype TxRelease = Popped(frame: Frame) | TxFreed(frame: Frame)

  /** Each frame in turn popped and then freed, as the drain loop of the main loop releases them. */
  function PopAndFree(frames: seq<Frame>): (r: seq<TxRelease>)
    ensures |r| == 2 * |frames|
    decreases |frames|
  {
    if frames == [] then [] else [Popped(frames[0]), TxFreed(frames[0])] + PopAndFree(frames[1..])
  }

  /** Releasing one more frame adds its pop and then its free at the end. */
  lemma {:induction false} PopAndFreeSnoc(frames: seq<Frame>, f: Frame)
    ensures PopAndFree(frames + [f]) == PopAndFree(frames) + [Popped(f), TxFreed(f)]
    decreases |frames|
  {
    if frames == [] {
      assert [f][1..] == [];
    } else {
      assert (frames + [f])[1..] == frames[1..] + [f];
      PopAndFreeSnoc(frames[1..], f);
    }
  }

  /** Frame `i` is popped as release `2i` and freed right after, as release `2i + 1`. */
  lemma {:induction false} PopAndFreeInOrder(frames: seq<Frame>)
    ensures forall i :: 0 <= i < |frames| ==>
              PopAndFree(frames)[2 * i] == Popped(frames[i]) && PopAndFree(frames)[2 * i + 1] == TxFreed(frames[i])
    decreases |frames|
  {
    if frames != [] {
      PopAndFreeInOrder(frames[1..]);
      forall i | 0 < i < |frames|
        ensures PopAndFree(frames)[2 * i] == Popped(frames[i]) && PopAndFree(frames)[2 * i + 1] == TxFreed(frames[i])
      {
        assert frames[1..][i - 1] == frames[i];
      }
    }
  }

  /**
   * A `CanardTxQueue`. `pushReplies` scripts what successive `canardTxPush` calls do (once used
   * up, a push enqueues nothing); `pushes` logs the calls; `items` holds the queued frames in the
   * order `canardTxPeek` hands them out; `released` logs `canardTxPop` and `canardTxFree` calls in
   * the order they are made.
   */
  class TxQueue {
    const pushReplies: seq<PushReply>
    var pushes: seq<TxPush>
    var items: seq<Frame>
    var released: seq<TxRelease>

    constructor (pushReplies: seq<PushReply>)
      ensures this.pushReplies == pushReplies
      ensures pushes == [] && items == [] && released == []
    {
      this.pushReplies := pushReplies;
      pushes, items, released := [], [], [];
    }

    /** The reply to the push that comes next. */
    function NextPush(): PushReply
      reads this
    {
      Reply(pushReplies, |pushes|, Enqueued([]))
    }

    /** `canardTxPush`: logs the call; an enqueued transfer's frames join the back of the queue. */
    method Push(deadlineUsec: nat, metadata: TransferMetadata, payload: seq<bv8>, nowUsec: nat) returns (result: int)
      modifies this`pushes, this`items
      ensures result == PushResult(old(NextPush()))
      ensures pushes == old(pushes) + [TxPush(deadlineUsec, metadata, payload, nowUsec)]
      ensures items == old(items) + if old(NextPush()).Enqueued? then old(NextPush()).frames else []
    {
      var reply := NextPush();
      result := PushResult(reply);
      pushes := pushes + [TxPush(deadlineUsec, metadata, payload, nowUsec)];
      if reply.Enqueued? {
        items := items + reply.frames;
      }
    }

    /** `canardTxPeek`: the frame at the head of the queue, or NULL (`None`) when it is empty. */
    method Peek() returns (item: Option<Frame>)
      ensures item.None? <==> items == []
      ensures item.Some? ==> item.value == items[0]
    {
      item := if items == [] then None else Some(items[0]);
    }

    /** `canardTxPop` of the head item. */
    method Pop()
      requires items != []
      modifies this`items, this`released
      ensures items == old(items)[1..] && released == old(released) + [Popped(old(items)[0])]
    {
      released := released + [Popped(items[0])];
      items := items[1..];
    }

    /** `canardTxFree` of a popped item. */
    method Free(item: Frame)
      modifies this`released
      ensures released == old(released) + [TxFreed(item)]
    {
      released := released + [TxFreed(item)];
    }
  }
}
