/**
 * The libcanard memory resource backed by o1heap (src/cyphal/cyphal_memory.c): the size of the
 * static heap arena, rounded up to the allocator's alignment, the start-up that halts when the
 * heap cannot be set up, and the allocate/deallocate adapters. o1heap is an oracle: its
 * initialisation and allocation results come from scripts, and its calls are logged.
 */
module CyphalMemory {
  import opened Scripts

  /** `RAW_HEAP_SIZE`, bytes. */
  const RawHeapSize: bv32 := 2048

  /**
   * `O1HEAP_ALIGNMENT` as o1heap defines it for a 32-bit target: four pointer sizes. o1heap.h is
   * not part of this model.
   */
  const O1HeapAlignment: bv32 := 16

  /** Whether `a` is a power of two. */
  predicate PowerOfTwo(a: bv32)
  {
    a != 0 && a & (a - 1) == 0
  }

  /** The `HEAP_SIZE` round-up, in 32-bit unsigned arithmetic: `raw` rounded up to a multiple of `a`. */
  function RoundUp(raw: bv32, a: bv32): bv32
  {
    (raw + (a - 1)) & !(a - 1)
  }

  /** `HEAP_SIZE`. */
  function HeapSize(): (size: bv32)
    ensures size == 2048
  {
    RoundUp(RawHeapSize, O1HeapAlignment)
  }

  /**
   * For a power-of-two alignment and no overflow, the round-up is aligned, at least `raw`, less
   * than one alignment above it, and `raw` itself when `raw` is already aligned.
   */
  lemma RoundUpAligned(raw: bv32, a: bv32)
    requires PowerOfTwo(a)
    requires raw as int + a as int - 1 < 0x1_0000_0000
    ensures RoundUp(raw, a) & (a - 1) == 0
    ensures raw <= RoundUp(raw, a) && RoundUp(raw, a) - raw < a
    ensures raw & (a - 1) == 0 ==> RoundUp(raw, a) == raw
  {
  }

  /** A pointer: 0 stands for NULL. */
  type Pointer = nat

  const Null: Pointer := 0

  /** The two callbacks of this module a memory resource can name. */
  datatype Callback = CyphalAllocate | CyphalDeallocate

  /** `CanardMemoryResource`: the user reference and the two callbacks. */
  datatype MemoryResource = MemoryResource(userReference: Pointer, allocate: Callback, deallocate: Callback)

  /**
   * `cyphal_memory_resource`: a resource with a NULL user reference (the adapters ignore it)
   * whose callbacks are this module's allocate and deallocate adapters.
   */
  function CyphalMemoryResource(): (mem: MemoryResource)
    ensures mem.userReference == Null
    ensures mem.allocate == CyphalAllocate && mem.deallocate == CyphalDeallocate
  {
    MemoryResource(Null, CyphalAllocate, CyphalDeallocate)
  }

  /**
   * The module state `cyphal_heap` (NULL at start) and the o1heap oracle. `initReply` is the
   * instance `o1heapInit` returns; `allocReplies` scripts the blocks successive
   * `o1heapAllocate` calls return (NULL once used up). `allocCalls` logs (instance, amount) and
   * `freeCalls` logs (instance, pointer). `halted` is set when start-up fails: the firmware then
   * spins forever and nothing else runs.
   */
  class Memory {
    const initReply: Pointer
    const allocReplies: seq<Pointer>
    var heap: Pointer
    var halted: bool
    var initCalls: seq<nat>
    var allocCalls: seq<(Pointer, nat)>
    var freeCalls: seq<(Pointer, Pointer)>

    constructor (initReply: Pointer, allocReplies: seq<Pointer>)
      ensures this.initReply == initReply && this.allocReplies == allocReplies
      ensures heap == Null && !halted && initCalls == [] && allocCalls == [] && freeCalls == []
    {
      this.initReply := initReply;
      this.allocReplies := allocReplies;
      heap, halted := Null, false;
      initCalls, allocCalls, freeCalls := [], [], [];
    }

    /**
     * `cyphal_memory_init`: o1heap is set up over the whole arena of `HEAP_SIZE` bytes. It returns
     * only with a heap; on NULL it halts (the spin of lines 31-33).
     */
    method Init()
      requires !halted
      modifies this`heap, this`halted, this`initCalls
      ensures initCalls == old(initCalls) + [HeapSize() as nat]
      ensures heap == initReply
      ensures halted <==> heap == Null
    {
      initCalls := initCalls + [HeapSize() as nat];
      heap := initReply;
      if heap == Null {
        halted := true;
      }
    }

    /** `cyphal_allocate`: forwards `amount` unchanged to o1heap and returns its block. */
    method Allocate(userReference: Pointer, amount: nat) returns (p: Pointer)
      modifies this`allocCalls
      ensures allocCalls == old(allocCalls) + [(heap, amount)]
      ensures p == Reply(allocReplies, |old(allocCalls)|, Null)
    {
      p := Reply(allocReplies, |allocCalls|, Null);
      allocCalls := allocCalls + [(heap, amount)];
    }

    /** `cyphal_deallocate`: frees `pointer`; the size (and the user reference) are not passed on. */
    method Deallocate(userReference: Pointer, amount: nat, pointer: Pointer)
      modifies this`freeCalls
      ensures freeCalls == old(freeCalls) + [(heap, pointer)]
    {
      freeCalls := freeCalls + [(heap, pointer)];
    }
  }
}
