/**
 * Scripted oracles. A collaborator outside the model (the CAN controller driver, libcanard's
 * reassembler, the heap) is given as the fixed list of the replies it makes to successive calls;
 * the caller's side keeps the number of calls made so far.
 */
module Scripts {

  /** The reply to call number `i` (from 0): the script's entry, or `default` once it is used up. */
  function Reply<T>(script: seq<T>, i: nat, default: T): (r: T)
    ensures i < |script| ==> r == script[i]
    ensures |script| <= i ==> r == default
  {
    if i < |script| then script[i] else default
  }
}
