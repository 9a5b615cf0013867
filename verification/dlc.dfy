/**
 * The CAN FD data-length code (DLC): the 4-bit field of a CAN FD control field that encodes
 * the payload length (ISO 11898-1:2015, clause 10.4.2.4), and the firmware's byte-length to
 * DLC encoder `bytes_to_dlc` from the libcanard/MCP251XFD glue (src/drivers/canard/canard.c).
 */
module Dlc {
  import opened CTypes

  /** The payload length, in bytes, that a CAN FD frame with data-length code `dlc` carries. */
  function DlcLength(dlc: nat): (len: nat)
    requires dlc < 16
    ensures len <= 64
    ensures dlc <= 8 <==> len <= 8
    ensures dlc <= 8 ==> len == dlc
  {
    if dlc <= 8 then dlc
    else if dlc == 9 then 12
    else if dlc == 10 then 16
    else if dlc == 11 then 20
    else if dlc == 12 then 24
    else if dlc == 13 then 32
    else if dlc == 14 then 48
    else 64
  }

  /** The lengths a CAN FD frame can carry: 0..8, 12, 16, 20, 24, 32, 48 and 64 bytes. */
  predicate IsFdLength(len: nat)
  {
    len <= 8 || len in {12, 16, 20, 24, 32, 48, 64}
  }

  /** `bytes_to_dlc`: the data-length code for a payload of `n` bytes; every length above 48 gets 15. */
  function BytesToDlc(n: uint8): (dlc: uint8)
    ensures dlc < 16
  {
    if n <= 8 then n
    else if n <= 12 then 9
    else if n <= 16 then 10
    else if n <= 20 then 11
    else if n <= 24 then 12
    else if n <= 32 then 13
    else if n <= 48 then 14
    else 15
  }

  /** The table is strictly increasing, so a larger code always means a longer frame. */
  lemma DlcLengthStrictlyIncreasing(d: nat, e: nat)
    requires d < e < 16
    ensures DlcLength(d) < DlcLength(e)
  {
  }

  /** Every code stands for a valid CAN FD length, and every valid length has a code. */
  lemma DlcLengthOnto(len: nat)
    ensures IsFdLength(len) <==> exists d :: 0 <= d < 16 && DlcLength(d) == len
  {
    if IsFdLength(len) {
      var d := if len <= 8 then len else if len == 12 then 9 else if len == 16 then 10
               else if len == 20 then 11 else if len == 24 then 12 else if len == 32 then 13
               else if len == 48 then 14 else 15;
      assert DlcLength(d) == len;
    }
  }

  /** Up to 8 bytes the code is the byte count itself. */
  lemma BytesToDlcExact(n: uint8)
    requires n <= 8
    ensures BytesToDlc(n) == n
    ensures DlcLength(BytesToDlc(n)) == n
  {
  }

  /** The encoder is monotone: a longer payload never gets a smaller code. */
  lemma BytesToDlcMonotone(n: uint8, m: uint8)
    requires n <= m
    ensures BytesToDlc(n) <= BytesToDlc(m)
  {
  }

  /**
   * For a payload that fits a CAN FD frame (at most 64 bytes), the returned code is the
   * smallest code whose length holds the payload: its length is at least `n`, and every
   * smaller code is too short.
   */
  lemma BytesToDlcSmallestCovering(n: uint8)
    requires n <= 64
    ensures DlcLength(BytesToDlc(n)) >= n
    ensures forall d :: 0 <= d < BytesToDlc(n) ==> DlcLength(d) < n
  {
    var dlc := BytesToDlc(n);
    if dlc > 0 {
      assert DlcLength(dlc - 1) < n;
      forall d | 0 <= d < dlc - 1
        ensures DlcLength(d) < n
      {
        DlcLengthStrictlyIncreasing(d, dlc - 1);
      }
    }
  }

  /**
   * There is no error path: every length above 48 (including lengths above 64, which no
   * CAN FD frame can carry) is encoded as 15, the 64-byte code.
   */
  lemma BytesToDlcSaturates(n: uint8)
    requires n > 48
    ensures BytesToDlc(n) == 15
    ensures n > 64 ==> DlcLength(BytesToDlc(n)) < n
  {
  }
}
