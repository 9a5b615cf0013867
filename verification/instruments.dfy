/**
 * The instruments poll gate (src/drivers/instruments/instruments.c): a deadline that lets the
 * sensor poll run at most once per second. Times are microseconds since boot, as the Pico SDK's
 * `absolute_time_t` counts them; the bus and sensor set-up and the sensor poll itself are
 * abstract actions, recorded in a log of poll times.
 */
module Instruments {

  /** `INSTRUMENTS_POLL_INTERVAL_MS`, 1000 ms, in microseconds. */
  const PollIntervalUsec: nat := 1_000_000

  /**
   * Polls that are more than one interval apart, in order, and none of them within an interval
   * of the deadline `next`.
   */
  ghost predicate Spaced(polls: seq<nat>, next: nat)
  {
    && (forall i, j :: 0 <= i < j < |polls| ==> polls[i] + PollIntervalUsec < polls[j])
    && (forall i :: 0 <= i < |polls| ==> polls[i] + PollIntervalUsec <= next)
  }

  /**
   * The module state `next_poll_time`, the last clock reading the gate has seen, and the times
   * at which the sensor poll ran.
   */
  class PollGate {
    var nextPollTime: nat
    var clock: nat
    var polls: seq<nat>

    ghost predicate Valid()
      reads this
    {
      Spaced(polls, nextPollTime) && (forall i :: 0 <= i < |polls| ==> polls[i] <= clock)
    }

    /**
     * `instruments_init`: the first poll is due one interval after `now`, the clock read of
     * line 34.
     */
    constructor (now: nat)
      ensures nextPollTime == now + PollIntervalUsec && clock == now && polls == []
      ensures Valid()
    {
      nextPollTime := now + PollIntervalUsec;
      clock := now;
      polls := [];
    }

    /**
     * `instruments_task`. `now` is the clock read of line 40 and `later` the one of line 48,
     * taken after the poll; the clock does not run backwards. The poll runs exactly when `now`
     * is strictly past the deadline, and then the next deadline is one interval after `later`;
     * otherwise nothing changes.
     */
    method Task(now: nat, later: nat) returns (polled: bool)
      requires Valid()
      requires clock <= now <= later
      modifies this
      ensures Valid()
      ensures polled == (now > old(nextPollTime))
      ensures polled ==> nextPollTime == later + PollIntervalUsec && polls == old(polls) + [now] && clock == later
      ensures !polled ==> nextPollTime == old(nextPollTime) && polls == old(polls) && clock == now
    {
      polled := now > nextPollTime;
      if polled {
        polls := polls + [now];
        nextPollTime := later + PollIntervalUsec;
        clock := later;
      } else {
        clock := now;
      }
    }
  }

  /** Adding a poll strictly past the deadline keeps the polls spaced under the next deadline. */
  lemma SpacedAfterPoll(polls: seq<nat>, next: nat, now: nat, later: nat)
    requires Spaced(polls, next)
    requires now > next && now <= later
    ensures Spaced(polls + [now], later + PollIntervalUsec)
  {
  }
}
