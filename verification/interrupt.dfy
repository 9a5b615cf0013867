/**
 * The CAN receive interrupt flag (src/interrupt.c): a GPIO interrupt callback that raises a
 * pending flag on a falling edge of the controller's interrupt line, and the main loop's query
 * and reset of that flag. Interrupt context and the main loop are taken as interleaved calls.
 */
module Interrupt {

  /** `PIN_CAN_INT` (src/config.h): the GPIO wired to the controller's interrupt output. */
  const PinCanInt: nat := 6

  /** `GPIO_IRQ_EDGE_FALL`: the falling-edge bit of the Pico SDK's GPIO event mask. */
  const GpioIrqEdgeFall: bv32 := 0x4

  /** Whether a GPIO event raises the pending flag: the interrupt pin, with the falling-edge bit. */
  predicate RaisesFlag(gpio: nat, events: bv32)
  {
    gpio == PinCanInt && events & GpioIrqEdgeFall != 0
  }

  /**
   * The module state: `can_rx_pending_bool`, initially false; `can_rx_irq_pin`, initially -1
   * and unused; and the pin the callback was registered on, if any.
   */
  class CanRxIrq {
    var pending: bool
    var irqPin: int
    var registeredPin: int

    constructor ()
      ensures !pending && irqPin == -1 && registeredPin == -1
    {
      pending, irqPin, registeredPin := false, -1, -1;
    }

    /**
     * `gpio_irq`. The flag is raised for a falling edge on the interrupt pin; the callback never
     * lowers it, so a raised flag stays raised and raising it again changes nothing.
     */
    method GpioIrq(gpio: nat, events: bv32)
      modifies this`pending
      ensures pending == (old(pending) || RaisesFlag(gpio, events))
      ensures pending == FlagAfter(old(pending), [(gpio, events)])
    {
      if gpio == PinCanInt && events & GpioIrqEdgeFall != 0 {
        pending := true;
      }
    }

    /**
     * `init_can_rx_irq`. The pin given is recorded, but the callback is registered on
     * `PIN_CAN_INT` whatever it is, and `gpio_irq` filters on `PIN_CAN_INT` too.
     */
    method InitCanRxIrq(pin: nat)
      modifies this`irqPin, this`registeredPin
      ensures irqPin == pin && registeredPin == PinCanInt
    {
      irqPin := pin;
      registeredPin := PinCanInt;
    }

    /** `can_rx_pending`: reads the flag and changes nothing. */
    method CanRxPending() returns (p: bool)
      ensures p == pending
    {
      p := pending;
    }

    /** `can_rx_pending_reset`. */
    method CanRxPendingReset()
      modifies this`pending
      ensures !pending
    {
      pending := false;
    }
  }

  /**
   * The flag after a run of GPIO events starting from `pending`: raised exactly when it was
   * already raised or one of the events raises it.
   */
  function FlagAfter(pending: bool, events: seq<(nat, bv32)>): (p: bool)
    decreases |events|
  {
    if events == [] then pending
    else FlagAfter(pending || RaisesFlag(events[0].0, events[0].1), events[1..])
  }

  /** A run of events raises the flag iff it was raised or some event is a falling edge on the pin. */
  lemma {:induction false} FlagAfterRaisedIff(pending: bool, events: seq<(nat, bv32)>)
    ensures FlagAfter(pending, events) <==>
              pending || exists i :: 0 <= i < |events| && RaisesFlag(events[i].0, events[i].1)
    decreases |events|
  {
    if events != [] {
      var rest := events[1..];
      FlagAfterRaisedIff(pending || RaisesFlag(events[0].0, events[0].1), rest);
      if exists i :: 0 <= i < |rest| && RaisesFlag(rest[i].0, rest[i].1) {
        var i :| 0 <= i < |rest| && RaisesFlag(rest[i].0, rest[i].1);
        assert events[i + 1] == rest[i];
      }
      if exists i :: 0 <= i < |events| && RaisesFlag(events[i].0, events[i].1) {
        var i :| 0 <= i < |events| && RaisesFlag(events[i].0, events[i].1);
        if i > 0 {
          assert rest[i - 1] == events[i];
        }
      }
    }
  }

  /** Events on other pins, or without the falling-edge bit, leave the flag as it was. */
  lemma {:induction false} OtherEventsLeaveFlag(pending: bool, events: seq<(nat, bv32)>)
    requires forall i :: 0 <= i < |events| ==> events[i].0 != PinCanInt || events[i].1 & GpioIrqEdgeFall == 0
    ensures FlagAfter(pending, events) == pending
    decreases |events|
  {
    if events != [] {
      OtherEventsLeaveFlag(pending, events[1..]);
    }
  }
}
