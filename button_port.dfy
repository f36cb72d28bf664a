/**
 * The STM32F4 button port (stm32f4_button.c): a static array of button
 * records indexed by button id, and the EXTI pending register that the
 * button's edge interrupt sets.
 */
module ButtonPort {
  import opened Wrappers
  import opened Word

  /** PORT_PARKING_BUTTON_ID */
  const ParkingButtonId: u32 := 0
  /** STM32F4_PARKING_BUTTON_PIN */
  const ParkingButtonPin: u8 := 13
  /** The array holds one record, for the parking button. */
  const NumButtons: nat := 1

  /** Address of a GPIO register block; the model never looks inside it. */
  type GpioPort = nat

  /** stm32f4_button_hw_t */
  datatype ButtonHw = ButtonHw(port: GpioPort, pin: u8, pupdMode: u8, flagPressed: bool)

  /** With the one-record array, only id 0 has a record. */
  lemma OnlyParkingButtonExists(hw: seq<ButtonHw>, id: u32)
    requires |hw| == NumButtons
    ensures Lookup(hw, id).Some? <==> id == ParkingButtonId
  {
  }

  /**
   * port_button_get_pressed: the stored pressed flag. For an id without a
   * record the C code reads through NULL; the model answers None.
   */
  function GetPressed(hw: seq<ButtonHw>, id: u32): (r: Option<bool>)
    ensures r.Some? <==> id < |hw|
    ensures r.Some? ==> r.value == hw[id].flagPressed
  {
    match Lookup(hw, id)
    case Some(b) => Some(b.flagPressed)
    case None => None
  }

  /** The EXTI pending-register bit of a pin below 32. */
  function PinMask(pin: u8): bv32
    requires pin < 32
  {
    (1 as bv32) << pin
  }

  /** The pending-register bit of line `pin` is set. */
  predicate LineSet(pending: bv32, pin: u8)
    requires pin < 32
  {
    pending & PinMask(pin) != 0
  }

  /**
   * port_button_get_pending_interrupt: whether the EXTI line of the
   * button's pin is pending. The pin is read before the NULL test, so an id
   * without a record is undefined (None); a pin of 32 or more is never
   * pending.
   */
  function GetPendingInterrupt(hw: seq<ButtonHw>, id: u32, pending: bv32): (r: Option<bool>)
    ensures r.Some? <==> id < |hw|
    ensures id < |hw| && hw[id].pin >= 32 ==> r == Some(false)
    ensures r == Some(true) ==> hw[id].pin < 32 && LineSet(pending, hw[id].pin)
    ensures id < |hw| && hw[id].pin < 32 ==> r == Some(LineSet(pending, hw[id].pin))
  {
    match Lookup(hw, id)
    case None => None
    case Some(b) =>
      if b.pin >= 32 then Some(false)
      else Some(LineSet(pending, b.pin))
  }

  /**
   * A write of `written` to the pending register, whose bits are cleared by
   * writing 1: every line written 1 stops being pending, every line written
   * 0 keeps its bit.
   */
  function WriteOneToClear(pending: bv32, written: bv32): (r: bv32)
    ensures r & written == 0
    ensures r & !written == pending & !written
  {
    pending & !written
  }

  /**
   * The read-modify-write `PR |= mask` writes back a 1 for every line pending
   * on entry as well as for the mask, so it leaves no line pending at all.
   */
  lemma OrWriteClearsEveryLine(pending: bv32, mask: bv32)
    ensures WriteOneToClear(pending, pending | mask) == 0
  {
  }

  /** A line whose bit is clear is reported as not pending. */
  lemma NotPendingWhenBitClear(hw: seq<ButtonHw>, id: u32, pending: bv32)
    requires id < |hw| && hw[id].pin < 32
    requires pending & PinMask(hw[id].pin) == 0
    ensures GetPendingInterrupt(hw, id, pending) == Some(false)
  {
  }

  /** The EXTI pending register (EXTI->PR), one bit per line. */
  class Exti {
    var pending: bv32

    constructor ()
      ensures pending == 0
    {
      pending := 0;
    }
  }

  /** The static buttons_arr of stm32f4_button.c. */
  class ButtonRegistry {
    const buttons: array<ButtonHw>

    ghost predicate Valid()
    {
      buttons.Length == NumButtons
    }

    /** The static initialiser: the parking button on `port`, pin 13, flag cleared. */
    constructor (port: GpioPort, pupdMode: u8)
      ensures Valid() && fresh(buttons)
      ensures buttons[ParkingButtonId] == ButtonHw(port, ParkingButtonPin, pupdMode, false)
    {
      buttons := new ButtonHw[NumButtons](_ => ButtonHw(port, ParkingButtonPin, pupdMode, false));
    }

    /** port_button_set_pressed: the id must have a record (the C code writes through the lookup unchecked). */
    method SetPressed(id: u32, pressed: bool)
      requires id < buttons.Length
      modifies buttons
      ensures buttons[..] == old(buttons[..])[id := old(buttons[id]).(flagPressed := pressed)]
      ensures GetPressed(buttons[..], id) == Some(pressed)
    {
      buttons[id] := buttons[id].(flagPressed := pressed);
    }

    /** stm32f4_button_set_new_gpio: replaces the port and pin only. */
    method SetNewGpio(id: u32, port: GpioPort, pin: u8)
      requires id < buttons.Length
      modifies buttons
      ensures buttons[..] == old(buttons[..])[id := old(buttons[id]).(port := port, pin := pin)]
      ensures buttons[id].pupdMode == old(buttons[id].pupdMode)
      ensures buttons[id].flagPressed == old(buttons[id].flagPressed)
    {
      buttons[id] := buttons[id].(port := port, pin := pin);
    }

    /**
     * port_button_clear_pending_interrupt: `EXTI->PR |= 1 << pin`. The
     * register is cleared by writing 1, so the write clears the button's
     * line together with every other line pending on entry.
     */
    method ClearPendingInterrupt(id: u32, exti: Exti)
      requires id < buttons.Length && buttons[id].pin < 32
      modifies exti
      ensures exti.pending == WriteOneToClear(old(exti.pending), old(exti.pending) | PinMask(buttons[id].pin))
      ensures exti.pending == 0
      ensures GetPendingInterrupt(buttons[..], id, exti.pending) == Some(false)
    {
      var written := exti.pending | PinMask(buttons[id].pin);
      exti.pending := WriteOneToClear(exti.pending, written);
      OrWriteClearsEveryLine(old(exti.pending), PinMask(buttons[id].pin));
      NotPendingWhenBitClear(buttons[..], id, exti.pending);
    }
  }
}
