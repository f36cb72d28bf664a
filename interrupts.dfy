/**
 * The interrupt service routines of interr.c, each taken as one atomic
 * step on the port records it touches. Register reads that the handlers
 * make (the GPIO input level, the TIM2 status flags, the capture register)
 * are parameters; clearing a timer's status flag is a register write the
 * model leaves out.
 */
module Interrupts {
  import opened Wrappers
  import opened Word
  import SystemPort
  import ButtonPort
  import UltrasoundPort

  /** SysTick_Handler: the millisecond counter advances by one, wrapping at 2^32. */
  method SysTickHandler(clock: SystemPort.Clock)
    modifies clock
    ensures clock.millis == Add(old(clock.millis), 1)
  {
    var now := clock.millis;
    clock.SetMillis(Add(now, 1));
  }

  /** The counter after n SysTick interrupts from m: m + n modulo 2^32, so it wraps every 2^32 ms (about 49.7 days). */
  function Ticked(m: u32, n: nat): (r: u32)
    ensures r == (m + n) % WORD
    decreases n
  {
    if n == 0 then m else Add(Ticked(m, n - 1), 1)
  }

  /**
   * The parking button's record after EXTI15_10_IRQHandler: when the line is
   * pending the pressed flag becomes the complement of the input level (the
   * button pulls the line low when pressed); otherwise nothing changes.
   */
  function OnExti(hw: seq<ButtonPort.ButtonHw>, pending: bv32, level: bool): (r: seq<ButtonPort.ButtonHw>)
    requires |hw| == ButtonPort.NumButtons
    ensures |r| == |hw|
    ensures ButtonPort.GetPendingInterrupt(hw, ButtonPort.ParkingButtonId, pending) == Some(true) ==>
      ButtonPort.GetPressed(r, ButtonPort.ParkingButtonId) == Some(!level) &&
      r[0].port == hw[0].port && r[0].pin == hw[0].pin && r[0].pupdMode == hw[0].pupdMode
    ensures ButtonPort.GetPendingInterrupt(hw, ButtonPort.ParkingButtonId, pending) != Some(true) ==> r == hw
  {
    if ButtonPort.GetPendingInterrupt(hw, ButtonPort.ParkingButtonId, pending) == Some(true) then
      hw[ButtonPort.ParkingButtonId := hw[ButtonPort.ParkingButtonId].(flagPressed := !level)]
    else hw
  }

  /**
   * EXTI15_10_IRQHandler: update the parking button's pressed flag from
   * the input level if its line is pending, then clear the line. The clear
   * shifts 1 by the pin, so the pin must be below 32; being a read-modify-write
   * of a write-1-to-clear register, it clears every line pending on entry.
   */
  method Exti15To10Handler(buttons: ButtonPort.ButtonRegistry, exti: ButtonPort.Exti, level: bool)
    requires buttons.Valid() && buttons.buttons[ButtonPort.ParkingButtonId].pin < 32
    modifies buttons.buttons, exti
    ensures buttons.buttons[..] == OnExti(old(buttons.buttons[..]), old(exti.pending), level)
    ensures exti.pending == 0
    ensures ButtonPort.GetPendingInterrupt(buttons.buttons[..], ButtonPort.ParkingButtonId, exti.pending) == Some(false)
  {
    var id := ButtonPort.ParkingButtonId;
    var pending := ButtonPort.GetPendingInterrupt(buttons.buttons[..], id, exti.pending);
    if pending == Some(true) {
      if level {
        buttons.SetPressed(id, false);
      } else {
        buttons.SetPressed(id, true);
      }
    }
    buttons.ClearPendingInterrupt(id, exti);
  }

  /**
   * The rear sensor's record after TIM2_IRQHandler. An update event
   * counts one more echo-timer overflow. A capture event is taken only
   * while both echo ticks are still 0: it stores the captured tick as the
   * echo start and marks the echo as received. The end tick is never
   * written.
   */
  function OnTim2(r: UltrasoundPort.SensorHw, update: bool, capture: bool, tick: u32): (r': UltrasoundPort.SensorHw)
    ensures r'.echoOverflows == if update then Add(r.echoOverflows, 1) else r.echoOverflows
    ensures capture && r.echoInitTick == 0 && r.echoEndTick == 0 ==>
      r'.echoInitTick == tick && r'.echoReceived
    ensures !(capture && r.echoInitTick == 0 && r.echoEndTick == 0) ==>
      r'.echoInitTick == r.echoInitTick && r'.echoReceived == r.echoReceived
    ensures r'.echoEndTick == r.echoEndTick
    ensures r'.triggerReady == r.triggerReady && r'.triggerEnd == r.triggerEnd
    ensures r'.triggerPort == r.triggerPort && r'.echoPort == r.echoPort
    ensures r'.triggerPin == r.triggerPin && r'.echoPin == r.echoPin
  {
    var counted := if update then r.(echoOverflows := Add(r.echoOverflows, 1)) else r;
    if capture && counted.echoInitTick == 0 && counted.echoEndTick == 0 then
      counted.(echoInitTick := tick, echoReceived := true)
    else counted
  }

  /**
   * TIM2_IRQHandler: `update` and `capture` are the UIF and CC2IF flags of
   * TIM2->SR on entry and `tick` is TIM2->CCR2.
   */
  method Tim2Handler(sensors: UltrasoundPort.SensorRegistry, update: bool, capture: bool, tick: u32)
    requires sensors.Valid()
    modifies sensors.sensors
    ensures sensors.sensors[..] ==
      old(sensors.sensors[..])[UltrasoundPort.RearParkingSensorId :=
        OnTim2(old(sensors.sensors[UltrasoundPort.RearParkingSensorId]), update, capture, tick)]
  {
    var id := UltrasoundPort.RearParkingSensorId;
    if update {
      var overflows := Add(sensors.sensors[id].echoOverflows, 1);
      sensors.SetEchoOverflows(id, overflows);
    }
    if capture {
      var rec := sensors.sensors[id];
      if rec.echoInitTick == 0 && rec.echoEndTick == 0 {
        sensors.SetEchoInitTick(id, tick);
        sensors.SetEchoReceived(id, true);
      }
    }
  }

  /**
   * From a record with its echo ticks reset, one capture at a nonzero tick
   * satisfies both check_echo_init and check_echo_received, and every later
   * capture leaves the start tick alone.
   */
  lemma FirstCaptureWins(r: UltrasoundPort.SensorHw, t1: u32, t2: u32, update: bool)
    requires r.echoInitTick == 0 && r.echoEndTick == 0 && t1 > 0
    ensures OnTim2(r, false, true, t1).echoInitTick > 0
    ensures OnTim2(r, false, true, t1).echoReceived
    ensures OnTim2(OnTim2(r, false, true, t1), update, true, t2).echoInitTick == t1
  {
  }

  /**
   * A capture at tick 0 is not remembered as a start: the record still reads
   * as reset, so the next capture is taken in its place.
   */
  lemma CaptureAtZeroIsOverwritten(r: UltrasoundPort.SensorHw, t2: u32)
    requires r.echoInitTick == 0 && r.echoEndTick == 0
    ensures OnTim2(OnTim2(r, false, true, 0), false, true, t2).echoInitTick == t2
  {
  }

  /** However many TIM2 events arrive, a zero end tick stays zero. */
  function OnTim2Events(r: UltrasoundPort.SensorHw, events: seq<(bool, bool, u32)>): UltrasoundPort.SensorHw
    decreases |events|
  {
    if events == [] then r
    else OnTim2Events(OnTim2(r, events[0].0, events[0].1, events[0].2), events[1..])
  }

  lemma {:induction false} EndTickNeverSet(r: UltrasoundPort.SensorHw, events: seq<(bool, bool, u32)>)
    ensures OnTim2Events(r, events).echoEndTick == r.echoEndTick
    decreases |events|
  {
    if events != [] {
      EndTickNeverSet(OnTim2(r, events[0].0, events[0].1, events[0].2), events[1..]);
    }
  }

  /** TIM3_IRQHandler: the trigger pulse has ended. */
  method Tim3Handler(sensors: UltrasoundPort.SensorRegistry)
    requires sensors.Valid()
    modifies sensors.sensors
    ensures sensors.sensors[..] ==
      old(sensors.sensors[..])[UltrasoundPort.RearParkingSensorId :=
        old(sensors.sensors[UltrasoundPort.RearParkingSensorId]).(triggerEnd := true)]
    ensures UltrasoundPort.GetTriggerEnd(sensors.sensors[..], UltrasoundPort.RearParkingSensorId) == Some(true)
  {
    sensors.SetTriggerEnd(UltrasoundPort.RearParkingSensorId, true);
  }

  /**
   * TIM5_IRQHandler: a new measurement may start. The flag is set on the
   * record whose id is PORT_PARKING_BUTTON_ID; that constant is 0, the
   * rear sensor's id, so it is the rear sensor's trigger-ready flag.
   */
  method Tim5Handler(sensors: UltrasoundPort.SensorRegistry)
    requires sensors.Valid()
    modifies sensors.sensors
    ensures sensors.sensors[..] ==
      old(sensors.sensors[..])[ButtonPort.ParkingButtonId :=
        old(sensors.sensors[ButtonPort.ParkingButtonId]).(triggerReady := true)]
    ensures UltrasoundPort.GetTriggerReady(sensors.sensors[..], UltrasoundPort.RearParkingSensorId) == Some(true)
  {
    sensors.SetTriggerReady(ButtonPort.ParkingButtonId, true);
  }
}
