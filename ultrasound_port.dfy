/**
 * The STM32F4 ultrasound port (stm32f4_ultrasound.c): a static array of
 * sensor records indexed by sensor id. Interrupts and the ultrasound FSM
 * share these flags and tick counters. Timer and GPIO register writes are
 * not part of the record and are not modelled.
 */
module UltrasoundPort {
  import opened Wrappers
  import opened Word

  /** PORT_REAR_PARKING_SENSOR_ID */
  const RearParkingSensorId: u32 := 0
  /** The array holds one record, for the rear parking sensor. */
  const NumSensors: nat := 1

  /** Address of a GPIO register block; the model never looks inside it. */
  type GpioPort = nat

  /** stm32f4_ultrasound_hw_t */
  datatype SensorHw = SensorHw(
    triggerPort: GpioPort,
    echoPort: GpioPort,
    triggerPin: u8,
    echoPin: u8,
    triggerReady: bool,
    triggerEnd: bool,
    echoReceived: bool,
    echoInitTick: u32,
    echoEndTick: u32,
    echoOverflows: u32)

  /** With the one-record array, only id 0 has a record. */
  lemma OnlyRearSensorExists(hw: seq<SensorHw>, id: u32)
    requires |hw| == NumSensors
    ensures Lookup(hw, id).Some? <==> id == RearParkingSensorId
  {
  }

  // The getters read through the lookup without testing it for NULL; for an
  // id without a record the model answers None (undefined behaviour in C).

  /** port_ultrasound_get_trigger_ready */
  function GetTriggerReady(hw: seq<SensorHw>, id: u32): (r: Option<bool>)
    ensures r.Some? <==> id < |hw|
    ensures r.Some? ==> r.value == hw[id].triggerReady
  {
    if id < |hw| then Some(hw[id].triggerReady) else None
  }

  /** port_ultrasound_get_trigger_end */
  function GetTriggerEnd(hw: seq<SensorHw>, id: u32): (r: Option<bool>)
    ensures r.Some? <==> id < |hw|
    ensures r.Some? ==> r.value == hw[id].triggerEnd
  {
    if id < |hw| then Some(hw[id].triggerEnd) else None
  }

  /** port_ultrasound_get_echo_received */
  function GetEchoReceived(hw: seq<SensorHw>, id: u32): (r: Option<bool>)
    ensures r.Some? <==> id < |hw|
    ensures r.Some? ==> r.value == hw[id].echoReceived
  {
    if id < |hw| then Some(hw[id].echoReceived) else None
  }

  /** port_ultrasound_get_echo_overflows */
  function GetEchoOverflows(hw: seq<SensorHw>, id: u32): (r: Option<u32>)
    ensures r.Some? <==> id < |hw|
    ensures r.Some? ==> r.value == hw[id].echoOverflows
  {
    if id < |hw| then Some(hw[id].echoOverflows) else None
  }

  /** port_ultrasound_get_echo_init_tick */
  function GetEchoInitTick(hw: seq<SensorHw>, id: u32): (r: Option<u32>)
    ensures r.Some? <==> id < |hw|
    ensures r.Some? ==> r.value == hw[id].echoInitTick
  {
    if id < |hw| then Some(hw[id].echoInitTick) else None
  }

  /** port_ultrasound_get_echo_end_tick */
  function GetEchoEndTick(hw: seq<SensorHw>, id: u32): (r: Option<u32>)
    ensures r.Some? <==> id < |hw|
    ensures r.Some? ==> r.value == hw[id].echoEndTick
  {
    if id < |hw| then Some(hw[id].echoEndTick) else None
  }

  /** The flag part of port_ultrasound_init. */
  function Initialised(r: SensorHw): (r': SensorHw)
    ensures r'.echoInitTick == 0 && r'.echoEndTick == 0 && r'.echoOverflows == 0
    ensures !r'.triggerEnd && !r'.echoReceived && r'.triggerReady
    ensures r'.triggerPort == r.triggerPort && r'.echoPort == r.echoPort
    ensures r'.triggerPin == r.triggerPin && r'.echoPin == r.echoPin
  {
    r.(echoEndTick := 0, echoInitTick := 0, triggerEnd := false, echoReceived := false,
       triggerReady := true, echoOverflows := 0)
  }

  /** port_ultrasound_reset_echo_ticks: clears the echo capture, keeps the trigger flags. */
  function EchoTicksReset(r: SensorHw): (r': SensorHw)
    ensures r'.echoInitTick == 0 && r'.echoEndTick == 0 && r'.echoOverflows == 0 && !r'.echoReceived
    ensures r'.triggerReady == r.triggerReady && r'.triggerEnd == r.triggerEnd
    ensures r' == r.(echoInitTick := 0, echoEndTick := 0, echoOverflows := 0, echoReceived := false)
  {
    r.(echoInitTick := 0, echoEndTick := 0, echoOverflows := 0, echoReceived := false)
  }

  /** port_ultrasound_start_measurement on the records: only a valid id's trigger_ready is cleared. */
  function AfterStartMeasurement(hw: seq<SensorHw>, id: u32): (hw': seq<SensorHw>)
    ensures |hw'| == |hw|
    ensures id >= |hw| ==> hw' == hw
    ensures id < |hw| ==> hw' == hw[id := hw[id].(triggerReady := false)]
  {
    match Lookup(hw, id)
    case Some(r) => hw[id := r.(triggerReady := false)]
    case None => hw
  }

  /** port_ultrasound_stop_ultrasound on the records: a valid id's echo ticks are reset, nothing else changes. */
  function AfterStop(hw: seq<SensorHw>, id: u32): (hw': seq<SensorHw>)
    ensures |hw'| == |hw|
    ensures id >= |hw| ==> hw' == hw
    ensures id < |hw| ==> hw' == hw[id := EchoTicksReset(hw[id])]
  {
    match Lookup(hw, id)
    case Some(r) => hw[id := EchoTicksReset(r)]
    case None => hw
  }

  /** The static ultrasound_arr of stm32f4_ultrasound.c. */
  class SensorRegistry {
    const sensors: array<SensorHw>

    ghost predicate Valid()
    {
      sensors.Length == NumSensors
    }

    /** The static initialiser: every flag false and every tick 0. */
    constructor (triggerPort: GpioPort, triggerPin: u8, echoPort: GpioPort, echoPin: u8)
      ensures Valid() && fresh(sensors)
      ensures sensors[RearParkingSensorId] ==
        SensorHw(triggerPort, echoPort, triggerPin, echoPin, false, false, false, 0, 0, 0)
    {
      sensors := new SensorHw[NumSensors](_ =>
        SensorHw(triggerPort, echoPort, triggerPin, echoPin, false, false, false, 0, 0, 0));
    }

    /** port_ultrasound_init (flag part): the id must have a record. */
    method Init(id: u32)
      requires id < sensors.Length
      modifies sensors
      ensures sensors[..] == old(sensors[..])[id := Initialised(old(sensors[id]))]
    {
      sensors[id] := Initialised(sensors[id]);
    }

    /** stm32f4_ultrasound_set_new_trigger_gpio */
    method SetNewTriggerGpio(id: u32, port: GpioPort, pin: u8)
      requires id < sensors.Length
      modifies sensors
      ensures sensors[..] == old(sensors[..])[id := old(sensors[id]).(triggerPort := port, triggerPin := pin)]
    {
      sensors[id] := sensors[id].(triggerPort := port, triggerPin := pin);
    }

    /** stm32f4_ultrasound_set_new_echo_gpio */
    method SetNewEchoGpio(id: u32, port: GpioPort, pin: u8)
      requires id < sensors.Length
      modifies sensors
      ensures sensors[..] == old(sensors[..])[id := old(sensors[id]).(echoPort := port, echoPin := pin)]
    {
      sensors[id] := sensors[id].(echoPort := port, echoPin := pin);
    }

    /** port_ultrasound_start_measurement (flag part): tests the id first. */
    method StartMeasurement(id: u32)
      modifies sensors
      ensures sensors[..] == AfterStartMeasurement(old(sensors[..]), id)
    {
      if id < sensors.Length {
        sensors[id] := sensors[id].(triggerReady := false);
      }
    }

    /** port_ultrasound_reset_echo_ticks: the id must have a record. */
    method ResetEchoTicks(id: u32)
      requires id < sensors.Length
      modifies sensors
      ensures sensors[..] == old(sensors[..])[id := EchoTicksReset(old(sensors[id]))]
    {
      sensors[id] := EchoTicksReset(sensors[id]);
    }

    /** port_ultrasound_stop_ultrasound (flag part): tests the id first. */
    method StopUltrasound(id: u32)
      modifies sensors
      ensures sensors[..] == AfterStop(old(sensors[..]), id)
    {
      if id < sensors.Length {
        ResetEchoTicks(id);
      }
    }

    // The setters write through the lookup without testing it; the id must have a record.

    /** port_ultrasound_set_echo_end_tick */
    method SetEchoEndTick(id: u32, tick: u32)
      requires id < sensors.Length
      modifies sensors
      ensures sensors[..] == old(sensors[..])[id := old(sensors[id]).(echoEndTick := tick)]
      ensures GetEchoEndTick(sensors[..], id) == Some(tick)
    {
      sensors[id] := sensors[id].(echoEndTick := tick);
    }

    /** port_ultrasound_set_echo_init_tick */
    method SetEchoInitTick(id: u32, tick: u32)
      requires id < sensors.Length
      modifies sensors
      ensures sensors[..] == old(sensors[..])[id := old(sensors[id]).(echoInitTick := tick)]
      ensures GetEchoInitTick(sensors[..], id) == Some(tick)
    {
      sensors[id] := sensors[id].(echoInitTick := tick);
    }

    /** port_ultrasound_set_echo_received */
    method SetEchoReceived(id: u32, received: bool)
      requires id < sensors.Length
      modifies sensors
      ensures sensors[..] == old(sensors[..])[id := old(sensors[id]).(echoReceived := received)]
      ensures GetEchoReceived(sensors[..], id) == Some(received)
    {
      sensors[id] := sensors[id].(echoReceived := received);
    }

    /** port_ultrasound_set_trigger_ready */
    method SetTriggerReady(id: u32, ready: bool)
      requires id < sensors.Length
      modifies sensors
      ensures sensors[..] == old(sensors[..])[id := old(sensors[id]).(triggerReady := ready)]
      ensures GetTriggerReady(sensors[..], id) == Some(ready)
    {
      sensors[id] := sensors[id].(triggerReady := ready);
    }

    /** port_ultrasound_set_trigger_end */
    method SetTriggerEnd(id: u32, end: bool)
      requires id < sensors.Length
      modifies sensors
      ensures sensors[..] == old(sensors[..])[id := old(sensors[id]).(triggerEnd := end)]
      ensures GetTriggerEnd(sensors[..], id) == Some(end)
    {
      sensors[id] := sensors[id].(triggerEnd := end);
    }

    /** port_ultrasound_set_echo_overflows */
    method SetEchoOverflows(id: u32, overflows: u32)
      requires id < sensors.Length
      modifies sensors
      ensures sensors[..] == old(sensors[..])[id := old(sensors[id]).(echoOverflows := overflows)]
      ensures GetEchoOverflows(sensors[..], id) == Some(overflows)
    {
      sensors[id] := sensors[id].(echoOverflows := overflows);
    }
  }
}
