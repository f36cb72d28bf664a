/**
 * The ultrasound ranging machine of fsm_ultrasound.c: trigger, wait for the
 * echo, convert the echo time to centimetres and keep a five-sample window
 * whose median is reported. The guards read the sensor record of the
 * ultrasound port; the actions start and stop measurements and store
 * distances.
 *
 * The model follows the code as written, including where it departs from
 * its comments: check_on and check_trigger_end use the status flag as the
 * sensor id, check_off returns the status itself, the write index is never
 * advanced, and get_distance never clears the new-measurement flag.
 */
module FsmUltrasound {
  import opened Wrappers
  import opened Word
  import Fsm
  import Sorting
  import UltrasoundPort

  /** FSM_ULTRASOUND_NUM_MEASUREMENTS */
  const NumMeasurements: nat := 5
  /** SPEED_OF_SOUND_MS */
  const SpeedOfSoundMs: u32 := 343
  /** The largest distance Sample can produce: (2^32 - 1) / 20000. */
  const MaxSample: u32 := 214748

  datatype State = WaitStart | TriggerStart | WaitEchoStart | WaitEchoEnd | SetDistance

  datatype Guard =
    | CheckOnGuard
    | CheckTriggerEndGuard
    | CheckEchoInitGuard
    | CheckEchoReceivedGuard
    | CheckNewMeasurementGuard
    | CheckOffGuard

  /** The actions of the table; check_echo_init also appears as an action, where it only reads. */
  datatype Action =
    | DoStartMeasurementAction
    | CheckEchoInitAction
    | DoSetDistanceAction
    | DoStopMeasurementAction

  /** fsm_trans_ultrasound, with its sentinel row. */
  const Table: seq<Fsm.Row<State, Guard, Action>> := [
    Fsm.Trans(WaitStart, CheckOnGuard, TriggerStart, Some(DoStartMeasurementAction)),
    Fsm.Trans(TriggerStart, CheckTriggerEndGuard, WaitEchoStart, Some(CheckEchoInitAction)),
    Fsm.Trans(WaitEchoStart, CheckEchoInitGuard, WaitEchoEnd, None),
    Fsm.Trans(WaitEchoEnd, CheckEchoReceivedGuard, SetDistance, Some(DoSetDistanceAction)),
    Fsm.Trans(SetDistance, CheckNewMeasurementGuard, TriggerStart, Some(DoStartMeasurementAction)),
    Fsm.Trans(SetDistance, CheckOffGuard, WaitStart, Some(DoStopMeasurementAction)),
    Fsm.End
  ]

  lemma TableWellFormed()
    ensures Fsm.WellFormed(Table)
    ensures Fsm.Initial(Table) == WaitStart
  {
  }

  /** The fields of fsm_ultrasound_t, with distance_arr as `buf`. */
  datatype Vars = Vars(
    state: State,
    status: bool,
    newMeasurement: bool,
    id: u32,
    buf: seq<u32>,
    idx: u32,
    cm: u32)

  /** The machine together with the sensor records of the port it reads and writes. */
  datatype World = World(fsm: Vars, hw: seq<UltrasoundPort.SensorHw>)

  /** The port array has its one record, the machine's id has a record, and the window holds five samples of at most MaxSample. */
  ghost predicate Inv(w: World)
  {
    |w.hw| == UltrasoundPort.NumSensors &&
    w.fsm.id < |w.hw| &&
    |w.fsm.buf| == NumMeasurements &&
    forall i :: 0 <= i < |w.fsm.buf| ==> w.fsm.buf[i] <= MaxSample
  }

  /** A C bool passed where a uint32_t id is expected. */
  function BoolAsId(b: bool): u32
  {
    if b then 1 else 0
  }

  /** check_on: the trigger-ready flag of the sensor whose id is the status flag. */
  function CheckOn(v: Vars, hw: seq<UltrasoundPort.SensorHw>): (r: Option<bool>)
    ensures v.status ==> r == UltrasoundPort.GetTriggerReady(hw, 1)
    ensures !v.status ==> r == UltrasoundPort.GetTriggerReady(hw, 0)
  {
    UltrasoundPort.GetTriggerReady(hw, BoolAsId(v.status))
  }

  /** check_off: the status flag itself, not its negation. */
  function CheckOff(v: Vars): (r: bool)
    ensures r <==> v.status
  {
    v.status
  }

  /** check_trigger_end: trigger-ready is false, read (like check_on) at the id given by the status flag. */
  function CheckTriggerEnd(v: Vars, hw: seq<UltrasoundPort.SensorHw>): (r: Option<bool>)
    ensures r.Some? <==> CheckOn(v, hw).Some?
    ensures r.Some? ==> r.value == !CheckOn(v, hw).value
  {
    match UltrasoundPort.GetTriggerReady(hw, BoolAsId(v.status))
    case Some(ready) => Some(!ready)
    case None => None
  }

  /** check_echo_init: the echo start tick is positive. */
  function CheckEchoInit(v: Vars, hw: seq<UltrasoundPort.SensorHw>): (r: Option<bool>)
    ensures r.Some? <==> v.id < |hw|
    ensures r.Some? ==> (r.value <==> hw[v.id].echoInitTick > 0)
  {
    match UltrasoundPort.GetEchoInitTick(hw, v.id)
    case Some(tick) => Some(tick > 0)
    case None => None
  }

  /** check_echo_received */
  function CheckEchoReceived(v: Vars, hw: seq<UltrasoundPort.SensorHw>): (r: Option<bool>)
    ensures r.Some? <==> v.id < |hw|
    ensures r.Some? ==> r.value == hw[v.id].echoReceived
  {
    UltrasoundPort.GetEchoReceived(hw, v.id)
  }

  /** check_new_measurement: the trigger-ready flag of the machine's own sensor. */
  function CheckNewMeasurement(v: Vars, hw: seq<UltrasoundPort.SensorHw>): (r: Option<bool>)
    ensures r.Some? <==> v.id < |hw|
    ensures r.Some? ==> r.value == hw[v.id].triggerReady
  {
    UltrasoundPort.GetTriggerReady(hw, v.id)
  }

  function Verdict(g: Guard, w: World): Option<bool>
  {
    match g
    case CheckOnGuard => CheckOn(w.fsm, w.hw)
    case CheckTriggerEndGuard => CheckTriggerEnd(w.fsm, w.hw)
    case CheckEchoInitGuard => CheckEchoInit(w.fsm, w.hw)
    case CheckEchoReceivedGuard => CheckEchoReceived(w.fsm, w.hw)
    case CheckNewMeasurementGuard => CheckNewMeasurement(w.fsm, w.hw)
    case CheckOffGuard => Some(CheckOff(w.fsm))
  }

  /** The guards' verdicts for one firing. */
  function Verdicts(w: World): Guard -> Option<bool>
  {
    g => Verdict(g, w)
  }

  /**
   * The distance sample of do_set_distance: the uint32_t difference
   * init tick minus end tick, times 343, divided by 2 * 10000, every step
   * in uint32_t. It is never more than MaxSample.
   */
  function Sample(initTick: u32, endTick: u32): (d: u32)
    ensures d <= MaxSample
    ensures d * 20000 <= Mul(Sub(initTick, endTick), SpeedOfSoundMs) < (d + 1) * 20000
  {
    Mul(Sub(initTick, endTick), SpeedOfSoundMs) / 20000
  }

  /**
   * The subtraction runs the wrong way: an echo that starts at tick 100 and
   * ends at tick 1100 (1000 ticks, about 17 cm) yields 214731 cm.
   */
  lemma SampleOfOrderedTicksWraps()
    ensures Sample(100, 1100) == 214731
    ensures (1100 - 100) * 343 / 20000 == 17
  {
  }

  /**
   * The window part of do_set_distance. With the write index at or past 5
   * the buffer is sorted, its middle element becomes the distance, the
   * new-measurement flag is set and the index is reduced modulo 5; then the
   * sample is written at the index. Below 5 only the write happens: the
   * index is not advanced.
   */
  function StoreSample(v: Vars, sample: u32): (r: Vars)
    requires |v.buf| == NumMeasurements
    ensures |r.buf| == NumMeasurements
    ensures r.idx < NumMeasurements && r.buf[r.idx] == sample
    ensures r.state == v.state && r.status == v.status && r.id == v.id
  {
    if v.idx >= NumMeasurements then
      var sorted := Sorting.SortSeq(v.buf);
      var i := v.idx % NumMeasurements;
      v.(buf := sorted[i := sample], idx := i, cm := sorted[NumMeasurements / 2], newMeasurement := true)
    else
      v.(buf := v.buf[v.idx := sample])
  }

  /** Below capacity the sample overwrites slot idx and nothing else changes: the index is not advanced. */
  lemma StoreSampleBelowCapacity(v: Vars, sample: u32)
    requires |v.buf| == NumMeasurements && v.idx < NumMeasurements
    ensures var r := StoreSample(v, sample);
      r.idx == v.idx && r.cm == v.cm && r.newMeasurement == v.newMeasurement &&
      (forall i :: 0 <= i < NumMeasurements && i != v.idx as int ==> r.buf[i] == v.buf[i])
  {
  }

  /**
   * At capacity the reported distance is a median of the window before the
   * write, the flag is raised, and the buffer is the sorted window with the
   * sample in slot idx mod 5.
   */
  lemma StoreSampleAtCapacity(v: Vars, sample: u32)
    requires |v.buf| == NumMeasurements && v.idx >= NumMeasurements
    ensures var r := StoreSample(v, sample);
      r.idx == v.idx % NumMeasurements as u32 && r.newMeasurement &&
      Sorting.IsMedian(r.cm, v.buf) &&
      (forall i :: 0 <= i < NumMeasurements && i != r.idx as int ==> r.buf[i] == Sorting.SortSeq(v.buf)[i])
  {
    Sorting.MiddleOfSortedIsMedian(v.buf);
  }

  /** Sorting keeps every element at most MaxSample. */
  lemma SortKeepsBound(s: seq<u32>)
    requires forall i :: 0 <= i < |s| ==> s[i] <= MaxSample
    ensures forall i :: 0 <= i < |Sorting.SortSeq(s)| ==> Sorting.SortSeq(s)[i] <= MaxSample
  {
    var t := Sorting.SortSeq(s);
    forall i | 0 <= i < |t|
      ensures t[i] <= MaxSample
    {
      assert t[i] in multiset(t);
      assert t[i] in s;
    }
  }

  /** A window of samples of at most MaxSample stays one. */
  lemma StoreSampleKeepsBound(v: Vars, sample: u32)
    requires |v.buf| == NumMeasurements && sample <= MaxSample
    requires forall i :: 0 <= i < |v.buf| ==> v.buf[i] <= MaxSample
    ensures forall i :: 0 <= i < NumMeasurements ==> StoreSample(v, sample).buf[i] <= MaxSample
  {
    if v.idx >= NumMeasurements {
      SortKeepsBound(v.buf);
    }
  }

  /** A run of do_set_distance calls, one per sample. */
  function Feed(v: Vars, samples: seq<u32>): (r: Vars)
    requires |v.buf| == NumMeasurements
    ensures |r.buf| == NumMeasurements
    decreases |samples|
  {
    if samples == [] then v else Feed(StoreSample(v, samples[0]), samples[1..])
  }

  /**
   * Below capacity the index never moves, so however many samples arrive,
   * the median branch is never reached: the distance and the
   * new-measurement flag keep their values.
   */
  lemma {:induction false} IndexNeverAdvances(v: Vars, samples: seq<u32>)
    requires |v.buf| == NumMeasurements && v.idx < NumMeasurements
    ensures Feed(v, samples).idx == v.idx
    ensures Feed(v, samples).cm == v.cm
    ensures Feed(v, samples).newMeasurement == v.newMeasurement
    decreases |samples|
  {
    if samples != [] {
      IndexNeverAdvances(StoreSample(v, samples[0]), samples[1..]);
    }
  }

  /** Below capacity every sample goes to the same slot, so only the latest one survives there. */
  lemma {:induction false} LatestSampleWins(v: Vars, samples: seq<u32>)
    requires |v.buf| == NumMeasurements && v.idx < NumMeasurements as u32 && samples != []
    ensures Feed(v, samples).buf[v.idx] == samples[|samples| - 1]
    ensures forall i :: 0 <= i < NumMeasurements && i != v.idx as int ==> Feed(v, samples).buf[i] == v.buf[i]
    decreases |samples|
  {
    var v' := StoreSample(v, samples[0]);
    StoreSampleBelowCapacity(v, samples[0]);
    if |samples| > 1 {
      LatestSampleWins(v', samples[1..]);
    }
  }

  /**
   * Five samples 10, 12, 11, 13, 9 after start: every one lands in slot 0,
   * so the window ends as 9, 0, 0, 0, 0, the reported distance stays 0 and
   * no measurement is flagged.
   */
  lemma FiveSamplesAfterStartGiveNoMedian(v: Vars, samples: seq<u32>)
    requires v.buf == [0, 0, 0, 0, 0] && v.idx == 0 && v.cm == 0 && !v.newMeasurement
    requires samples == [10, 12, 11, 13, 9]
    ensures Feed(v, samples).cm == 0
    ensures !Feed(v, samples).newMeasurement
    ensures Feed(v, samples).buf == [9, 0, 0, 0, 0]
  {
    IndexNeverAdvances(v, samples);
    LatestSampleWins(v, samples);
  }

  /** do_start_measurement: port_ultrasound_start_measurement on the machine's sensor. */
  function StartedMeasurement(w: World): (r: World)
    ensures r.fsm == w.fsm
    ensures r.hw == UltrasoundPort.AfterStartMeasurement(w.hw, w.fsm.id)
  {
    w.(hw := UltrasoundPort.AfterStartMeasurement(w.hw, w.fsm.id))
  }

  /** do_stop_measurement: port_ultrasound_stop_ultrasound on the machine's sensor. */
  function StoppedMeasurement(w: World): (r: World)
    ensures r.fsm == w.fsm
    ensures r.hw == UltrasoundPort.AfterStop(w.hw, w.fsm.id)
  {
    w.(hw := UltrasoundPort.AfterStop(w.hw, w.fsm.id))
  }

  /** do_set_distance: store the sample computed from the echo ticks, then reset the echo ticks. */
  function DistanceSet(w: World): (r: World)
    requires Inv(w)
    ensures Inv(r)
    ensures r.fsm == StoreSample(w.fsm, Sample(w.hw[w.fsm.id].echoInitTick, w.hw[w.fsm.id].echoEndTick))
    ensures r.hw == w.hw[w.fsm.id := UltrasoundPort.EchoTicksReset(w.hw[w.fsm.id])]
  {
    var rec := w.hw[w.fsm.id];
    StoreSampleKeepsBound(w.fsm, Sample(rec.echoInitTick, rec.echoEndTick));
    World(StoreSample(w.fsm, Sample(rec.echoInitTick, rec.echoEndTick)),
          w.hw[w.fsm.id := UltrasoundPort.EchoTicksReset(rec)])
  }

  function Perform(a: Option<Action>, w: World): (r: World)
    requires Inv(w)
    ensures Inv(r)
  {
    match a
    case Some(DoStartMeasurementAction) => StartedMeasurement(w)
    case Some(CheckEchoInitAction) => w
    case Some(DoSetDistanceAction) => DistanceSet(w)
    case Some(DoStopMeasurementAction) => StoppedMeasurement(w)
    case None => w
  }

  /** The decision of one firing. */
  function Decide(w: World): Fsm.Step
  {
    TableWellFormed();
    Fsm.Select(Table, w.fsm.state, Verdicts(w))
  }

  /** One fsm_fire of the ultrasound machine; an undefined guard leaves everything as it was. */
  function UltraFire(w: World): (r: World)
    requires Inv(w)
    ensures Inv(r)
  {
    TableWellFormed();
    match Decide(w)
    case Fired(k) =>
      var w' := Perform(Table[k].action, w);
      w'.(fsm := w'.fsm.(state := Table[k].dest))
    case _ => w
  }

  /** fsm_ultrasound_start on the model state. */
  function Started(w: World): (r: World)
    requires Inv(w)
    ensures Inv(r)
    ensures r.fsm == w.fsm.(status := true, idx := 0, cm := 0)
    ensures r.hw == w.hw[w.fsm.id := UltrasoundPort.EchoTicksReset(w.hw[w.fsm.id]).(triggerReady := true)]
  {
    World(w.fsm.(status := true, idx := 0, cm := 0),
          w.hw[w.fsm.id := UltrasoundPort.EchoTicksReset(w.hw[w.fsm.id]).(triggerReady := true)])
  }

  /** fsm_ultrasound_stop on the model state. */
  function Stopped(w: World): (r: World)
    requires Inv(w)
    ensures Inv(r)
    ensures r.fsm == w.fsm.(status := false)
    ensures r.hw == UltrasoundPort.AfterStop(w.hw, w.fsm.id)
  {
    World(w.fsm.(status := false), UltrasoundPort.AfterStop(w.hw, w.fsm.id))
  }

  /** A row leaving the current state, after only false guards, whose guard holds is taken. */
  lemma RowFires(w: World, k: nat)
    requires Inv(w) && k < |Table| - 1 && Table[k].origin == w.fsm.state
    requires Fsm.Passed(Table, w.fsm.state, Verdicts(w), 0, k)
    requires Verdict(Table[k].guard, w) == Some(true)
    ensures Decide(w) == Fsm.Fired(k)
    ensures UltraFire(w) ==
      var w' := Perform(Table[k].action, w); w'.(fsm := w'.fsm.(state := Table[k].dest))
  {
    TableWellFormed();
    Fsm.FirstTrueGuardFires(Table, w.fsm.state, Verdicts(w), 0, k);
  }

  /** If every row leaving the current state has a false guard, nothing changes. */
  lemma NoRowFires(w: World)
    requires Inv(w)
    requires Fsm.Passed(Table, w.fsm.state, Verdicts(w), 0, |Table| - 1)
    ensures Decide(w) == Fsm.Stayed
    ensures UltraFire(w) == w
  {
    TableWellFormed();
    Fsm.NoTrueGuardStays(Table, w.fsm.state, Verdicts(w), 0);
  }

  /**
   * WAIT_START: check_on reads sensor `status`. Once the sensor is started
   * (status true) that is id 1, which has no record, so the firing is
   * undefined and nothing changes; stopped, it reads sensor 0 and starts a
   * measurement when that sensor's trigger is ready.
   */
  lemma FireInWaitStart(w: World)
    requires Inv(w) && w.fsm.state == WaitStart
    ensures w.fsm.status ==> Decide(w) == Fsm.Undefined(0) && UltraFire(w) == w
    ensures !w.fsm.status && w.hw[0].triggerReady ==>
      UltraFire(w) == StartedMeasurement(w).(fsm := w.fsm.(state := TriggerStart))
    ensures !w.fsm.status && !w.hw[0].triggerReady ==> UltraFire(w) == w
  {
    TableWellFormed();
    var verdict := Verdicts(w);
    assert Fsm.Passed(Table, WaitStart, verdict, 0, 0);
    if !w.fsm.status {
      if w.hw[0].triggerReady {
        RowFires(w, 0);
      } else {
        assert Fsm.Passed(Table, WaitStart, verdict, 0, |Table| - 1);
        NoRowFires(w);
      }
    }
  }

  /**
   * TRIGGER_START: check_trigger_end also reads sensor `status`. For a
   * started sensor that is the missing record 1, a read through NULL that is
   * undefined in C; the model records it as an Undefined step that changes
   * nothing.
   */
  lemma FireInTriggerStart(w: World)
    requires Inv(w) && w.fsm.state == TriggerStart
    ensures w.fsm.status ==> Decide(w) == Fsm.Undefined(1) && UltraFire(w) == w
    ensures !w.fsm.status && !w.hw[0].triggerReady ==>
      UltraFire(w) == w.(fsm := w.fsm.(state := WaitEchoStart))
    ensures !w.fsm.status && w.hw[0].triggerReady ==> UltraFire(w) == w
  {
    TableWellFormed();
    var verdict := Verdicts(w);
    assert Fsm.Passed(Table, TriggerStart, verdict, 0, 1);
    if !w.fsm.status {
      if !w.hw[0].triggerReady {
        RowFires(w, 1);
      } else {
        assert Fsm.Passed(Table, TriggerStart, verdict, 0, |Table| - 1);
        NoRowFires(w);
      }
    }
  }

  /** WAIT_ECHO_START: move on once the echo start tick is positive. */
  lemma FireInWaitEchoStart(w: World)
    requires Inv(w) && w.fsm.state == WaitEchoStart
    ensures w.hw[w.fsm.id].echoInitTick > 0 ==> UltraFire(w) == w.(fsm := w.fsm.(state := WaitEchoEnd))
    ensures w.hw[w.fsm.id].echoInitTick == 0 ==> UltraFire(w) == w
  {
    TableWellFormed();
    var verdict := Verdicts(w);
    assert Fsm.Passed(Table, WaitEchoStart, verdict, 0, 2);
    if w.hw[w.fsm.id].echoInitTick > 0 {
      RowFires(w, 2);
    } else {
      assert Fsm.Passed(Table, WaitEchoStart, verdict, 0, |Table| - 1);
      NoRowFires(w);
    }
  }

  /** WAIT_ECHO_END: once the echo is received, store the distance and go to SET_DISTANCE. */
  lemma FireInWaitEchoEnd(w: World)
    requires Inv(w) && w.fsm.state == WaitEchoEnd
    ensures w.hw[w.fsm.id].echoReceived ==>
      UltraFire(w) == var w' := DistanceSet(w); w'.(fsm := w'.fsm.(state := SetDistance))
    ensures !w.hw[w.fsm.id].echoReceived ==> UltraFire(w) == w
  {
    TableWellFormed();
    var verdict := Verdicts(w);
    assert Fsm.Passed(Table, WaitEchoEnd, verdict, 0, 3);
    if w.hw[w.fsm.id].echoReceived {
      RowFires(w, 3);
    } else {
      assert Fsm.Passed(Table, WaitEchoEnd, verdict, 0, |Table| - 1);
      NoRowFires(w);
    }
  }

  /**
   * SET_DISTANCE: a ready trigger starts the next measurement whatever the
   * status (the row comes first); otherwise check_off, which returns the
   * status uncomplemented, stops an active sensor and sends it to
   * WAIT_START, while an inactive one stays in SET_DISTANCE.
   */
  lemma FireInSetDistance(w: World)
    requires Inv(w) && w.fsm.state == SetDistance
    ensures w.hw[w.fsm.id].triggerReady ==>
      UltraFire(w) == StartedMeasurement(w).(fsm := w.fsm.(state := TriggerStart))
    ensures !w.hw[w.fsm.id].triggerReady && w.fsm.status ==>
      UltraFire(w) == StoppedMeasurement(w).(fsm := w.fsm.(state := WaitStart))
    ensures !w.hw[w.fsm.id].triggerReady && !w.fsm.status ==> UltraFire(w) == w
  {
    TableWellFormed();
    var verdict := Verdicts(w);
    assert Fsm.Passed(Table, SetDistance, verdict, 0, 4);
    if w.hw[w.fsm.id].triggerReady {
      RowFires(w, 4);
    } else {
      assert Fsm.Passed(Table, SetDistance, verdict, 0, 5);
      if w.fsm.status {
        RowFires(w, 5);
      } else {
        assert Fsm.Passed(Table, SetDistance, verdict, 0, |Table| - 1);
        NoRowFires(w);
      }
    }
  }

  /**
   * Once fsm_ultrasound_start has run, every firing from WAIT_START reads
   * through the missing record 1: undefined behaviour in C, which the model
   * records as an Undefined step that changes nothing.
   */
  lemma StartedMachineReadsMissingRecord(w: World)
    requires Inv(w) && w.fsm.state == WaitStart
    ensures UltraFire(Started(w)) == Started(w)
    ensures Decide(Started(w)) == Fsm.Undefined(0)
  {
    FireInWaitStart(Started(w));
  }

  /** A firing never moves the write index nor changes the distance while the index is below 5. */
  lemma FireKeepsWindowIndex(w: World)
    requires Inv(w) && w.fsm.idx < NumMeasurements as u32
    ensures UltraFire(w).fsm.idx == w.fsm.idx
    ensures UltraFire(w).fsm.cm == w.fsm.cm
    ensures UltraFire(w).fsm.newMeasurement == w.fsm.newMeasurement
  {
    match w.fsm.state
    case WaitStart => FireInWaitStart(w);
    case TriggerStart => FireInTriggerStart(w);
    case WaitEchoStart => FireInWaitEchoStart(w);
    case WaitEchoEnd =>
      FireInWaitEchoEnd(w);
      var rec := w.hw[w.fsm.id];
      StoreSampleBelowCapacity(w.fsm, Sample(rec.echoInitTick, rec.echoEndTick));
    case SetDistance => FireInSetDistance(w);
  }

  /** fsm_ultrasound_t: one sensor's ranging machine. */
  class UltrasoundFsm {
    var state: State
    var distanceCm: u32
    var status: bool
    var newMeasurement: bool
    var ultrasoundId: u32
    const distanceArr: array<u32>
    var distanceIdx: u32
    const port: UltrasoundPort.SensorRegistry

    ghost predicate Valid()
      reads this, distanceArr, port, port.sensors
    {
      Inv(Snapshot())
    }

    function Snapshot(): World
      reads this, distanceArr, port, port.sensors
    {
      World(Vars(state, status, newMeasurement, ultrasoundId, distanceArr[..], distanceIdx, distanceCm),
            port.sensors[..])
    }

    /**
     * fsm_ultrasound_new and fsm_ultrasound_init: the first row's origin,
     * distance and index 0, the window zeroed, and the port record
     * initialised. status and new_measurement are left as malloc left them.
     * fsm_ultrasound_init never stores ultrasound_id either; the machine
     * keeps the given id here, as the header says a new machine has.
     */
    constructor (id: u32, port: UltrasoundPort.SensorRegistry)
      requires port.Valid() && id < port.sensors.Length
      modifies port.sensors
      ensures Valid() && fresh(distanceArr)
      ensures state == Fsm.Initial(Table) && state == WaitStart
      ensures distanceCm == 0 && distanceIdx == 0 && distanceArr[..] == [0, 0, 0, 0, 0]
      ensures ultrasoundId == id && this.port == port
      ensures port.sensors[..] == old(port.sensors[..])[id := UltrasoundPort.Initialised(old(port.sensors[id]))]
    {
      TableWellFormed();
      state := Table[0].origin;
      distanceCm := 0;
      distanceIdx := 0;
      ultrasoundId := id;
      this.port := port;
      distanceArr := new u32[NumMeasurements];
      new;
      for i := 0 to NumMeasurements
        modifies distanceArr
        invariant forall k :: 0 <= k < i ==> distanceArr[k] == 0
      {
        distanceArr[i] := 0;
      }
      port.Init(id);
    }

    /** fsm_ultrasound_fire: one scan of the table, the action of the row taken, then its destination. */
    method Fire() returns (step: Fsm.Step)
      requires Valid()
      modifies this, distanceArr, port.sensors
      ensures Valid()
      ensures step == Decide(old(Snapshot()))
      ensures Snapshot() == UltraFire(old(Snapshot()))
    {
      TableWellFormed();
      step := Fsm.Scan(Table, state, Verdicts(Snapshot()));
      if step.Fired? {
        var row := Table[step.row];
        match row.action {
          case Some(DoStartMeasurementAction) => DoStartMeasurement();
          case Some(CheckEchoInitAction) =>
          case Some(DoSetDistanceAction) => DoSetDistance();
          case Some(DoStopMeasurementAction) => DoStopMeasurement();
          case None =>
        }
        state := row.dest;
      }
    }

    /** do_start_measurement */
    method DoStartMeasurement()
      requires Valid()
      modifies port.sensors
      ensures Valid()
      ensures Snapshot() == StartedMeasurement(old(Snapshot()))
    {
      port.StartMeasurement(ultrasoundId);
    }

    /** do_stop_measurement */
    method DoStopMeasurement()
      requires Valid()
      modifies port.sensors
      ensures Valid()
      ensures Snapshot() == StoppedMeasurement(old(Snapshot()))
    {
      port.StopUltrasound(ultrasoundId);
    }

    /**
     * do_set_distance: compute the sample from the echo ticks; at capacity
     * sort the window in place, report its middle element, raise the flag
     * and reduce the index; store the sample; reset the echo ticks.
     */
    method DoSetDistance()
      requires Valid()
      modifies this, distanceArr, port.sensors
      ensures Snapshot() == DistanceSet(old(Snapshot()))
      ensures Valid()
    {
      var rec := port.sensors[ultrasoundId];
      var sample := Sample(rec.echoInitTick, rec.echoEndTick);
      if distanceIdx >= NumMeasurements as u32 {
        assert Sorting.BelowHalf(distanceArr[..]);
        Sorting.SortInPlace(distanceArr);
        distanceCm := distanceArr[NumMeasurements / 2];
        newMeasurement := true;
        distanceIdx := distanceIdx % NumMeasurements as u32;
      }
      distanceArr[distanceIdx] := sample;
      port.ResetEchoTicks(ultrasoundId);
      assert Snapshot() == DistanceSet(old(Snapshot()));
    }

    /** fsm_ultrasound_get_state */
    function GetState(): (s: State)
      reads this
      ensures s == state
    {
      state
    }

    /**
     * fsm_ultrasound_get_distance: returns distance_cm and changes nothing.
     * The statement that would clear new_measurement follows the return, so
     * it never runs and the flag is never lowered.
     */
    method GetDistance() returns (d: u32)
      ensures d == distanceCm
    {
      d := distanceCm;
    }

    /** fsm_ultrasound_stop */
    method Stop()
      requires Valid()
      modifies this, port.sensors
      ensures Valid()
      ensures Snapshot() == Stopped(old(Snapshot()))
    {
      status := false;
      port.StopUltrasound(ultrasoundId);
    }

    /** fsm_ultrasound_start; the new-measurement timer it also starts is hardware and not modelled. */
    method Start()
      requires Valid()
      modifies this, port.sensors
      ensures Valid()
      ensures Snapshot() == Started(old(Snapshot()))
    {
      status := true;
      distanceIdx := 0;
      distanceCm := 0;
      port.ResetEchoTicks(ultrasoundId);
      port.SetTriggerReady(ultrasoundId, true);
    }

    /** fsm_ultrasound_get_status */
    function GetStatus(): (b: bool)
      reads this
      ensures b == status
    {
      status
    }

    /** fsm_ultrasound_set_status */
    method SetStatus(b: bool)
      requires Valid()
      modifies this
      ensures Valid()
      ensures status == b
      ensures state == old(state) && distanceCm == old(distanceCm) && distanceIdx == old(distanceIdx)
      ensures newMeasurement == old(newMeasurement) && ultrasoundId == old(ultrasoundId)
    {
      status := b;
    }

    /** fsm_ultrasound_get_ready: the trigger-ready flag of the machine's sensor. */
    function GetReady(): (r: Option<bool>)
      reads this, port, port.sensors
      ensures r == UltrasoundPort.GetTriggerReady(port.sensors[..], ultrasoundId)
    {
      UltrasoundPort.GetTriggerReady(port.sensors[..], ultrasoundId)
    }

    /** fsm_ultrasound_get_new_measurement_ready */
    function GetNewMeasurementReady(): (b: bool)
      reads this
      ensures b == newMeasurement
    {
      newMeasurement
    }

    /** fsm_ultrasound_set_state */
    method SetState(s: State)
      requires Valid()
      modifies this
      ensures Valid()
      ensures state == s
      ensures status == old(status) && distanceCm == old(distanceCm) && distanceIdx == old(distanceIdx)
      ensures newMeasurement == old(newMeasurement) && ultrasoundId == old(ultrasoundId)
    {
      state := s;
    }
  }
}
