# Urbanite parking assist: button and ultrasound state machines in Dafny

Urbanite is a parking-assist controller for an STM32F4 board. It has two
table-driven finite state machines:

- **The button machine** debounces the parking button. It has four states
  (RELEASED, PRESSED_WAIT, PRESSED, RELEASED_WAIT). It records when a press
  starts and how long it lasted.
- **The ultrasound machine** drives one HC-SR04-style sensor in a
  trigger / wait-for-echo / compute-distance cycle. It keeps five distance
  samples and reports their median.

Both machines read and write flags held in static per-device records of the
STM32F4 port layer. Interrupt handlers write the same flags.

This project models:

- `fsm.dfy`: the generic table engine. A table is ordered rows (origin, guard,
  destination, action) closed by a sentinel row. One firing takes the first
  row that leaves the current state and whose guard holds. The `Scan` loop is
  proved to make exactly the decision of the specification function
  `Select`.
- `fsm_button.dfy`: the button machine. The pure function `ButtonFire`
  describes one firing. The class `ButtonFsm` holds the fields of
  `fsm_button_t`, and its `Fire` method is proved to perform `ButtonFire`.
- `fsm_ultrasound.dfy`: the ultrasound machine. `UltraFire` works over the
  machine's fields and the port records. The class `UltrasoundFsm` keeps the
  five-slot window as an `array`, and `DoSetDistance` sorts it in place.
- `sorting.dfy`: the `qsort` call with its `_compare` comparator, the sorted
  reference `SortSeq`, and what a median of the window is.
- `button_port.dfy` and `ultrasound_port.dfy`: the record arrays of
  `stm32f4_button.c` and `stm32f4_ultrasound.c`, plus the EXTI pending
  register.
- `interrupts.dfy`: the SysTick, EXTI15_10, TIM2, TIM3 and TIM5 handlers of
  `interr.c`. Each handler is one atomic step on the records.
- `word.dfy`: `uint32_t` arithmetic, which wraps modulo 2^32.
- `system_port.dfy`: the millisecond counter.
- `wrappers.dfy`: the `Option` type.

The model follows the C code as written. Where the code departs from what its
comments say it does, the model keeps the code's behaviour and a lemma states
the consequence:

- `check_on` and `check_trigger_end` pass the status flag where a sensor id is
  expected. A started sensor therefore looks up id 1, which has no record. In
  C that is a read through NULL. In the model the firing is `Undefined` and
  nothing changes (`FireInWaitStart`, `StartedMachineReadsMissingRecord`).
- `check_off` returns the status itself, not its negation (`FireInSetDistance`).
- `do_set_distance` never advances the write index below 5. Every sample lands
  in the same slot and no median is ever reported (`IndexNeverAdvances`,
  `LatestSampleWins`, `FiveSamplesAfterStartGiveNoMedian`).
- The echo time is computed as init tick minus end tick, which wraps for
  ordered ticks (`SampleOfOrderedTicksWraps`).
- `fsm_ultrasound_get_distance` returns before clearing the new-measurement
  flag (`UltrasoundFsm.GetDistance`).
- The TIM2 handler never writes the echo end tick (`EndTickNeverSet`).
- TIM5 sets the trigger-ready flag of the record whose id is
  `PORT_PARKING_BUTTON_ID`.
- `fsm_ultrasound_init` never stores its `ultrasound_id` argument in the
  machine, so every guard and action reads an indeterminate id. The model
  takes the evident intent, a machine "with the given ultrasound ID", and
  stores the parameter (see "## Left out").
- `check_timeout` compares strictly. With a 50 ms debounce and a press seen
  at t = 10, the press is still pending at t = 60 and is confirmed at t = 61
  (`PressConfirmedOnlyAfterDeadline`).

`distance_idx = (distance_idx++) % 5` modifies the index twice without a
sequence point. The model takes the evident reading: the old index modulo 5.

A getter that reads a record through a NULL lookup returns `None`. Setters
that write through the lookup unchecked require the id to have a record.

## Model

| member | source | states |
|---|---|---|
| Fsm.SelectFrom | Urbanite-v2-main/common/src/fsm_button.c:122 | A firing takes a row only if it leaves the current state, its guard holds, and every earlier row leaving that state had a false guard. If no guard holds, the machine stays. A guard that reads through NULL makes the firing undefined. |
| Fsm.FirstTrueGuardFires | Urbanite-v2-main/common/src/fsm_ultrasound.c:24 | The first row leaving the state whose guard holds is the row taken. |
| Fsm.NoTrueGuardStays | Urbanite-v2-main/common/src/fsm_ultrasound.c:24 | If every row leaving the state has a false guard, the machine stays where it is. |
| Fsm.Scan | Urbanite-v2-main/common/src/fsm_ultrasound.c:289-292 | The row-by-row scan up to the sentinel decides exactly what `Select` specifies. |
| Word.Add | Urbanite-v2-main/common/src/fsm_button.c:101 | uint32_t addition equals the true sum when that is below 2^32, and otherwise wraps modulo 2^32. |
| Word.Sub | Urbanite-v2-main/common/src/fsm_button.c:118 | uint32_t subtraction is the true difference when b <= a, and otherwise 2^32 + a - b. Adding b back gives a. |
| Word.Mul | Urbanite-v2-main/common/src/fsm_ultrasound.c:190 | uint32_t multiplication is the product modulo 2^32: it differs from the true product by a multiple of 2^32, and equals it when the product fits in 32 bits. |
| Word.MulUnique | Urbanite-v2-main/common/src/fsm_ultrasound.c:190 | The only u32 that differs from the true product by a multiple of 2^32 is the uint32_t product, so the contract of `Mul` determines its result. |
| SystemPort.Clock.SetMillis | Urbanite-v2-main/port/include/port_system.h:33 | The counter becomes the given value. |
| Wrappers.Lookup | Urbanite-v2-main/port/stm32f4/src/stm32f4_button.c:50-59 | The record lookup shared by both port layers (`_stm32f4_button_get` here, `_stm32f4_ultrasound_get` at stm32f4_ultrasound.c:60-71): a record is returned exactly when the id is below the array length, and it is that slot's record; otherwise NULL. |
| ButtonPort.OnlyParkingButtonExists | Urbanite-v2-main/port/stm32f4/src/stm32f4_button.c:37-39 | With the one-record array, an id has a record if and only if it is the parking button's id 0. |
| ButtonPort.GetPressed | Urbanite-v2-main/port/stm32f4/src/stm32f4_button.c:72-79 | The stored pressed flag is defined exactly for ids with a record. |
| ButtonPort.GetPendingInterrupt | Urbanite-v2-main/port/stm32f4/src/stm32f4_button.c:97-111 | For a pin below 32, the line is reported pending exactly when its pending bit is set. A pin of 32 or more is never pending: the C tests for it before shifting. An id without a record is undefined. |
| ButtonPort.WriteOneToClear | Urbanite-v2-main/port/stm32f4/src/stm32f4_button.c:117 | A write to the write-1-to-clear pending register clears every line written 1 and keeps every line written 0. |
| ButtonPort.OrWriteClearsEveryLine | Urbanite-v2-main/port/stm32f4/src/stm32f4_button.c:117 | The read-modify-write `PR \|= mask` writes 1 to every line pending on entry as well as to the mask, so no line is left pending. |
| ButtonPort.NotPendingWhenBitClear | Urbanite-v2-main/port/stm32f4/src/stm32f4_button.c:97-111 | A line whose bit is clear is reported as not pending. |
| ButtonPort.ButtonRegistry.constructor | Urbanite-v2-main/port/stm32f4/src/stm32f4_button.c:37-39 | The one record is the parking button on pin 13 with its pressed flag false. |
| ButtonPort.ButtonRegistry.SetPressed | Urbanite-v2-main/port/stm32f4/src/stm32f4_button.c:90-95 | Only the id's pressed flag changes, and reading it back gives the written value. |
| ButtonPort.ButtonRegistry.SetNewGpio | Urbanite-v2-main/port/stm32f4/src/stm32f4_button.c:132-137 | Only the port and pin change. The pull mode and the pressed flag are kept. |
| ButtonPort.ButtonRegistry.ClearPendingInterrupt | Urbanite-v2-main/port/stm32f4/src/stm32f4_button.c:113-119 | The register receives the read-modify-write of the button's bit. It ends at 0, clearing the button's line and every other line pending on entry, so the button is no longer reported pending. |
| FsmButton.TableWellFormed | Urbanite-v2-main/common/src/fsm_button.c:122 | The table is rows then the sentinel, and its first origin RELEASED is the initial state. |
| FsmButton.CheckButtonReleased | Urbanite-v2-main/common/src/fsm_button.c:42-54 | The guard holds exactly when the port's pressed flag is false. It is undefined for an id without a record. |
| FsmButton.CheckButtonPressed | Urbanite-v2-main/common/src/fsm_button.c:67-70 | The exact negation of check_button_released, with the same definedness. |
| FsmButton.CheckTimeout | Urbanite-v2-main/common/src/fsm_button.c:81-85 | The guard holds exactly when the clock is strictly past the deadline. Reaching the deadline is not enough. |
| FsmButton.StoredTickPressed | Urbanite-v2-main/common/src/fsm_button.c:98-104 | The press time becomes now. The deadline becomes now plus the debounce time modulo 2^32. Nothing else changes. |
| FsmButton.DurationSet | Urbanite-v2-main/common/src/fsm_button.c:116-120 | The duration is the elapsed time since the press: adding it to the press tick gives now, modulo 2^32. It is the plain difference when no wrap occurred. A new debounce deadline starts. |
| FsmButton.OnlyAllowedTransitions | Urbanite-v2-main/common/src/fsm_button.c:122 | A firing either keeps the state or moves along one of the four edges of the table. |
| FsmButton.ButtonFireCases | Urbanite-v2-main/common/src/fsm_button.c:122 | One firing, state by state. RELEASED with the flag set stores the press and waits. PRESSED_WAIT goes to PRESSED once past the deadline. PRESSED with the flag clear records the duration. RELEASED_WAIT goes to RELEASED once past the deadline. |
| FsmButton.WaitHoldsUntilDeadline | Urbanite-v2-main/common/src/fsm_button.c:81-85 | In either wait state nothing changes while the clock has not passed the deadline, whatever the button does. |
| FsmButton.PressConfirmedOnlyAfterDeadline | Urbanite-v2-main/common/src/fsm_button.c:81-104 | With a 50 ms debounce and a press at t = 10, the deadline is 60. The machine still waits at t = 60 and is PRESSED at t = 61. |
| FsmButton.DebounceSkippedNearWrap | Urbanite-v2-main/common/src/fsm_button.c:98-104 | A press 10 ms before the counter wraps gets deadline 40. The very next millisecond confirms it without any debounce wait. |
| FsmButton.ButtonFsm.constructor | Urbanite-v2-main/common/src/fsm_button.c:134-144 | Starts in the table's first state, RELEASED, with the given debounce time and id, and tick and duration 0. |
| FsmButton.ButtonFsm.Fire | Urbanite-v2-main/common/src/fsm_button.c:158-161 | One firing makes the decision `Select` specifies and leaves the fields equal to `ButtonFire` of the old fields. |
| FsmButton.ButtonFsm.DoStoreTickPressed | Urbanite-v2-main/common/src/fsm_button.c:98-104 | The fields become `StoredTickPressed` of the old fields at the current clock. |
| FsmButton.ButtonFsm.DoSetDuration | Urbanite-v2-main/common/src/fsm_button.c:116-120 | The fields become `DurationSet` of the old fields at the current clock. |
| FsmButton.ButtonFsm.GetState | Urbanite-v2-main/common/src/fsm_button.c:173-176 | Returns the current state. |
| FsmButton.ButtonFsm.CheckActivity | Urbanite-v2-main/common/src/fsm_button.c:179-192 | The machine is inactive exactly in RELEASED. Both wait states count as active. |
| FsmButton.ButtonFsm.GetDebounceTimeMs | Urbanite-v2-main/common/src/fsm_button.c:194-196 | Returns the debounce time. |
| FsmButton.ButtonFsm.GetDuration | Urbanite-v2-main/common/src/fsm_button.c:199-201 | Returns the last press duration. |
| FsmButton.ButtonFsm.ResetDuration | Urbanite-v2-main/common/src/fsm_button.c:203-205 | The duration becomes 0, nothing else changes, and the class invariant is kept. |
| UltrasoundPort.OnlyRearSensorExists | Urbanite-v2-main/port/stm32f4/src/stm32f4_ultrasound.c:45 | With the one-record array, an id has a record if and only if it is the rear sensor's id 0. |
| UltrasoundPort.GetTriggerReady | Urbanite-v2-main/port/stm32f4/src/stm32f4_ultrasound.c:333-341 | The stored trigger-ready flag is defined exactly for ids with a record. |
| UltrasoundPort.GetTriggerEnd | Urbanite-v2-main/port/stm32f4/src/stm32f4_ultrasound.c:343-349 | The stored trigger-end flag is defined exactly for ids with a record. |
| UltrasoundPort.GetEchoReceived | Urbanite-v2-main/port/stm32f4/src/stm32f4_ultrasound.c:350-356 | The stored echo-received flag is defined exactly for ids with a record. |
| UltrasoundPort.GetEchoOverflows | Urbanite-v2-main/port/stm32f4/src/stm32f4_ultrasound.c:357-363 | The stored overflow count is defined exactly for ids with a record. |
| UltrasoundPort.GetEchoInitTick | Urbanite-v2-main/port/stm32f4/src/stm32f4_ultrasound.c:364-370 | The stored echo start tick is defined exactly for ids with a record. |
| UltrasoundPort.GetEchoEndTick | Urbanite-v2-main/port/stm32f4/src/stm32f4_ultrasound.c:372-378 | The stored echo end tick is defined exactly for ids with a record. |
| UltrasoundPort.Initialised | Urbanite-v2-main/port/stm32f4/src/stm32f4_ultrasound.c:224-242 | Ticks and overflows become 0, trigger-end and echo-received false, and trigger-ready true. Ports and pins are kept. |
| UltrasoundPort.EchoTicksReset | Urbanite-v2-main/port/stm32f4/src/stm32f4_ultrasound.c:289-296 | The echo capture is cleared (ticks, overflows, received flag). The trigger flags are kept. |
| UltrasoundPort.AfterStartMeasurement | Urbanite-v2-main/port/stm32f4/src/stm32f4_ultrasound.c:264-287 | For an id with a record, only its trigger-ready flag is cleared. Any other id leaves the records unchanged. |
| UltrasoundPort.AfterStop | Urbanite-v2-main/port/stm32f4/src/stm32f4_ultrasound.c:320-329 | For an id with a record, its echo capture is reset. Any other id leaves the records unchanged. |
| UltrasoundPort.SensorRegistry.constructor | Urbanite-v2-main/port/stm32f4/src/stm32f4_ultrasound.c:45 | The one record holds the rear sensor's pins with every flag false and every tick 0. |
| UltrasoundPort.SensorRegistry.Init | Urbanite-v2-main/port/stm32f4/src/stm32f4_ultrasound.c:224-242 | The id's record becomes `Initialised`. The other records are untouched. |
| UltrasoundPort.SensorRegistry.SetNewTriggerGpio | Urbanite-v2-main/port/stm32f4/src/stm32f4_ultrasound.c:247-252 | Only the id's trigger port and pin change. |
| UltrasoundPort.SensorRegistry.SetNewEchoGpio | Urbanite-v2-main/port/stm32f4/src/stm32f4_ultrasound.c:254-259 | Only the id's echo port and pin change. |
| UltrasoundPort.SensorRegistry.StartMeasurement | Urbanite-v2-main/port/stm32f4/src/stm32f4_ultrasound.c:264-287 | The records become `AfterStartMeasurement`. An id without a record changes nothing. |
| UltrasoundPort.SensorRegistry.ResetEchoTicks | Urbanite-v2-main/port/stm32f4/src/stm32f4_ultrasound.c:289-296 | The id's record becomes `EchoTicksReset`. The other records are untouched. |
| UltrasoundPort.SensorRegistry.StopUltrasound | Urbanite-v2-main/port/stm32f4/src/stm32f4_ultrasound.c:320-329 | The records become `AfterStop`. An id without a record changes nothing. |
| UltrasoundPort.SensorRegistry.SetEchoEndTick | Urbanite-v2-main/port/stm32f4/src/stm32f4_ultrasound.c:380-386 | Only that field of that record changes, and the getter reads back the written value. |
| UltrasoundPort.SensorRegistry.SetEchoInitTick | Urbanite-v2-main/port/stm32f4/src/stm32f4_ultrasound.c:387-392 | Only that field of that record changes, and the getter reads back the written value. |
| UltrasoundPort.SensorRegistry.SetEchoReceived | Urbanite-v2-main/port/stm32f4/src/stm32f4_ultrasound.c:393-399 | Only that field of that record changes, and the getter reads back the written value. |
| UltrasoundPort.SensorRegistry.SetTriggerReady | Urbanite-v2-main/port/stm32f4/src/stm32f4_ultrasound.c:401-407 | Only that field of that record changes, and the getter reads back the written value. |
| UltrasoundPort.SensorRegistry.SetTriggerEnd | Urbanite-v2-main/port/stm32f4/src/stm32f4_ultrasound.c:409-415 | Only that field of that record changes, and the getter reads back the written value. |
| UltrasoundPort.SensorRegistry.SetEchoOverflows | Urbanite-v2-main/port/stm32f4/src/stm32f4_ultrasound.c:417-422 | Only that field of that record changes, and the getter reads back the written value. |
| Sorting.CompareAgrees | Urbanite-v2-main/common/src/fsm_ultrasound.c:40-43 | On values below 2^31 the comparator's sign is the numeric order, in all three cases. |
| Sorting.CompareWrapsOnLargeValues | Urbanite-v2-main/common/src/fsm_ultrasound.c:40-43 | Beyond that range the comparator is wrong: whenever a exceeds b by 2^31 or more, a compares below b. |
| Sorting.Insert | Urbanite-v2-main/common/src/fsm_ultrasound.c:193 | Inserting into a sorted sequence gives a sorted sequence with the element added to the multiset. |
| Sorting.SortSeq | Urbanite-v2-main/common/src/fsm_ultrasound.c:193 | The reference result of sorting: sorted and a permutation of the input. |
| Sorting.SortedUnique | Urbanite-v2-main/common/src/fsm_ultrasound.c:193 | Two sorted permutations of one multiset are equal, so any correct sort has the same result. |
| Sorting.MiddleOfSortedIsMedian | Urbanite-v2-main/common/src/fsm_ultrasound.c:195-200 | For an odd-length window, the middle slot of the sorted window is an element of the window. At most half of the window lies strictly below it, and at most half strictly above. |
| Sorting.SiftDown | Urbanite-v2-main/common/src/fsm_ultrasound.c:193 | One insertion step, driven by the source's comparator, extends the sorted prefix by one slot and permutes the array. |
| Sorting.SortInPlace | Urbanite-v2-main/common/src/fsm_ultrasound.c:193 | Sorting the array in place with the source's comparator leaves exactly `SortSeq` of the old contents. |
| FsmUltrasound.TableWellFormed | Urbanite-v2-main/common/src/fsm_ultrasound.c:24 | The table is rows then the sentinel, and its first origin WAIT_START is the initial state. |
| FsmUltrasound.CheckOn | Urbanite-v2-main/common/src/fsm_ultrasound.c:53-62 | The guard reads the trigger-ready flag of sensor 1 when the status is true, and of sensor 0 when it is false. |
| FsmUltrasound.CheckOff | Urbanite-v2-main/common/src/fsm_ultrasound.c:71-74 | The guard holds exactly when the status is true. |
| FsmUltrasound.CheckTriggerEnd | Urbanite-v2-main/common/src/fsm_ultrasound.c:87-96 | The exact negation of check_on's reading, at the same status-as-id sensor. |
| FsmUltrasound.CheckEchoInit | Urbanite-v2-main/common/src/fsm_ultrasound.c:110-119 | The guard holds exactly when the sensor's echo start tick is positive. It is undefined for an id without a record. |
| FsmUltrasound.CheckEchoReceived | Urbanite-v2-main/common/src/fsm_ultrasound.c:130-134 | The guard is the sensor's echo-received flag. It is undefined for an id without a record. |
| FsmUltrasound.CheckNewMeasurement | Urbanite-v2-main/common/src/fsm_ultrasound.c:143-147 | The guard is the trigger-ready flag of the machine's own sensor. |
| FsmUltrasound.Sample | Urbanite-v2-main/common/src/fsm_ultrasound.c:186-190 | The sample is the floor of (init minus end, in uint32_t) times 343 in uint32_t, over 20000. It never exceeds 214748. |
| FsmUltrasound.SampleOfOrderedTicksWraps | Urbanite-v2-main/common/src/fsm_ultrasound.c:189-190 | An echo from tick 100 to tick 1100 yields 214731 cm, where the true distance is 17 cm. |
| FsmUltrasound.StoreSample | Urbanite-v2-main/common/src/fsm_ultrasound.c:191-216 | After the window update the index is below 5 and the sample sits at the index. State, status and id are kept. |
| FsmUltrasound.StoreSampleBelowCapacity | Urbanite-v2-main/common/src/fsm_ultrasound.c:216 | Below 5, only the slot at the index changes. The index, the distance and the flag stay as they were. |
| FsmUltrasound.StoreSampleAtCapacity | Urbanite-v2-main/common/src/fsm_ultrasound.c:191-216 | At 5 or more, the reported distance is a median of the window before the write. The flag is raised and the index becomes idx mod 5. The other slots hold the sorted window. |
| FsmUltrasound.StoreSampleKeepsBound | Urbanite-v2-main/common/src/fsm_ultrasound.c:190-216 | A window of samples of at most 214748 stays one after the update. |
| FsmUltrasound.IndexNeverAdvances | Urbanite-v2-main/common/src/fsm_ultrasound.c:191-216 | From an index below 5, no number of samples moves the index, changes the distance or raises the flag. |
| FsmUltrasound.LatestSampleWins | Urbanite-v2-main/common/src/fsm_ultrasound.c:216 | Below 5, every sample goes to the same slot. Only the last one survives, and the other slots are untouched. |
| FsmUltrasound.FiveSamplesAfterStartGiveNoMedian | Urbanite-v2-main/common/src/fsm_ultrasound.c:191-216 | From a zeroed window, samples 10, 12, 11, 13 and 9 leave the window 9, 0, 0, 0, 0 with distance 0 and no new measurement. |
| FsmUltrasound.StartedMeasurement | Urbanite-v2-main/common/src/fsm_ultrasound.c:159-162 | The machine's fields are kept and the port records become `AfterStartMeasurement` for its sensor. |
| FsmUltrasound.StoppedMeasurement | Urbanite-v2-main/common/src/fsm_ultrasound.c:237-241 | The machine's fields are kept and the port records become `AfterStop` for its sensor. |
| FsmUltrasound.DistanceSet | Urbanite-v2-main/common/src/fsm_ultrasound.c:184-228 | The window update stores the sample computed from the sensor's echo ticks. The sensor's echo capture is then reset, and the window invariant is kept. |
| FsmUltrasound.Started | Urbanite-v2-main/common/src/fsm_ultrasound.c:318-332 | Status becomes true, and the index and distance become 0. The sensor's echo capture is reset and its trigger-ready flag is raised. |
| FsmUltrasound.Stopped | Urbanite-v2-main/common/src/fsm_ultrasound.c:312-316 | Status becomes false and the sensor's echo capture is reset. |
| FsmUltrasound.RowFires | Urbanite-v2-main/common/src/fsm_ultrasound.c:24 | A row whose guard holds after only false guards is taken: its action runs and its destination becomes the state. |
| FsmUltrasound.NoRowFires | Urbanite-v2-main/common/src/fsm_ultrasound.c:24 | With every guard leaving the state false, a firing changes nothing. |
| FsmUltrasound.FireInWaitStart | Urbanite-v2-main/common/src/fsm_ultrasound.c:53-62 | In WAIT_START a started sensor's firing is undefined and changes nothing. A stopped one starts a measurement when sensor 0's trigger is ready. |
| FsmUltrasound.FireInTriggerStart | Urbanite-v2-main/common/src/fsm_ultrasound.c:87-96 | In TRIGGER_START a started sensor's firing is undefined. A stopped one moves to WAIT_ECHO_START once sensor 0's trigger-ready flag is low. |
| FsmUltrasound.FireInWaitEchoStart | Urbanite-v2-main/common/src/fsm_ultrasound.c:110-119 | WAIT_ECHO_START moves to WAIT_ECHO_END exactly when the echo start tick is positive. Otherwise nothing changes. |
| FsmUltrasound.FireInWaitEchoEnd | Urbanite-v2-main/common/src/fsm_ultrasound.c:130-134 | Once the echo is received, the distance is stored and the machine enters SET_DISTANCE. Otherwise nothing changes. |
| FsmUltrasound.FireInSetDistance | Urbanite-v2-main/common/src/fsm_ultrasound.c:143-147 | A ready trigger starts the next measurement whatever the status. Otherwise an active sensor is stopped and returns to WAIT_START, and an inactive one stays. |
| FsmUltrasound.StartedMachineReadsMissingRecord | Urbanite-v2-main/common/src/fsm_ultrasound.c:318-332 | After fsm_ultrasound_start in WAIT_START, every firing reads through the missing record 1. That is undefined in C; the model records it as an Undefined step that changes nothing. |
| FsmUltrasound.FireKeepsWindowIndex | Urbanite-v2-main/common/src/fsm_ultrasound.c:24 | While the index is below 5, no firing in any state moves the index, changes the distance or raises the flag. |
| FsmUltrasound.UltrasoundFsm.constructor | Urbanite-v2-main/common/src/fsm_ultrasound.c:268-288 | Starts in WAIT_START with distance 0, index 0 and a zeroed five-slot window. The sensor's record is initialised. |
| FsmUltrasound.UltrasoundFsm.Fire | Urbanite-v2-main/common/src/fsm_ultrasound.c:289-292 | One firing makes the decision `Decide` specifies. The fields and port records become `UltraFire` of the old ones. |
| FsmUltrasound.UltrasoundFsm.DoStartMeasurement | Urbanite-v2-main/common/src/fsm_ultrasound.c:159-162 | The state becomes `StartedMeasurement` of the old state. |
| FsmUltrasound.UltrasoundFsm.DoStopMeasurement | Urbanite-v2-main/common/src/fsm_ultrasound.c:237-241 | The state becomes `StoppedMeasurement` of the old state. |
| FsmUltrasound.UltrasoundFsm.DoSetDistance | Urbanite-v2-main/common/src/fsm_ultrasound.c:184-228 | Sorting the array in place, taking its middle element and writing the sample gives exactly `DistanceSet` of the old state. |
| FsmUltrasound.UltrasoundFsm.GetState | Urbanite-v2-main/common/src/fsm_ultrasound.c:300-303 | Returns the current state. |
| FsmUltrasound.UltrasoundFsm.GetDistance | Urbanite-v2-main/common/src/fsm_ultrasound.c:305-310 | Returns the reported distance and changes nothing, so the new-measurement flag stays raised. |
| FsmUltrasound.UltrasoundFsm.Stop | Urbanite-v2-main/common/src/fsm_ultrasound.c:312-316 | The state becomes `Stopped` of the old state. |
| FsmUltrasound.UltrasoundFsm.Start | Urbanite-v2-main/common/src/fsm_ultrasound.c:318-332 | The state becomes `Started` of the old state. |
| FsmUltrasound.UltrasoundFsm.GetStatus | Urbanite-v2-main/common/src/fsm_ultrasound.c:334-339 | Returns the status flag. |
| FsmUltrasound.UltrasoundFsm.SetStatus | Urbanite-v2-main/common/src/fsm_ultrasound.c:341-346 | Only the status changes, and the class invariant is kept. |
| FsmUltrasound.UltrasoundFsm.GetReady | Urbanite-v2-main/common/src/fsm_ultrasound.c:348-355 | Returns the trigger-ready flag of the machine's sensor. |
| FsmUltrasound.UltrasoundFsm.GetNewMeasurementReady | Urbanite-v2-main/common/src/fsm_ultrasound.c:357-362 | Returns the new-measurement flag. |
| FsmUltrasound.UltrasoundFsm.SetState | Urbanite-v2-main/common/src/fsm_ultrasound.c:366-369 | Only the state changes, and the class invariant is kept. |
| Interrupts.SysTickHandler | Urbanite-v2-main/port/stm32f4/src/interr.c:34-39 | The millisecond counter advances by one modulo 2^32. |
| Interrupts.Ticked | Urbanite-v2-main/port/stm32f4/src/interr.c:34-39 | After n ticks from m the counter reads (m + n) mod 2^32, so it wraps every 2^32 ms. |
| Interrupts.OnExti | Urbanite-v2-main/port/stm32f4/src/interr.c:40-54 | When the button's line is pending, the pressed flag becomes the complement of the input level, and port, pin and pull mode are kept. Otherwise nothing changes. |
| Interrupts.Exti15To10Handler | Urbanite-v2-main/port/stm32f4/src/interr.c:40-54 | The button records become `OnExti`. The pending register is cleared by the read-modify-write, so every line pending on entry, including the button's, is cleared. |
| Interrupts.OnTim2 | Urbanite-v2-main/port/stm32f4/src/interr.c:62-86 | An update counts one more overflow, modulo 2^32. A capture stores its tick as the echo start and marks the echo received, but only while both ticks are 0. The end tick and trigger flags are never touched. |
| Interrupts.Tim2Handler | Urbanite-v2-main/port/stm32f4/src/interr.c:62-86 | The rear sensor's record becomes `OnTim2` of the old record. The other records are untouched. |
| Interrupts.FirstCaptureWins | Urbanite-v2-main/port/stm32f4/src/interr.c:74-82 | After a reset, one capture at a nonzero tick satisfies both echo guards, and later captures leave the start tick alone. |
| Interrupts.CaptureAtZeroIsOverwritten | Urbanite-v2-main/port/stm32f4/src/interr.c:77-81 | A capture at tick 0 leaves the record looking reset, so the next capture replaces it. |
| Interrupts.EndTickNeverSet | Urbanite-v2-main/port/stm32f4/src/interr.c:62-86 | No sequence of TIM2 events changes the echo end tick. |
| Interrupts.Tim3Handler | Urbanite-v2-main/port/stm32f4/src/interr.c:103-108 | Only the rear sensor's trigger-end flag changes, and it becomes true. |
| Interrupts.Tim5Handler | Urbanite-v2-main/port/stm32f4/src/interr.c:117-121 | The trigger-ready flag of the record with the parking button's id, 0, becomes true. That is the rear sensor's flag. |

## Left out

- Hardware register writes are not modelled:
  - GPIO mode and pull configuration;
  - timer prescaler, auto-reload and enable settings;
  - NVIC priorities;
  - clearing timer status flags.

  This covers `port_button_init`, `port_button_disable_interrupts`, the timer setup in `port_ultrasound_init` and `port_ultrasound_start_measurement`, and `port_ultrasound_stop_echo_timer`, `port_ultrasound_stop_trigger_timer`, `port_ultrasound_stop_new_measurement_timer` and `port_ultrasound_start_new_measurement_timer`. None of them touches the records the state machines read.
- The floating-point timer prescaler computation in the timer setup is left out, along with the rest of that setup.
- `port_button_get_value` reads the GPIO input register. It is a parameter (`level`) of the EXTI handler.
- The TIM2 status flags and capture register are parameters of `Tim2Handler`.
- `fsm_button_new`, `fsm_ultrasound_new` and the `destroy` functions use `malloc`/`free`. The Dafny constructors stand for `new` plus `init`. Freeing is not modelled.
- The `get_inner_fsm` accessors are left out: they expose the generic base pointer, and the classes have none.
- `do_start_new_measurement` and `do_stop_trigger` are not in the ultrasound table, so they never run, and they are left out.
- The generic `fsm.c` engine is not part of this model. Its behaviour is taken from how the two tables use it: first matching row, guard then action then state.
- Interrupts are atomic steps. Preemption of a firing by an interrupt between a guard and its action is not modelled.
- Each firing of the button machine reads the clock once. The C code calls `port_system_get_millis` separately in the guard and in the action, which return the same value unless SysTick preempts the firing.
- Sorting.SortInPlace: an insertion sort driven by `_compare` stands for the C library's `qsort`, whose algorithm is unspecified. Only its result is modelled, which is the same for every correct sort.
- FsmUltrasound.DistanceSet: the echo overflow count read by `do_set_distance` is never used, so it is not modelled.
- FsmUltrasound.StoreSample: `distance_idx = (distance_idx++) % 5` has undefined behaviour in C. The model takes the old index modulo 5.
- FsmButton.ButtonFsm.constructor: `next_timeout` is left uninitialised by `fsm_button_init`, so the constructor states nothing about it.
- FsmUltrasound.UltrasoundFsm.constructor: `status` and `new_measurement` are left uninitialised by `fsm_ultrasound_init`, so the constructor states nothing about them.
- FsmUltrasound.UltrasoundFsm.constructor: the port-wide timer and GPIO setup of `port_ultrasound_init` is not modelled; only its record flags are.
- FsmUltrasound.UltrasoundFsm.constructor: `fsm_ultrasound_init` (fsm_ultrasound.c:268-279) never assigns `ultrasound_id`, so the field stays as `malloc` left it and every guard and action reads an indeterminate id. The model stores the parameter instead, following the header's "with the given ultrasound ID". It does not model the machine running on an arbitrary id.
- ButtonPort.GetPendingInterrupt, ButtonPort.ButtonRegistry.ClearPendingInterrupt, Interrupts.Exti15To10Handler: `1 << pin` with a pin of 32 or more is undefined in C. GetPendingInterrupt returns early with false for such a pin before the shift, and the model keeps that. The two clearing members shift without that test, so they require a pin below 32.
- FsmUltrasound.UltrasoundFsm.SetState: `fsm_ultrasound_set_state` takes an `int8_t`. The model takes one of the five states, so a value outside the table's states cannot be set.
- The pending register changes only through the modelled read-modify-write. A line becoming pending while the handler runs is not modelled.
- A firing that reads a record through a NULL lookup is modelled as `Undefined` with no change. In C the behaviour is undefined.
