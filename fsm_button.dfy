/**
 * The button debounce machine of fsm_button.c. Four states; a press is
 * accepted on the pressed flag, confirmed once the clock has moved strictly
 * past the debounce deadline, and the press duration is recorded on
 * release.
 */
module FsmButton {
  import opened Wrappers
  import opened Word
  import Fsm
  import ButtonPort
  import SystemPort

  datatype State = Released | ReleasedWait | Pressed | PressedWait

  datatype Guard = CheckButtonPressedGuard | CheckTimeoutGuard | CheckButtonReleasedGuard

  datatype Action = DoStoreTickPressedAction | DoSetDurationAction

  /** fsm_trans_button, with its sentinel row. */
  const Table: seq<Fsm.Row<State, Guard, Action>> := [
    Fsm.Trans(Released, CheckButtonPressedGuard, PressedWait, Some(DoStoreTickPressedAction)),
    Fsm.Trans(PressedWait, CheckTimeoutGuard, Pressed, None),
    Fsm.Trans(Pressed, CheckButtonReleasedGuard, ReleasedWait, Some(DoSetDurationAction)),
    Fsm.Trans(ReleasedWait, CheckTimeoutGuard, Released, None),
    Fsm.End
  ]

  lemma TableWellFormed()
    ensures Fsm.WellFormed(Table)
    ensures Fsm.Initial(Table) == Released
  {
  }

  /** The fields of fsm_button_t, with f.current_state as `state`. */
  datatype Vars = Vars(
    state: State,
    debounceTimeMs: u32,
    nextTimeout: u32,
    tickPressed: u32,
    duration: u32,
    buttonId: u32)

  /** check_button_released: the port's pressed flag is false (None when the id has no record). */
  function CheckButtonReleased(hw: seq<ButtonPort.ButtonHw>, id: u32): (r: Option<bool>)
    ensures r.Some? <==> id < |hw|
    ensures r.Some? ==> (r.value <==> !hw[id].flagPressed)
  {
    match ButtonPort.GetPressed(hw, id)
    case Some(pressed) => Some(!pressed)
    case None => None
  }

  /** check_button_pressed: the negation of check_button_released. */
  function CheckButtonPressed(hw: seq<ButtonPort.ButtonHw>, id: u32): (r: Option<bool>)
    ensures r.Some? <==> CheckButtonReleased(hw, id).Some?
    ensures r.Some? ==> r.value == !CheckButtonReleased(hw, id).value
  {
    match CheckButtonReleased(hw, id)
    case Some(released) => Some(!released)
    case None => None
  }

  /** check_timeout: the clock is strictly past the deadline; reaching it is not enough. */
  function CheckTimeout(now: u32, nextTimeout: u32): (r: bool)
    ensures r <==> now > nextTimeout
    ensures now == nextTimeout ==> !r
  {
    now > nextTimeout
  }

  function Verdict(g: Guard, hw: seq<ButtonPort.ButtonHw>, v: Vars, now: u32): Option<bool>
  {
    match g
    case CheckButtonPressedGuard => CheckButtonPressed(hw, v.buttonId)
    case CheckTimeoutGuard => Some(CheckTimeout(now, v.nextTimeout))
    case CheckButtonReleasedGuard => CheckButtonReleased(hw, v.buttonId)
  }

  /** The guards' verdicts for one firing, taken at clock value `now`. */
  function Verdicts(hw: seq<ButtonPort.ButtonHw>, v: Vars, now: u32): Guard -> Option<bool>
  {
    g => Verdict(g, hw, v, now)
  }

  /** do_store_tick_pressed: remember when the press began and when its debounce ends. */
  function StoredTickPressed(v: Vars, now: u32): (r: Vars)
    ensures r.tickPressed == now
    ensures r.nextTimeout == (now + v.debounceTimeMs) % WORD
    ensures r.duration == v.duration && r.debounceTimeMs == v.debounceTimeMs
    ensures r.state == v.state && r.buttonId == v.buttonId
  {
    v.(tickPressed := now, nextTimeout := Add(now, v.debounceTimeMs))
  }

  /** do_set_duration: the press lasted from tick_pressed to now (modulo 2^32); a new debounce starts. */
  function DurationSet(v: Vars, now: u32): (r: Vars)
    ensures Add(v.tickPressed, r.duration) == now
    ensures v.tickPressed <= now ==> r.duration == now - v.tickPressed
    ensures r.nextTimeout == (now + v.debounceTimeMs) % WORD
    ensures r.tickPressed == v.tickPressed && r.debounceTimeMs == v.debounceTimeMs
    ensures r.state == v.state && r.buttonId == v.buttonId
  {
    v.(duration := Sub(now, v.tickPressed), nextTimeout := Add(now, v.debounceTimeMs))
  }

  function Perform(a: Option<Action>, v: Vars, now: u32): Vars
  {
    match a
    case Some(DoStoreTickPressedAction) => StoredTickPressed(v, now)
    case Some(DoSetDurationAction) => DurationSet(v, now)
    case None => v
  }

  /** One fsm_fire of the button machine with the port flags `hw` and the clock at `now`. */
  function ButtonFire(v: Vars, hw: seq<ButtonPort.ButtonHw>, now: u32): Vars
  {
    TableWellFormed();
    match Fsm.Select(Table, v.state, Verdicts(hw, v, now))
    case Fired(k) => Perform(Table[k].action, v, now).(state := Table[k].dest)
    case _ => v
  }

  /** The four state changes the table allows. */
  predicate Allowed(from: State, to: State)
  {
    (from == Released && to == PressedWait) ||
    (from == PressedWait && to == Pressed) ||
    (from == Pressed && to == ReleasedWait) ||
    (from == ReleasedWait && to == Released)
  }

  /** Fired row by fired row, the table changes the state only along Allowed edges. */
  lemma OnlyAllowedTransitions(v: Vars, hw: seq<ButtonPort.ButtonHw>, now: u32)
    ensures ButtonFire(v, hw, now).state == v.state || Allowed(v.state, ButtonFire(v, hw, now).state)
  {
    TableWellFormed();
    var step := Fsm.Select(Table, v.state, Verdicts(hw, v, now));
    if step.Fired? {
      assert step.row < 4;
      assert Table[step.row].origin == v.state;
    }
  }

  /**
   * The table spelled out state by state, for a button with a record: this
   * is what the generic engine makes of fsm_trans_button.
   */
  lemma ButtonFireCases(v: Vars, hw: seq<ButtonPort.ButtonHw>, now: u32)
    requires v.buttonId < |hw|
    ensures var pressed := hw[v.buttonId].flagPressed;
      ButtonFire(v, hw, now) ==
        match v.state
        case Released =>
          if pressed then StoredTickPressed(v, now).(state := PressedWait) else v
        case PressedWait =>
          if now > v.nextTimeout then v.(state := Pressed) else v
        case Pressed =>
          if !pressed then DurationSet(v, now).(state := ReleasedWait) else v
        case ReleasedWait =>
          if now > v.nextTimeout then v.(state := Released) else v
  {
    TableWellFormed();
    var verdict := Verdicts(hw, v, now);
    var k := match v.state case Released => 0 case PressedWait => 1 case Pressed => 2 case ReleasedWait => 3;
    assert Table[k].origin == v.state;
    assert Fsm.Passed(Table, v.state, verdict, 0, k);
    assert Fsm.Passed(Table, v.state, verdict, k + 1, |Table| - 1);
    if verdict(Table[k].guard) == Some(true) {
      Fsm.FirstTrueGuardFires(Table, v.state, verdict, 0, k);
    } else {
      assert Fsm.Passed(Table, v.state, verdict, 0, |Table| - 1);
      Fsm.NoTrueGuardStays(Table, v.state, verdict, 0);
    }
  }

  /** Debounce: in a wait state, nothing happens until the clock is strictly past the deadline, whatever the flag does. */
  lemma WaitHoldsUntilDeadline(v: Vars, hw: seq<ButtonPort.ButtonHw>, now: u32)
    requires v.buttonId < |hw|
    requires v.state == PressedWait || v.state == ReleasedWait
    requires now <= v.nextTimeout
    ensures ButtonFire(v, hw, now) == v
  {
    ButtonFireCases(v, hw, now);
  }

  /**
   * Debounce 50 ms, press seen at t = 10: the deadline is 60, so a firing
   * at t = 60 still waits and the press is confirmed at t = 61.
   */
  lemma PressConfirmedOnlyAfterDeadline(hw: seq<ButtonPort.ButtonHw>)
    requires |hw| == ButtonPort.NumButtons && hw[0].flagPressed
    ensures var v0 := Vars(Released, 50, 0, 0, 0, 0);
      var v1 := ButtonFire(v0, hw, 10);
      v1.state == PressedWait && v1.tickPressed == 10 && v1.nextTimeout == 60 &&
      ButtonFire(v1, hw, 60).state == PressedWait &&
      ButtonFire(v1, hw, 61).state == Pressed
  {
    var v0 := Vars(Released, 50, 0, 0, 0, 0);
    ButtonFireCases(v0, hw, 10);
    var v1 := ButtonFire(v0, hw, 10);
    ButtonFireCases(v1, hw, 60);
    ButtonFireCases(v1, hw, 61);
  }

  /**
   * The deadline is computed modulo 2^32: a press seen within the debounce
   * time of the counter's wrap gets a deadline near 0, so the very next
   * firing confirms it, with no debounce wait.
   */
  lemma DebounceSkippedNearWrap(hw: seq<ButtonPort.ButtonHw>)
    requires |hw| == ButtonPort.NumButtons && hw[0].flagPressed
    ensures var v0 := Vars(Released, 50, 0, 0, 0, 0);
      var v1 := ButtonFire(v0, hw, WORD - 10);
      v1.state == PressedWait && v1.nextTimeout == 40 &&
      ButtonFire(v1, hw, WORD - 9).state == Pressed
  {
    var v0 := Vars(Released, 50, 0, 0, 0, 0);
    ButtonFireCases(v0, hw, WORD - 10);
    var v1 := ButtonFire(v0, hw, WORD - 10);
    ButtonFireCases(v1, hw, WORD - 9);
  }

  /** fsm_button_t: one button's debounce machine. */
  class ButtonFsm {
    var state: State
    var debounceTimeMs: u32
    var nextTimeout: u32
    var tickPressed: u32
    var duration: u32
    var buttonId: u32
    const port: ButtonPort.ButtonRegistry
    const clock: SystemPort.Clock

    /** The button id has a record in the port (port_button_init would read through NULL otherwise). */
    ghost predicate Valid()
      reads this, port
    {
      port.Valid() && buttonId < port.buttons.Length
    }

    function Snapshot(): Vars
      reads this
    {
      Vars(state, debounceTimeMs, nextTimeout, tickPressed, duration, buttonId)
    }

    /** fsm_button_init: next_timeout is left as malloc left it, so nothing is said about it. */
    constructor (debounceTime: u32, id: u32, port: ButtonPort.ButtonRegistry, clock: SystemPort.Clock)
      requires port.Valid() && id < port.buttons.Length
      ensures Valid()
      ensures state == Fsm.Initial(Table) && state == Released
      ensures debounceTimeMs == debounceTime && buttonId == id
      ensures tickPressed == 0 && duration == 0
      ensures this.port == port && this.clock == clock
    {
      TableWellFormed();
      state := Table[0].origin;
      debounceTimeMs := debounceTime;
      buttonId := id;
      tickPressed := 0;
      duration := 0;
      this.port := port;
      this.clock := clock;
    }

    /** fsm_button_fire */
    method Fire() returns (step: Fsm.Step)
      requires Valid()
      modifies this
      ensures Valid()
      ensures step == Fsm.Select(Table, old(state), Verdicts(port.buttons[..], old(Snapshot()), clock.millis))
      ensures Snapshot() == ButtonFire(old(Snapshot()), port.buttons[..], clock.millis)
    {
      TableWellFormed();
      var now := clock.millis;
      var verdict := Verdicts(port.buttons[..], Snapshot(), now);
      step := Fsm.Scan(Table, state, verdict);
      if step.Fired? {
        var row := Table[step.row];
        match row.action {
          case Some(DoStoreTickPressedAction) => DoStoreTickPressed();
          case Some(DoSetDurationAction) => DoSetDuration();
          case None =>
        }
        state := row.dest;
      }
    }

    /** do_store_tick_pressed */
    method DoStoreTickPressed()
      modifies this
      ensures Snapshot() == StoredTickPressed(old(Snapshot()), clock.millis)
    {
      tickPressed := clock.millis;
      nextTimeout := Add(clock.millis, debounceTimeMs);
    }

    /** do_set_duration */
    method DoSetDuration()
      modifies this
      ensures Snapshot() == DurationSet(old(Snapshot()), clock.millis)
    {
      duration := Sub(clock.millis, tickPressed);
      nextTimeout := Add(clock.millis, debounceTimeMs);
    }

    /** fsm_button_get_state */
    function GetState(): (s: State)
      reads this
      ensures s == state
    {
      state
    }

    /** fsm_button_check_activity: only RELEASED is idle; both wait states count as active. */
    function CheckActivity(): (active: bool)
      reads this
      ensures !active <==> state == Released
      ensures state == PressedWait || state == ReleasedWait ==> active
    {
      state != Released
    }

    /** fsm_button_get_duration */
    function GetDuration(): (d: u32)
      reads this
      ensures d == duration
    {
      duration
    }

    /** fsm_button_get_debounce_time_ms */
    function GetDebounceTimeMs(): (d: u32)
      reads this
      ensures d == debounceTimeMs
    {
      debounceTimeMs
    }

    /** fsm_button_reset_duration: zeroes the duration and nothing else. */
    method ResetDuration()
      requires Valid()
      modifies this
      ensures Valid()
      ensures Snapshot() == old(Snapshot()).(duration := 0)
    {
      duration := 0;
    }
  }
}
