/** The top-level control loop: a rate limiter on the millisecond counter, the
    dispatch of button presses to the menu, the choice of screen for the current
    menu page, and the system state machine with its emergency stop. */
module MainLoop {
  import opened Arduino
  import opened Config
  import opened Types
  import opened Sensors

  /** The loop body runs at most once every 100 ms. */
  const UPDATE_INTERVAL: int := 100

  // ---------------------------------------------------------------------------
  // Rate limiter

  /** `currentTime - lastUpdate >= UPDATE_INTERVAL` on `unsigned long`. */
  predicate UpdateDue(currentTime: ULong, lastUpdate: ULong): (due: bool)
    ensures currentTime == lastUpdate ==> !due
    ensures lastUpdate <= currentTime ==> (due <==> currentTime - lastUpdate >= UPDATE_INTERVAL)
  {
    ULongSub(currentTime, lastUpdate) >= UPDATE_INTERVAL
  }

  /** The gate opens exactly when at least 100 ms have really passed since the
      last update, for any elapsed time shorter than one turn of the counter,
      including when the counter wrapped around in between. */
  lemma {:induction false} UpdateDueAcrossWraparound(lastUpdate: ULong, elapsed: nat)
    requires elapsed < ULONG_MODULUS
    ensures UpdateDue(ULongAdvance(lastUpdate, elapsed), lastUpdate) <==> elapsed >= UPDATE_INTERVAL
  {
    ULongSubRecoversElapsed(lastUpdate, elapsed);
  }

  // ---------------------------------------------------------------------------
  // Button dispatch

  /** Indices of the pressed buttons, in ascending order. */
  function PressedIndices(states: seq<ButtonState>): (pressed: seq<nat>)
    ensures |pressed| <= |states|
    ensures forall j :: 0 <= j < |pressed| ==> pressed[j] < |states| && states[pressed[j]] == ButtonPressed
  {
    if |states| == 0 then []
    else
      PressedIndices(states[..|states| - 1])
      + (if states[|states| - 1] == ButtonPressed then [|states| - 1] else [])
  }

  /** Every pressed button appears, nothing else does, and the order is ascending. */
  lemma {:induction false} PressedIndicesExact(states: seq<ButtonState>)
    ensures forall i: int :: i in PressedIndices(states) <==> 0 <= i < |states| && states[i] == ButtonPressed
    ensures forall j, k :: 0 <= j < k < |PressedIndices(states)| ==> PressedIndices(states)[j] < PressedIndices(states)[k]
  {
    if |states| > 0 {
      var init := states[..|states| - 1];
      PressedIndicesExact(init);
      assert forall i :: 0 <= i < |init| ==> init[i] == states[i];
      var prev := PressedIndices(init);
      forall j | 0 <= j < |prev|
        ensures prev[j] < |init|
      {
        assert prev[j] in prev;
      }
    }
  }

  /** Passes every button whose state is `ButtonPressed` to the menu, in index
      order; returns the indices handed to the menu's `handleButtonPress`, one
      per call. Released and held buttons are never passed on. */
  method HandleUserInput(buttonStates: array<ButtonState>) returns (dispatched: seq<nat>)
    requires buttonStates.Length == TOTAL_BUTTONS
    ensures dispatched == PressedIndices(buttonStates[..])
    ensures forall i: int :: i in dispatched <==> 0 <= i < TOTAL_BUTTONS && buttonStates[i] == ButtonPressed
    ensures forall j, k :: 0 <= j < k < |dispatched| ==> dispatched[j] < dispatched[k]
  {
    dispatched := [];
    for i := 0 to TOTAL_BUTTONS
      invariant dispatched == PressedIndices(buttonStates[..i])
    {
      assert buttonStates[..i + 1][..i] == buttonStates[..i];
      if buttonStates[i] == ButtonPressed {
        dispatched := dispatched + [i];
      }
    }
    assert buttonStates[..TOTAL_BUTTONS] == buttonStates[..];
    PressedIndicesExact(buttonStates[..]);
  }

  // ---------------------------------------------------------------------------
  // Screen selection

  /** The six screens `updateDisplay` can draw. */
  datatype Screen =
    | MainScreen
    | AutoWateringInfo
    | ManualWateringControls
    | SettingsScreen
    | CalibrationScreen
    | DebugInfo

  /** Who draws a screen: the loop itself on the display, or the menu system's
      `displayCurrentMenu`. */
  datatype Painter = LoopPaints | MenuSystemPaints

  /** The page a screen belongs to. */
  function PageOf(screen: Screen): MenuPage {
    match screen
    case MainScreen => MainMenu
    case AutoWateringInfo => AutoWateringMenu
    case ManualWateringControls => ManualWateringMenu
    case SettingsScreen => SettingsMenu
    case CalibrationScreen => CalibrationMenu
    case DebugInfo => DebugMenu
  }

  /** `updateDisplay`: exactly one screen per page, and that screen belongs to the page. */
  function ScreenFor(page: MenuPage): (screen: Screen)
    ensures PageOf(screen) == page
  {
    match page
    case MainMenu => MainScreen
    case AutoWateringMenu => AutoWateringInfo
    case ManualWateringMenu => ManualWateringControls
    case SettingsMenu => SettingsScreen
    case CalibrationMenu => CalibrationScreen
    case DebugMenu => DebugInfo
  }

  /** Settings and calibration are drawn by the menu system, the rest by the loop. */
  function PaintedBy(screen: Screen): (painter: Painter)
    ensures painter == MenuSystemPaints <==> PageOf(screen) == SettingsMenu || PageOf(screen) == CalibrationMenu
  {
    match screen
    case SettingsScreen => MenuSystemPaints
    case CalibrationScreen => MenuSystemPaints
    case _ => LoopPaints
  }

  /** Distinct pages get distinct screens, every screen is used, and exactly the
      settings and calibration pages are left to the menu system. */
  lemma ScreenSelection(page: MenuPage, other: MenuPage, screen: Screen)
    ensures ScreenFor(page) == ScreenFor(other) ==> page == other
    ensures ScreenFor(PageOf(screen)) == screen
    ensures PaintedBy(ScreenFor(page)) == MenuSystemPaints <==> page == SettingsMenu || page == CalibrationMenu
  {
  }

  // ---------------------------------------------------------------------------
  // System state machine

  /** One evaluation of `sensors.sensorsHealthy()` and `pump.isSafeToOperate()`. */
  datatype Health = Health(sensorsHealthy: bool, safeToOperate: bool) {
    predicate Ok() {
      sensorsHealthy && safeToOperate
    }
  }

  /** The state after `handleStateChanges`, and whether it stopped the pump and
      showed the error message. */
  datatype Transition = Transition(next: SystemState, emergencyStop: bool)

  /** The `switch` of `handleStateChanges`. */
  function SwitchStep(state: SystemState, watering: bool, pumpRunning: bool, atSwitch: Health): (next: SystemState)
    ensures next == Calibrating <==> state == Calibrating
    ensures next == ErrorState ==> state == ErrorState && !atSwitch.Ok()
  {
    match state
    case Idle => if watering then Watering else Idle
    case Watering => if !watering && !pumpRunning then Idle else Watering
    case ErrorState => if atSwitch.Ok() then Idle else ErrorState
    case Calibrating => Calibrating
  }

  /** `handleStateChanges`: the switch, then the error check. `watering` is
      `autoWatering.isCurrentlyWatering()`, `pumpRunning` is `pump.isPumpRunning()`.
      The health checks are evaluated twice, once by the switch (in the error
      state only) and once by the error check; `atSwitch` and `atCheck` are the
      two results. */
  function Step(state: SystemState, watering: bool, pumpRunning: bool, atSwitch: Health, atCheck: Health): (t: Transition)
    ensures !atCheck.Ok() ==> t.next == ErrorState
    ensures t.emergencyStop <==> !atCheck.Ok() && SwitchStep(state, watering, pumpRunning, atSwitch) != ErrorState
    ensures t.next == ErrorState && atCheck.Ok() ==> state == ErrorState && !atSwitch.Ok()
  {
    var afterSwitch := SwitchStep(state, watering, pumpRunning, atSwitch);
    if !atCheck.Ok() && afterSwitch != ErrorState then
      Transition(ErrorState, true)
    else
      Transition(afterSwitch, false)
  }

  /** With both evaluations agreeing, the new state is the error state exactly
      when the system is unhealthy or unsafe, and the emergency stop is issued
      exactly on entry into the error state. */
  lemma ErrorStateIffUnhealthy(state: SystemState, watering: bool, pumpRunning: bool, health: Health)
    ensures Step(state, watering, pumpRunning, health, health).next == ErrorState <==> !health.Ok()
    ensures Step(state, watering, pumpRunning, health, health).emergencyStop <==> state != ErrorState && !health.Ok()
  {
  }

  /** The error state is left only when both evaluations pass, and then for idle. */
  lemma ErrorStateExit(watering: bool, pumpRunning: bool, atSwitch: Health, atCheck: Health)
    ensures Step(ErrorState, watering, pumpRunning, atSwitch, atCheck).next != ErrorState
        <==> atSwitch.Ok() && atCheck.Ok()
    ensures Step(ErrorState, watering, pumpRunning, atSwitch, atCheck).next in {Idle, ErrorState}
  {
  }

  /** The healthy transitions: idle starts watering exactly when auto-watering is in
      progress; watering ends exactly when auto-watering is over and the pump has
      stopped; calibrating is left alone. */
  lemma HealthyTransitions(watering: bool, pumpRunning: bool, health: Health)
    requires health.Ok()
    ensures Step(Idle, watering, pumpRunning, health, health).next == (if watering then Watering else Idle)
    ensures Step(Watering, watering, pumpRunning, health, health).next == Idle <==> !watering && !pumpRunning
    ensures Step(Watering, watering, pumpRunning, health, health).next in {Idle, Watering}
    ensures Step(Calibrating, watering, pumpRunning, health, health) == Transition(Calibrating, false)
  {
  }

  /** When the two evaluations disagree, the error state can be left by the switch
      and re-entered by the check in the same call, which issues the emergency
      stop again although the state was and stays the error state. */
  lemma StopReissuedWhenEvaluationsDisagree()
    ensures Step(ErrorState, false, false, Health(true, true), Health(false, true))
         == Transition(ErrorState, true)
  {
  }

  /** What the collaborators report to one `handleStateChanges` call. */
  datatype StepInput = StepInput(watering: bool, pumpRunning: bool, atSwitch: Health, atCheck: Health)

  /** The state after a sequence of `handleStateChanges` calls. */
  function Run(state: SystemState, inputs: seq<StepInput>): SystemState
    decreases |inputs|
  {
    if |inputs| == 0 then state
    else
      var i := inputs[0];
      Run(Step(state, i.watering, i.pumpRunning, i.atSwitch, i.atCheck).next, inputs[1..])
  }

  /** Nothing in the loop enters the calibrating state: from any other state,
      no sequence of calls reaches it. */
  lemma {:induction false} RunNeverCalibrates(state: SystemState, inputs: seq<StepInput>)
    requires state != Calibrating
    ensures Run(state, inputs) != Calibrating
    decreases |inputs|
  {
    if |inputs| > 0 {
      var i := inputs[0];
      RunNeverCalibrates(Step(state, i.watering, i.pumpRunning, i.atSwitch, i.atCheck).next, inputs[1..]);
    }
  }

  /** After any non-empty run whose last call saw consistent evaluations, the state
      is the error state exactly when that last call found the system unhealthy
      or unsafe. */
  lemma {:induction false} RunEndsInErrorIffLastUnhealthy(state: SystemState, inputs: seq<StepInput>)
    requires |inputs| > 0
    requires inputs[|inputs| - 1].atSwitch == inputs[|inputs| - 1].atCheck
    ensures Run(state, inputs) == ErrorState <==> !inputs[|inputs| - 1].atCheck.Ok()
    decreases |inputs|
  {
    var i := inputs[0];
    var next := Step(state, i.watering, i.pumpRunning, i.atSwitch, i.atCheck).next;
    if |inputs| == 1 {
      ErrorStateIffUnhealthy(state, i.watering, i.pumpRunning, i.atCheck);
    } else {
      RunEndsInErrorIffLastUnhealthy(next, inputs[1..]);
    }
  }

  // ---------------------------------------------------------------------------
  // The loop

  datatype Option<T> = None | Some(value: T)

  /** What the hardware and the collaborators report during one `loop` call:
      the counter at the top of the loop; the two analog readings and the counter
      at the moment they were stored; the button states; the page the menu shows
      after the presses; the watering and pump flags; and, for each of the two
      health evaluations, the water pin and the pump's safety verdict. */
  datatype TickInputs = TickInputs(
    currentTime: ULong,
    moistureReading: Int16,
    waterReading: Int16,
    readTime: ULong,
    buttonStates: seq<ButtonState>,
    page: MenuPage,
    watering: bool,
    pumpRunning: bool,
    waterPinAtSwitch: bool,
    safeAtSwitch: bool,
    waterPinAtCheck: bool,
    safeAtCheck: bool)

  /** What one `loop` call did when its body ran. */
  datatype TickOutcome = TickOutcome(dispatched: seq<nat>, screen: Screen, emergencyStop: bool)

  class Controller {
    var currentState: SystemState
    var lastUpdate: ULong
    const sensors: SensorManager

    constructor (sensors: SensorManager)
      ensures currentState == Idle && lastUpdate == 0 && this.sensors == sensors
    {
      currentState := Idle;
      lastUpdate := 0;
      this.sensors := sensors;
    }

    /** `handleStateChanges`. Returns whether `pump.emergencyStop()` was called and
        the error message shown. */
    method HandleStateChanges(watering: bool, pumpRunning: bool, atSwitch: Health, atCheck: Health)
      returns (stopped: bool)
      modifies this
      ensures Transition(currentState, stopped) == Step(old(currentState), watering, pumpRunning, atSwitch, atCheck)
      ensures lastUpdate == old(lastUpdate)
    {
      match currentState {
        case Idle =>
          if watering {
            currentState := Watering;
          }
        case Watering =>
          if !watering && !pumpRunning {
            currentState := Idle;
          }
        case ErrorState =>
          if atSwitch.Ok() {
            currentState := Idle;
          }
        case Calibrating =>
      }
      stopped := false;
      if !atCheck.Ok() {
        if currentState != ErrorState {
          currentState := ErrorState;
          stopped := true;
        }
      }
    }

    /** `loop`: when at least `UPDATE_INTERVAL` ms have passed on the wrapping
        counter, record the time, refresh the sensors, dispatch the button
        presses, pick the screen and step the state machine; otherwise do nothing. */
    method Loop(input: TickInputs) returns (outcome: Option<TickOutcome>)
      requires |input.buttonStates| == TOTAL_BUTTONS
      modifies this, sensors
      ensures outcome.Some? <==> UpdateDue(input.currentTime, old(lastUpdate))
      ensures outcome.None? ==>
        && currentState == old(currentState) && lastUpdate == old(lastUpdate)
        && sensors.lastMoistureReading == old(sensors.lastMoistureReading)
        && sensors.lastWaterDetection == old(sensors.lastWaterDetection)
        && sensors.lastReadTime == old(sensors.lastReadTime)
      ensures outcome.Some? ==>
        && lastUpdate == input.currentTime
        && sensors.lastMoistureReading == input.moistureReading
        && sensors.lastWaterDetection == DetectsWater(input.waterReading)
        && sensors.lastReadTime == input.readTime
        && outcome.value.dispatched == PressedIndices(input.buttonStates)
        && outcome.value.screen == ScreenFor(input.page)
        && var detected := DetectsWater(input.waterReading);
           var atSwitch := Health(SensorsHealthy(input.moistureReading, detected, input.waterPinAtSwitch), input.safeAtSwitch);
           var atCheck := Health(SensorsHealthy(input.moistureReading, detected, input.waterPinAtCheck), input.safeAtCheck);
           Transition(currentState, outcome.value.emergencyStop)
           == Step(old(currentState), input.watering, input.pumpRunning, atSwitch, atCheck)
    {
      if !UpdateDue(input.currentTime, lastUpdate) {
        return None;
      }
      lastUpdate := input.currentTime;

      sensors.UpdateReadings(input.moistureReading, input.waterReading, input.readTime);

      var states := new ButtonState[TOTAL_BUTTONS](i requires 0 <= i < TOTAL_BUTTONS => input.buttonStates[i]);
      assert states[..] == input.buttonStates;
      var dispatched := HandleUserInput(states);

      var screen := ScreenFor(input.page);

      var atSwitch := Health(sensors.Healthy(input.waterPinAtSwitch), input.safeAtSwitch);
      var atCheck := Health(sensors.Healthy(input.waterPinAtCheck), input.safeAtCheck);
      var stopped := HandleStateChanges(input.watering, input.pumpRunning, atSwitch, atCheck);

      outcome := Some(TickOutcome(dispatched, screen, stopped));
    }
  }
}
