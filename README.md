# AutoWaterPump controller: sensor classification and main loop

This project models the parts of the AutoWaterPump plant-watering controller
whose behaviour lies in its own code. The watering scheduler, pump sequencer,
menu and button debouncer are separate classes. Only their declarations are
part of this model, so their results enter as inputs.

- **Sensors** (`src/sensors.cpp`). `SensorManager` keeps the last soil-moisture
  reading, the last water detection and the time of the last read. From these
  it derives:
  - a moisture percentage: Arduino `map` from 300..880 onto 0..100, then
    `constrain` to 0..100;
  - dry and wet bands, each 50 inside its calibration point;
  - a soil status: error, then dry, then wet, else OK;
  - a water status;
  - an overall health verdict.
- **Main loop** (`src/main.cpp`), with four parts:
  - a 100 ms rate limiter on the wrapping 32-bit millisecond counter;
  - the dispatch of pressed buttons to the menu;
  - the choice of screen for each menu page;
  - the system state machine (idle, watering, calibrating, error). It calls the
    pump's emergency stop when it enters the error state.

Modules: `Arduino` (integer widths, `map`, `constrain`, unsigned subtraction),
`Types` and `Config` (the enumerations and constants), `Sensors`, `MainLoop`.

Modelling decisions:

- The model assumes that `int` is 16 bits wide, as on AVR boards, and that
  `long` and `unsigned long` are 32 bits wide. The source does not name its
  board, and its use of `std::to_string` points to a toolchain other than AVR.
  `MapFitsMachineIntegers` proves that, under this assumption, `map` never
  overflows a `long` for any reading, so the model computes on unbounded
  integers without losing anything.
- C division truncates toward zero; `TruncDiv` models it. The percentage is
  proved equal to the one computed with flooring division.
- `handleStateChanges` calls `sensorsHealthy()` and `isSafeToOperate()` twice:
  once in the `ERROR_STATE` case of the switch, and again in the error check.
  `sensorsHealthy()` reads the water pin each time, so the two calls can
  disagree. `Step` therefore takes two health evaluations, `atSwitch` and
  `atCheck`.
  - When the two agree, the state ends in `ErrorState` exactly when the system
    is unhealthy or unsafe. The emergency stop then fires only on entry into
    the error state.
  - When they disagree, the error state can be left and re-entered within one
    call, and the stop fires again (`StopReissuedWhenEvaluationsDisagree`).
- `handleUserInput` passes every pressed button to the menu, in index order
  (src/main.cpp:93-97); the model follows the code.
- Hardware reads are parameters: the analog readings, the water pin,
  `millis()` at the top of the loop and when the readings are stored. So are
  the outputs of the other collaborators: `isCurrentlyWatering`,
  `isPumpRunning`, `isSafeToOperate`, and the page the menu shows after the
  presses. Calls to `menu.handleButtonPress` are returned as the list of
  indices passed. Calls to `pump.emergencyStop` and `display.displayError` are
  returned as a flag.

## Model

| member | source | states |
|---|---|---|
| `Arduino.TruncDiv` | src/sensors.cpp:45 | C division agrees with flooring division on non-negative numerators and never yields a positive quotient for a negative one |
| `Arduino.TruncDivOdd` | src/sensors.cpp:45 | C division is symmetric about zero: dividing `-n` gives the negated quotient of `n` |
| `Arduino.TruncDivMonotone` | src/sensors.cpp:45 | C division by a positive divisor is monotone in the numerator, for numerators of either sign |
| `Arduino.Constrain` | src/sensors.cpp:46 | `constrain` returns a value within [low, high], leaves a value already in range unchanged, and sends values below to `low` and above to `high` |
| `Arduino.Map` | src/sensors.cpp:45 | `map` sends the low end of the input range to the low end of the output range and the high end to the high end |
| `Arduino.ULongSub` | src/main.cpp:68 | unsigned 32-bit subtraction is the inverse of addition modulo 2^32 |
| `Arduino.ULongSubRecoversElapsed` | src/main.cpp:65-68 | subtracting the earlier counter value from the later one gives back the elapsed time, wraparound included, for any elapsed time under 2^32 ms |
| `Sensors.MoisturePercentage` | src/sensors.cpp:43-47 | the percentage is within [0, 100] for every reading; it is 0 for readings up to 300 and 100 for readings from 880 |
| `Sensors.MapFitsMachineIntegers` | src/sensors.cpp:45 | for every 16-bit reading, `(reading - 300) * 100` fits a 32-bit `long`, and the result of `map` fits the 16-bit `int` it is stored in |
| `Sensors.PercentageAgreesWithFloorDivision` | src/sensors.cpp:45-46 | after clamping, the percentage computed with truncating division equals the one computed with flooring division |
| `Sensors.PercentageBetweenCalibrationPoints` | src/sensors.cpp:45-46 | between 300 and 880 the clamp does nothing: the percentage is `(reading - 300) * 100 / 580` |
| `Sensors.PercentageMonotone` | src/sensors.cpp:45-46 | a higher reading never gives a lower percentage |
| `Sensors.InDryBand` | src/sensors.cpp:51-53 | the dry band (reading at most 350) shows at most 8 %, and every reading showing 0 % is in it |
| `Sensors.InWetBand` | src/sensors.cpp:55-57 | the wet band (reading at least 830) shows at least 91 %, and every reading showing 100 % is in it |
| `Sensors.DryAndWetBandsDisjoint` | src/sensors.cpp:51-57 | no reading is both dry (at most 350) and wet (at least 830); exactly readings 351..829 are in neither band |
| `Sensors.SoilStatus` | src/sensors.cpp:59-71 | error iff the reading is below 0 or above 1023; otherwise dry exactly for 0..350, wet exactly for 830..1023, OK exactly for 351..829 |
| `Sensors.DetectsWater` | src/sensors.cpp:35-39 | water is detected when the analog reading is strictly above 350 (its properties are stated by the next two rows) |
| `Sensors.WaterStatusFromReading` | src/sensors.cpp:35-39 | through the analog detection, the water status is an error iff the water pin reads low and the analog reading is at most 350; a reading above 350 keeps it OK whatever the pin reads |
| `Sensors.WaterThresholdIsExclusive` | src/sensors.cpp:35-39 | water is detected iff the analog reading is at least 351; a reading of exactly 350 is not detection |
| `Sensors.WaterStatus` | src/sensors.cpp:73-80 | the water status is OK or error, and error iff the water pin reads low and no water was detected |
| `Sensors.SensorsHealthy` | src/sensors.cpp:82-85 | healthy iff the soil reading is within 0..1023 and the water pin is high or water was detected |
| `Sensors.SensorManager.constructor` | src/sensors.cpp:3-7 | a new manager holds reading 0, no detection and read time 0 |
| `Sensors.SensorManager.UpdateReadings` | src/sensors.cpp:18-27 | the three fields become the new reading, the detection derived from the water reading, and the read time |
| `Sensors.SensorManager.GetMoistureLevel` | src/sensors.cpp:41 | returns the stored raw reading |
| `Sensors.SensorManager.GetMoisturePercentage` | src/sensors.cpp:43-47 | delegates to `MoisturePercentage` on the stored reading, so the result is within [0, 100] |
| `Sensors.SensorManager.IsWaterDetected` | src/sensors.cpp:49 | returns the stored water detection |
| `Sensors.SensorManager.IsSoilDry` | src/sensors.cpp:51-53 | the stored reading's dry band: a dry reading shows at most 8 %, and a reading showing 0 % is dry |
| `Sensors.SensorManager.IsSoilWet` | src/sensors.cpp:55-57 | the stored reading's wet band: a wet reading shows at least 91 %, and a reading showing 100 % is wet |
| `Sensors.SensorManager.GetSoilStatus` | src/sensors.cpp:59-71 | error iff the stored reading is outside 0..1023; otherwise dry iff `isSoilDry()`, and wet iff not dry and `isSoilWet()` |
| `Sensors.SensorManager.GetWaterStatus` | src/sensors.cpp:73-80 | delegates to `WaterStatus` with the stored detection; the result is OK or error |
| `Sensors.SensorManager.Healthy` | src/sensors.cpp:82-85 | delegates to `SensorsHealthy`; healthy iff neither the soil status nor the water status of the stored readings is an error |
| `Sensors.SensorManager.GetLastReadTime` | src/sensors.cpp:92 | returns the stored time of the last read |
| `MainLoop.UpdateDue` | src/main.cpp:68 | the gate never opens at the same timestamp; without a wrap in between it opens iff the plain difference is at least 100 |
| `MainLoop.UpdateDueAcrossWraparound` | src/main.cpp:64-70 | the loop body runs exactly when at least 100 ms have really elapsed since the last update, for any elapsed time under 2^32 ms, across counter wraparound too |
| `MainLoop.PressedIndices` | src/main.cpp:88-98 | every index in the dispatch list is a button in range whose state is pressed, and the list is no longer than the button array |
| `MainLoop.PressedIndicesExact` | src/main.cpp:88-98 | the dispatched indices are exactly those of the pressed buttons, in strictly ascending order |
| `MainLoop.HandleUserInput` | src/main.cpp:88-98 | every button in state pressed, and no other, is passed to the menu once, in ascending index order; released and held buttons never are |
| `MainLoop.ScreenFor` | src/main.cpp:100-128 | every page gets a screen that belongs to that page |
| `MainLoop.PaintedBy` | src/main.cpp:183-191 | a screen is drawn by the menu system's `displayCurrentMenu` iff it belongs to the settings or calibration page |
| `MainLoop.ScreenSelection` | src/main.cpp:100-191 | distinct pages get distinct screens and every screen is reachable; exactly the settings and calibration pages are drawn by the menu system |
| `MainLoop.SwitchStep` | src/main.cpp:206-229 | the switch keeps calibrating and never enters it from another state; it ends in error only if it started there and the first health check failed |
| `MainLoop.Step` | src/main.cpp:204-239 | a failing error check always ends in the error state; the emergency stop fires iff the check fails and the switch did not leave the state in error; ending in error with a passing check means the state was error and the switch's check failed |
| `MainLoop.ErrorStateIffUnhealthy` | src/main.cpp:219-238 | with consistent evaluations the new state is error iff unhealthy or unsafe, and the stop fires iff entering error from another state |
| `MainLoop.ErrorStateExit` | src/main.cpp:219-238 | the error state is left iff both evaluations pass, and only for idle |
| `MainLoop.HealthyTransitions` | src/main.cpp:206-229 | when healthy: idle moves to watering iff auto-watering is in progress; watering returns to idle iff auto-watering is over and the pump is stopped, and otherwise stays watering; calibrating stays calibrating with no stop |
| `MainLoop.StopReissuedWhenEvaluationsDisagree` | src/main.cpp:219-237 | when the switch's check passes and the later check fails, the error state is kept and the emergency stop fires again |
| `MainLoop.RunNeverCalibrates` | src/main.cpp:204-239 | no sequence of state changes starting outside calibrating ever reaches calibrating |
| `MainLoop.RunEndsInErrorIffLastUnhealthy` | src/main.cpp:204-239 | after any non-empty sequence of state changes whose last evaluations agree, the state is error iff the last evaluation failed |
| `MainLoop.Controller.constructor` | src/main.cpp:24-25 | the controller starts idle with last update 0 |
| `MainLoop.Controller.HandleStateChanges` | src/main.cpp:204-239 | the new state and the stop flag are those of `Step` on the old state; the last-update time is untouched |
| `MainLoop.Controller.Loop` | src/main.cpp:64-86 | the body runs iff the update is due. If not, nothing changes. If it runs: the last update becomes the current time, the sensor fields are refreshed, the pressed buttons are dispatched, the page's screen is chosen, and the state steps with health computed from the fresh readings |

## Left out

- Hardware access (`pinMode`, `digitalWrite`, `analogRead`, `digitalRead`, `delay`, `millis`, `Serial`): I/O. Their results are parameters.
- `SensorManager::init`, `powerSensors`, `startCalibrationMode`, `endCalibrationMode`, `getRawMoistureReading`, and the sensor power-up and warm-up delay inside `updateReadings`: pin output and blocking waits only.
- `setup` (src/main.cpp:38-62): module initialisation, EEPROM settings load, the boot animation and its delay.
- The body of the loop's collaborators (`buttons.update`, `pump.update`, `autoWatering.update`, `menu.handleButtonPress`, `menu.displayCurrentMenu`, `pump.isSafeToOperate`, `pump.emergencyStop`): their code is not part of this model. The watering scheduler, pump sequencing, debouncing, menu navigation and calibration flow therefore do not appear; their outputs enter as inputs.
- The text each screen prints (`displayMainScreen`, `displayAutoWateringInfo`, `displayManualWateringControls`, `displayDebugInfo`): LCD output assembled with `String`/`std::to_string`. Only which screen is drawn, and by whom, is modelled.
- `DEFAULT_WATER_CUPS_TARGET` and the watering volume: floating point, used only by the scheduler.
- `MainLoop.Controller.Loop`: assumes that `pump.update`, `autoWatering.update` and the menu calls, which run between `sensors.updateReadings()` and `handleStateChanges()` (src/main.cpp:72-83), do not change `SensorManager`'s fields. `autoWatering` holds a pointer to the shared `SensorManager` (src/main.cpp:21), and its body is not part of this model. The `ensures` about the sensor fields and about the readings behind both health evaluations rest on this assumption.
- `Sensors.MapFitsMachineIntegers`: holds under the assumed 16-bit `int` only. On a board with 32-bit `int`, a reading beyond about 21 million would overflow `(reading - 300) * 100`. `analogRead` never returns such a value.
