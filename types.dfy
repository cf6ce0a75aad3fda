/** The enumerations shared by the controller's modules. */
module Types {

  /** The page the menu system is showing (numbered 0 to 5 in declaration order). */
  datatype MenuPage =
    | MainMenu
    | AutoWateringMenu
    | ManualWateringMenu
    | SettingsMenu
    | CalibrationMenu
    | DebugMenu

  datatype WateringMode = AutoMode | ManualMode | OffMode

  /** Pump speed levels 0, 1 and 2. */
  datatype PumpSpeed = PumpLow | PumpMid | PumpHigh

  datatype SensorStatus = SensorOk | SensorError | SensorDry | SensorWet

  datatype ButtonState = ButtonReleased | ButtonPressed | ButtonHeld

  /** The top-level state of the controller. */
  datatype SystemState = Idle | Watering | Calibrating | ErrorState
}

/** The configuration constants the modelled logic uses. */
module Config {

  /** Number of buttons, one per pin 2, 3, 4 and 5. */
  const TOTAL_BUTTONS: nat := 4

  /** Raw soil-moisture reading of completely dry soil. */
  const DRY_VALUE: int := 300
  /** Raw soil-moisture reading of saturated soil. */
  const WET_VALUE: int := 880
  /** Raw water-sensor reading above which water counts as present. */
  const WATER_DETECT_THRESHOLD: int := 350
}
