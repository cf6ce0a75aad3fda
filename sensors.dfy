/** The soil-moisture and water-presence sensors: how a raw reading is turned
    into a percentage, a dry/wet band, a status and a health verdict, and the
    `SensorManager` object that keeps the latest readings. */
module Sensors {
  import opened Arduino
  import opened Config
  import opened Types

  /** Margin added to the dry and wet calibration points. */
  const HYSTERESIS: int := 50
  /** Largest value the 10-bit analog converter can return. */
  const ADC_MAX: int := 1023

  // ---------------------------------------------------------------------------
  // Moisture percentage

  /** `map(reading, DRY_VALUE, WET_VALUE, 0, 100)` clamped to 0..100. */
  function MoisturePercentage(reading: Int16): (p: int)
    ensures 0 <= p <= 100
    ensures reading <= DRY_VALUE ==> p == 0
    ensures reading >= WET_VALUE ==> p == 100
  {
    Constrain(Map(reading, DRY_VALUE, WET_VALUE, 0, 100), 0, 100)
  }

  /** For every 16-bit reading, `map` never leaves the 32-bit `long` range on its
      way, and its result fits the 16-bit `int` it is stored in. */
  lemma MapFitsMachineIntegers(reading: Int16)
    ensures InLong(reading - DRY_VALUE)
    ensures InLong((reading - DRY_VALUE) * 100)
    ensures -0x8000 <= Map(reading, DRY_VALUE, WET_VALUE, 0, 100) <= 0x7FFF
  {
    var n := (reading - DRY_VALUE) * 100;
    assert -3_306_800 <= n <= 3_246_700;
    TruncDivMonotone(-3_306_800, n, 580);
    TruncDivMonotone(n, 3_246_700, 580);
  }

  /** Dafny's flooring division gives the same percentage as C's truncating one,
      because the two differ only on negative quotients, which the clamp sends to 0. */
  lemma PercentageAgreesWithFloorDivision(reading: Int16)
    ensures MoisturePercentage(reading)
         == Constrain((reading - DRY_VALUE) * 100 / (WET_VALUE - DRY_VALUE), 0, 100)
  {
    var n := (reading - DRY_VALUE) * 100;
    if n < 0 {
      assert n / 580 < 0;
    }
  }

  /** Between the calibration points no clamping happens. */
  lemma PercentageBetweenCalibrationPoints(reading: Int16)
    requires DRY_VALUE <= reading <= WET_VALUE
    ensures MoisturePercentage(reading) == (reading - DRY_VALUE) * 100 / (WET_VALUE - DRY_VALUE)
  {
    var n := (reading - DRY_VALUE) * 100;
    assert 0 <= n <= 58_000;
    FloorDivMonotone(n, 58_000, 580);
  }

  /** A wetter reading never gives a lower percentage. */
  lemma PercentageMonotone(r1: Int16, r2: Int16)
    ensures r1 <= r2 ==> MoisturePercentage(r1) <= MoisturePercentage(r2)
  {
    if r1 <= r2 {
      TruncDivMonotone((r1 - DRY_VALUE) * 100, (r2 - DRY_VALUE) * 100, WET_VALUE - DRY_VALUE);
    }
  }

  // ---------------------------------------------------------------------------
  // Dry and wet bands, soil status

  /** Dry band: at most 50 above the dry calibration point. A dry reading shows
      at most 8 %, and a reading that shows 0 % is always dry. */
  predicate InDryBand(reading: Int16): (dry: bool)
    ensures dry ==> MoisturePercentage(reading) <= 8
    ensures MoisturePercentage(reading) == 0 ==> dry
  {
    PercentageMonotone(reading, 350);
    PercentageMonotone(351, reading);
    reading <= DRY_VALUE + HYSTERESIS
  }

  /** Wet band: at least 50 below the wet calibration point. A wet reading shows
      at least 91 %, and a reading that shows 100 % is always wet. */
  predicate InWetBand(reading: Int16): (wet: bool)
    ensures wet ==> MoisturePercentage(reading) >= 91
    ensures MoisturePercentage(reading) == 100 ==> wet
  {
    PercentageMonotone(830, reading);
    PercentageMonotone(reading, 879);
    reading >= WET_VALUE - HYSTERESIS
  }

  /** The bands are disjoint, with readings 351..829 in neither. */
  lemma DryAndWetBandsDisjoint(reading: Int16)
    ensures !(InDryBand(reading) && InWetBand(reading))
    ensures !InDryBand(reading) && !InWetBand(reading) <==> 351 <= reading <= 829
  {
  }

  /** Soil status: an out-of-range reading is an error; otherwise the dry band is
      tested before the wet band, and anything in between is OK. */
  function SoilStatus(reading: Int16): (s: SensorStatus)
    ensures s == SensorError <==> reading < 0 || reading > 1023
    ensures s == SensorDry <==> 0 <= reading <= 350
    ensures s == SensorWet <==> 830 <= reading <= 1023
    ensures s == SensorOk <==> 351 <= reading <= 829
  {
    if reading < 0 || reading > ADC_MAX then
      SensorError
    else if InDryBand(reading) then
      SensorDry
    else if InWetBand(reading) then
      SensorWet
    else
      SensorOk
  }

  // ---------------------------------------------------------------------------
  // Water presence

  /** Water is present when the analog water reading is strictly above the threshold. */
  predicate DetectsWater(analogReading: int) {
    analogReading > WATER_DETECT_THRESHOLD
  }

  /** The threshold itself does not count as water; one step above it does. */
  lemma WaterThresholdIsExclusive(analogReading: int)
    ensures DetectsWater(analogReading) <==> analogReading >= 351
    ensures !DetectsWater(350) && DetectsWater(351)
  {
  }

  /** The water sensors are in error when neither the digital water pin nor the
      last analog detection reports water. */
  function WaterStatus(waterPinHigh: bool, waterDetected: bool): (s: SensorStatus)
    ensures s == SensorOk || s == SensorError
    ensures s == SensorError <==> !waterPinHigh && !waterDetected
  {
    if !waterPinHigh && !waterDetected then SensorError else SensorOk
  }

  /** Through the analog detection, the water status is an error exactly when the
      water pin reads low and the analog reading is at or below the threshold:
      a reading above it keeps the status OK whatever the pin reads. */
  lemma WaterStatusFromReading(analogReading: int, waterPinHigh: bool)
    ensures WaterStatus(waterPinHigh, DetectsWater(analogReading)) == SensorError
        <==> !waterPinHigh && analogReading <= WATER_DETECT_THRESHOLD
  {
  }

  /** Healthy when neither the soil status nor the water status is an error. */
  function SensorsHealthy(reading: Int16, waterDetected: bool, waterPinHigh: bool): (h: bool)
    ensures h <==> 0 <= reading <= 1023 && (waterPinHigh || waterDetected)
  {
    SoilStatus(reading) != SensorError && WaterStatus(waterPinHigh, waterDetected) != SensorError
  }

  // ---------------------------------------------------------------------------
  // The object holding the latest readings

  class SensorManager {
    var lastMoistureReading: Int16
    var lastWaterDetection: bool
    var lastReadTime: ULong

    constructor ()
      ensures lastMoistureReading == 0 && !lastWaterDetection && lastReadTime == 0
    {
      lastMoistureReading := 0;
      lastWaterDetection := false;
      lastReadTime := 0;
    }

    /** Stores a fresh soil reading, the water detection derived from the analog
        water reading, and the time of the read. Powering the sensors, the warm-up
        delay and the reads themselves are done by the caller, which passes in
        what `analogRead` and `millis` returned. */
    method UpdateReadings(moistureReading: Int16, waterReading: Int16, now: ULong)
      modifies this
      ensures lastMoistureReading == moistureReading
      ensures lastWaterDetection == DetectsWater(waterReading)
      ensures lastReadTime == now
    {
      lastMoistureReading := moistureReading;
      lastWaterDetection := DetectsWater(waterReading);
      lastReadTime := now;
    }

    function GetMoistureLevel(): int
      reads this
    {
      lastMoistureReading
    }

    function GetMoisturePercentage(): (p: int)
      reads this
      ensures 0 <= p <= 100
    {
      MoisturePercentage(lastMoistureReading)
    }

    predicate IsWaterDetected()
      reads this
    {
      lastWaterDetection
    }

    /** Dry band of the stored reading, in percentage terms. */
    predicate IsSoilDry(): (dry: bool)
      reads this
      ensures dry ==> GetMoisturePercentage() <= 8
      ensures GetMoisturePercentage() == 0 ==> dry
    {
      InDryBand(lastMoistureReading)
    }

    /** Wet band of the stored reading, in percentage terms. */
    predicate IsSoilWet(): (wet: bool)
      reads this
      ensures wet ==> GetMoisturePercentage() >= 91
      ensures GetMoisturePercentage() == 100 ==> wet
    {
      InWetBand(lastMoistureReading)
    }

    /** The error test comes first, then the dry band, then the wet band. */
    function GetSoilStatus(): (s: SensorStatus)
      reads this
      ensures s == SensorError <==> lastMoistureReading < 0 || lastMoistureReading > 1023
      ensures s == SensorDry <==> lastMoistureReading >= 0 && IsSoilDry()
      ensures s == SensorWet <==> lastMoistureReading <= 1023 && !IsSoilDry() && IsSoilWet()
    {
      SoilStatus(lastMoistureReading)
    }

    /** `waterPinHigh` is what `digitalRead` of the water sensor pin returned. */
    function GetWaterStatus(waterPinHigh: bool): (s: SensorStatus)
      reads this
      ensures s == SensorOk || s == SensorError
    {
      WaterStatus(waterPinHigh, lastWaterDetection)
    }

    predicate Healthy(waterPinHigh: bool): (h: bool)
      reads this
      ensures h <==> GetSoilStatus() != SensorError && GetWaterStatus(waterPinHigh) != SensorError
    {
      SensorsHealthy(lastMoistureReading, lastWaterDetection, waterPinHigh)
    }

    function GetLastReadTime(): ULong
      reads this
    {
      lastReadTime
    }
  }
}
