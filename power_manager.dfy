/**
 The battery part of the board's PowerManager: the ADC conversion, the debounced level
 query, one cycle of the background charge-direction task, and the three status queries.

 The calibrated millivolt value that the ADC driver would produce is passed in as a
 parameter; the function-local statics of the level query are fields of the object.
 */
module Power {
  import opened BatteryPolicy

  /** GPIO number meaning "not connected". */
  const GpioNotConnected: int := -1

  class PowerManager {
    /** An ADC unit was set up for the battery pin. */
    var hasAdcHandle: bool
    /** The ADC readings are converted with a calibration scheme. */
    var doCalibration: bool
    /** The charge-direction flag: true reads as charging, false as discharging. */
    var isState: bool
    /** Last accepted battery voltage (volts). */
    var lastVoltage: real
    /** Level that the last accepted voltage mapped to. */
    var lastLevel: int

    /** The persistent values of the level query. */
    function Memory(): LevelMemory
      reads this`lastVoltage, this`lastLevel
    {
      LevelMemory(lastVoltage, lastLevel)
    }

    ghost predicate Valid()
      reads this`lastVoltage, this`lastLevel
    {
      Consistent(Memory())
    }

    /** The ADC is set up only for a pin among GPIO 0 to 6; any other pin leaves it absent. */
    constructor (batAdcPin: int)
      ensures Valid()
      ensures hasAdcHandle == (0 <= batAdcPin <= 6) && doCalibration == hasAdcHandle
      ensures !isState
      ensures Memory() == Initial
    {
      var ready := batAdcPin != GpioNotConnected && 0 <= batAdcPin <= 6;
      hasAdcHandle := ready;
      doCalibration := ready;
      isState := false;
      lastVoltage := 0.0;
      lastLevel := 0;
    }

    /** Battery voltage from the calibrated reading at the divider (millivolts); the divider
        halves the cell voltage. 0.0 stands for "no reading". */
    function GetAdcLevel(millivolts: int): (volts: real)
      reads this`hasAdcHandle, this`doCalibration
      ensures hasAdcHandle && doCalibration ==> volts * 500.0 == millivolts as real
      ensures !(hasAdcHandle && doCalibration) ==> volts == 0.0
    {
      if hasAdcHandle && doCalibration then (millivolts as real / 1000.0) * 2.0 else 0.0
    }

    /** The debounced battery level for the reading the ADC gives now. */
    method GetBatteryLevel(millivolts: int) returns (level: int)
      requires Valid()
      modifies this`lastVoltage, this`lastLevel
      ensures Valid()
      ensures Memory() == NextMemory(old(Memory()), GetAdcLevel(millivolts))
      ensures level == Reported(old(Memory()), GetAdcLevel(millivolts))
      ensures level == 0 || IsLevel(level)
    {
      var voltage := GetAdcLevel(millivolts);
      ReportedRange(Memory(), voltage);
      ConsistentPreserved(Memory(), voltage);
      if voltage != 0.0 {
        if Abs(voltage - lastVoltage) >= DebounceThreshold {
          lastVoltage := voltage;
          lastLevel := Bucket(voltage);
        }
        level := lastLevel;
      } else {
        level := 100;
      }
    }

    /** One cycle of the background task: a sample, then (30 s later) a second sample. */
    method DirectionStep(firstMillivolts: int, secondMillivolts: int)
      modifies this`isState
      ensures isState == DirectionNext(old(isState), GetAdcLevel(firstMillivolts), GetAdcLevel(secondMillivolts))
    {
      var lastVol := GetAdcLevel(firstMillivolts);
      var thisVol := GetAdcLevel(secondMillivolts);
      if Abs(thisVol - lastVol) > DirectionThreshold {
        if lastVol > thisVol {
          isState := false;
        } else {
          isState := true;
        }
      }
    }

    method IsCharging() returns (charging: bool)
      ensures charging == isState
    {
      charging := isState;
    }

    method IsDischarging() returns (discharging: bool)
      ensures discharging == !isState
    {
      discharging := if isState == false then true else false;
    }

    /** Reports "done" when the level query it performs returns 100; that query may update
        the remembered level. */
    method IsChargingDone(millivolts: int) returns (done: bool)
      requires Valid()
      modifies this`lastVoltage, this`lastLevel
      ensures Valid()
      ensures Memory() == NextMemory(old(Memory()), GetAdcLevel(millivolts))
      ensures done == (Reported(old(Memory()), GetAdcLevel(millivolts)) == 100)
    {
      var level := GetBatteryLevel(millivolts);
      done := level == 100;
    }
  }
}
