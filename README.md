# Battery-state estimator of the Waveshare ESP32-C6 1.54" e-paper board

This project models the battery part of the board's `PowerManager` class in Dafny. That part covers:

- the conversion of the calibrated ADC reading into a cell voltage;
- the debounced battery-level query, which maps a voltage to one of the levels 1, 20, 40, 60, 80 and 100;
- one cycle of the background task that infers whether the cell is charging;
- the three status queries `IsCharging`, `IsDischarging` and `IsChargingDone`.

The project has two files:

- `battery_policy.dfy` (module `BatteryPolicy`) states the policy on values. It defines the bucket mapping, the remembered pair (last accepted voltage, last level) and its one-call update, the direction update, and their folds over sequences of calls and cycles. The lemmas about them are here.
- `power_manager.dfy` (module `Power`) holds the class `PowerManager`. Its fields are `hasAdcHandle`, `doCalibration`, `isState`, `lastVoltage` and `lastLevel`. `GetBatteryLevel`, `DirectionStep` and `IsChargingDone` are proved against the functions of `BatteryPolicy`. The constructor establishes `Initial`. `GetAdcLevel` states the conversion directly. The two flag queries return the flag or its negation.

Voltages are exact `real`s. The calibrated millivolt value that the ADC driver would report is a parameter of every operation that reads the ADC.

Behaviour of the code worth knowing:

- A zero reading ("no reading") always returns 100, whatever level is stored.
- The stored level starts at 0.
- Debouncing compares a reading with the last accepted voltage. Readings that each move less than 0.1 V from the one before can therefore still change the level (`DriftEscapesDebounce`).
- `IsChargingDone` performs a fresh level query and tests whether it returns 100. That query can update the stored level.
- A first non-zero reading within 0.1 V of 0.0 V returns the initial level 0 (`FreshReadings`). The value 0 can only be returned while no reading has been accepted yet (`ZeroMeansNothingAccepted`).

## Model

| member | source | states |
|---|---|---|
| `BatteryPolicy.Bucket` | main/boards/waveshare-c6-epaper-1.54/power_manager.h:128-140 | the mapped value is always one of 1, 20, 40, 60, 80, 100 |
| `BatteryPolicy.EdgesPassed` | main/boards/waveshare-c6-epaper-1.54/power_manager.h:128-140 | counts the bucket edges a voltage has reached: at most their number, and zero exactly when the voltage is below every edge |
| `BatteryPolicy.BucketByTable` | main/boards/waveshare-c6-epaper-1.54/power_manager.h:128-140 | the first-match chain (< 3.52, < 3.64, < 3.76, < 3.88, < 4.0, otherwise) equals the table reading: the k-th level for a voltage that has passed k edges |
| `BatteryPolicy.BucketMonotone` | main/boards/waveshare-c6-epaper-1.54/power_manager.h:128-140 | a higher voltage never maps to a lower level |
| `BatteryPolicy.InitialConsistent` | main/boards/waveshare-c6-epaper-1.54/power_manager.h:120-121 | the initial pair (0.0 V, level 0) satisfies the estimator invariant |
| `BatteryPolicy.ZeroReadingIgnored` | main/boards/waveshare-c6-epaper-1.54/power_manager.h:123-144 | a zero reading returns 100 and leaves the stored voltage and level unchanged |
| `BatteryPolicy.SmallChangeIgnored` | main/boards/waveshare-c6-epaper-1.54/power_manager.h:124-142 | a non-zero reading less than 0.1 V from the stored voltage changes nothing and returns the stored level |
| `BatteryPolicy.LargeChangeAccepted` | main/boards/waveshare-c6-epaper-1.54/power_manager.h:125-142 | a non-zero reading at least 0.1 V from the stored voltage (0.1 V included) is stored together with its bucket, and the bucket is returned |
| `BatteryPolicy.ConsistentPreserved` | main/boards/waveshare-c6-epaper-1.54/power_manager.h:120-142 | every call keeps the invariant: the stored level is 0 or a bucket, and it is 0 exactly while the stored voltage is 0.0 |
| `BatteryPolicy.ReportedRange` | main/boards/waveshare-c6-epaper-1.54/power_manager.h:120-144 | a call returns 0 or a bucket; it returns 0 only from the initial state, and that state is then left as it was |
| `BatteryPolicy.ReportedFull` | main/boards/waveshare-c6-epaper-1.54/power_manager.h:117-145 | a call returns 100 exactly on a zero reading, on an accepted reading of at least 4.0 V, or on an ignored reading when the stored level is 100 |
| `BatteryPolicy.FreshReadings` | main/boards/waveshare-c6-epaper-1.54/power_manager.h:120-142 | from the initial state, 3.50, 3.60, 3.70, 3.80, 3.90 and 4.10 V return 1, 20, 40, 60, 80 and 100; a reading of 0.05 V returns 0 |
| `BatteryPolicy.Reports` | main/boards/waveshare-c6-epaper-1.54/power_manager.h:117-145 | a sequence of calls returns one value per reading |
| `BatteryPolicy.ReportsAt` | main/boards/waveshare-c6-epaper-1.54/power_manager.h:117-145 | the i-th call of a sequence returns what one call returns on the state left by the first i readings |
| `BatteryPolicy.RunConsistent` | main/boards/waveshare-c6-epaper-1.54/power_manager.h:120-142 | the invariant holds after any sequence of readings |
| `BatteryPolicy.ZeroOnlyBeforeAcceptance` | main/boards/waveshare-c6-epaper-1.54/power_manager.h:120-144 | from the initial state, every returned value is 0 or a bucket; a 0 means that the remembered pair after that call is still (0.0 V, 0) |
| `BatteryPolicy.ZeroMeansNothingAccepted` | main/boards/waveshare-c6-epaper-1.54/power_manager.h:120-144 | from the initial state, a returned 0 means that no reading up to and including that call was accepted |
| `BatteryPolicy.AcceptanceSticks` | main/boards/waveshare-c6-epaper-1.54/power_manager.h:125-140 | from the initial state, once a reading has been accepted the stored level is non-zero after every later call |
| `BatteryPolicy.DebouncedRun` | main/boards/waveshare-c6-epaper-1.54/power_manager.h:124-142 | if every reading is non-zero and within 0.1 V of the stored voltage, the state is unchanged and every call returns the stored level |
| `BatteryPolicy.DriftEscapesDebounce` | main/boards/waveshare-c6-epaper-1.54/power_manager.h:125-126 | two readings that each move less than 0.1 V from the one before (3.5 V stored, then 3.55 V, then 3.62 V) return 1 and then 20 |
| `BatteryPolicy.DirectionCases` | main/boards/waveshare-c6-epaper-1.54/power_manager.h:52-58 | on a change of more than 0.05 V the flag becomes "second sample higher than the first"; on a change of 0.05 V or less it is kept |
| `BatteryPolicy.DirectionSamples` | main/boards/waveshare-c6-epaper-1.54/power_manager.h:52-58 | 3.60 V then 3.50 V gives false; 3.60 V then 3.70 V gives true; 3.60 V then 3.62 V keeps the flag |
| `BatteryPolicy.QuietCyclesKeepDirection` | main/boards/waveshare-c6-epaper-1.54/power_manager.h:47-58 | cycles whose samples never differ by more than 0.05 V leave the flag at its starting value |
| `BatteryPolicy.LastSignificantDecides` | main/boards/waveshare-c6-epaper-1.54/power_manager.h:47-58 | after any sequence of cycles, the flag shows whether the voltage rose in the last cycle with a change of more than 0.05 V |
| `Power.PowerManager.constructor` | main/boards/waveshare-c6-epaper-1.54/power_manager.h:75-94 | the ADC and calibration are enabled exactly for a battery pin among GPIO 0 to 6; the flag starts false (line 26); the stored pair starts as (0.0 V, 0) (lines 120-121) |
| `Power.PowerManager.GetAdcLevel` | main/boards/waveshare-c6-epaper-1.54/power_manager.h:29-41 | with an ADC handle and calibration the result is twice the millivolt reading in volts; otherwise it is 0.0 |
| `Power.PowerManager.GetBatteryLevel` | main/boards/waveshare-c6-epaper-1.54/power_manager.h:117-145 | keeps the invariant; the new stored pair and the returned value are the one-call update of the old state for the converted reading; the result is 0 or a bucket; nothing else changes |
| `Power.PowerManager.DirectionStep` | main/boards/waveshare-c6-epaper-1.54/power_manager.h:48-58 | the flag becomes the direction update of its old value for the two converted samples; nothing else changes |
| `Power.PowerManager.IsCharging` | main/boards/waveshare-c6-epaper-1.54/power_manager.h:147-150 | returns the flag and changes nothing |
| `Power.PowerManager.IsDischarging` | main/boards/waveshare-c6-epaper-1.54/power_manager.h:152-155 | returns the negation of the flag, that is, always the opposite of `IsCharging`, and changes nothing |
| `Power.PowerManager.IsChargingDone` | main/boards/waveshare-c6-epaper-1.54/power_manager.h:157-162 | true exactly when the level query it performs returns 100; the stored pair is updated as by that query |

## Left out

- ADC driver calls (the one-shot read, the raw-to-millivolt calibration, the unit and channel setup): these are vendor SDK calls. The calibrated millivolt value is a parameter instead.
- The I/O-expander power switches (`PowerEpdOn/Off`, `PowerAudioOn/Off`, `PowerVbatOn/Off`), `Get_IoExpanderHandle`, and the constructor's expander and GPIO setup: thin wrappers over a driver that is not part of this model.
- The FreeRTOS task, its endless loop and the 30-second delay: only one cycle is modelled, as `DirectionStep`. `Directions` folds finitely many cycles.
- The unsynchronised sharing of the flag and the stored pair between the background task and callers: concurrency.
- `PowerLoopState`: a busy-wait on a GPIO level, which is I/O.
- Logging.
- The destructor, which only releases the ADC unit.
- IEEE single-precision rounding: voltages are exact reals, so the 0.1 V and 0.05 V thresholds and the bucket edges are compared exactly.
- Power.PowerManager.constructor: the source leaves the ADC handle uninitialised when the pin is not connected or out of range. The model treats it as absent (null) in that case.
- Power.PowerManager.GetBatteryLevel: the stored pair lives in function-local statics in the source, so all instances share it. The model keeps it per object; the board creates a single `PowerManager`.
- The board file `waveshare-c6-epaper-1.54.cc`: board initialisation that forwards the battery queries to `PowerManager`. It is not part of this model.
