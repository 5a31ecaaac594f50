# Four-cell battery monitor — Dafny model

A model of the measurement pipeline and control loop of an Arduino sketch that monitors a
four-cell series battery pack (`bms.cpp`). Each tick, the sketch averages fifty ADC reads per
sense channel. It turns each average into a sense-point voltage and undoes the resistive
divider and calibration trim (`calculateVin`). It then recovers the four cell voltages from
the cumulative taps by successive subtraction, and derives a pack total and clamped
state-of-charge percentages. Every loop iteration it also polls the mode button, where a
LOW→HIGH edge advances the three-way display mode and clears the display. Finally it writes
four per-cell low-voltage alerts and one critical alert.

Everything is modelled over exact `real` voltages and unbounded integers. `averageADC` is a
method with a loop, as in the sketch; everything else is a pure function:

- `config.dfy` (`Config`): the sketch's compile-time constants.
- `sampling.dfy` (`Sampling`): `averageADC`. The fifty reads are a sequence parameter in
  place of `analogRead`. Division truncates toward zero, as C's does.
- `linearise.dfy` (`Linearise`): the code-to-volts conversion and `calculateVin`. The divider
  is a `Divider` record so a unity divider can be stated; `Board` holds the sketch's values.
- `decomposition.dfy` (`Decomposition`): cumulative-tap decomposition and the pack total.
- `charge.dfy` (`Charge`): `calculatePercentage` and the pack percentage.
- `alerts.dfy` (`Alerts`): the five alert outputs.
- `display_mode.dfy` (`DisplayMode`): the button edge detector and the mode cycle.
- `monitor.dfy` (`Monitor`): one `loop()` iteration as `Step`. The tick is an optional input
  carrying the raw reads, the button level is an input, and the screen contents, clear
  request and alert levels are outputs.

The order inside `loop()` is kept. The tick block renders with the mode current before the
button poll. The alerts are computed from the cells as they stand after the tick. Until the
first tick the cells hold their initial 0 V, so every alert output is on.

## Model

| member | source | states |
|---|---|---|
| `Sampling.AverageADC` | bms.cpp:112-118 | the accumulate-then-divide loop returns exactly the truncated mean of the fifty reads defined by `AverageOf` |
| `Sampling.AverageOf` | bms.cpp:112-118 | for a non-negative sum the mean is its floor: avg·50 ≤ sum < avg·50 + 50; if every read is in [0, 1023] so is the mean |
| `Sampling.TruncDiv` | bms.cpp:117 | C division: the quotient is the largest multiple not past the dividend, toward zero, for either sign |
| `Sampling.AverageFitsSourceTypes` | bms.cpp:112-117 | fifty 16-bit reads never overflow the 32-bit `long` sum and their mean fits the 16-bit `int` result |
| `Linearise.SenseVoltage` | bms.cpp:131-134 | code 0 reads 0 V, code 1023 reads the 5 V reference, and every in-range code lies in [0, 5] V |
| `Linearise.SenseVoltageStrictlyIncreasing` | bms.cpp:131-134 | a larger code gives a larger sense voltage, and conversely |
| `Linearise.BoardValid` | bms.cpp:12-17 | the board's divider (14830 Ω over 2700 Ω, trim 1.047) and the unity divider are both physical: R1 ≥ 0, R2 > 0, positive trim |
| `Linearise.CalculateVin` | bms.cpp:97-99 | for a physical divider the tap voltage has the sign of the sense voltage and is 0 exactly at 0 |
| `Linearise.SenseFromTapIsDivider` | bms.cpp:97-99 | the forward divider is the tap voltage × R2 / (R1 + R2), divided by the calibration trim |
| `Linearise.CalculateVinInvertsDivider` | bms.cpp:97-99 | `calculateVin` and that physical divider are mutual inverses |
| `Linearise.CalculateVinUndoesDivider` | bms.cpp:97-99 | a tap voltage seen through the bare R2 / (R1 + R2) divider comes back from `calculateVin` multiplied by the calibration trim |
| `Linearise.CalculateVinLinear` | bms.cpp:97-99 | `calculateVin` maps 0 to 0 and distributes over sums and differences |
| `Linearise.CalculateVinStrictlyIncreasing` | bms.cpp:97-99 | for a physical divider `calculateVin` is strictly increasing |
| `Linearise.UnityIsIdentity` | bms.cpp:97-99 | with R1 = 0 and calibration 1 `calculateVin` is the identity |
| `Decomposition.Decompose` | bms.cpp:138-141 | telescoping: cells 1..k sum to `calculateVin` of tap k, for every k in 1..4 |
| `Decomposition.DecomposeRecoversStack` | bms.cpp:138-141 | taps produced by any stack of cells through any physical divider decompose back to those cells exactly |
| `Decomposition.BoardRecoversStack` | bms.cpp:137-141 | with the board's own resistors and 1.047 trim, any stack of cells is recovered exactly from the taps it produces |
| `Decomposition.DecomposeUnityStack` | bms.cpp:138-141 | through the unity divider, cumulative sums of known cells decompose back to those cells |
| `Decomposition.UniformStackExample` | bms.cpp:138-141 | taps 3.3, 6.6, 9.9, 13.2 V through the unity divider give four 3.3 V cells |
| `Decomposition.LowerTapErrorPropagation` | bms.cpp:138-141 | an error on tap 2 shifts cell 2 up and cell 3 down by the same amount; cells 1 and 4 and the total are unchanged |
| `Decomposition.PackTotal` | bms.cpp:144 | the pack total is the voltage across the whole four-cell stack times the 0.99 pack trim |
| `Decomposition.PackTotalIsTopTap` | bms.cpp:144 | the pack total equals `calculateVin` of tap 4 times 0.99 |
| `Charge.CalculatePercentage` | bms.cpp:103-108 | result in [0, 100]; 0 exactly when v ≤ 2.7; 100 exactly when v ≥ 4.2; in the window it inverts `VoltageAt` |
| `Charge.PercentageOfVoltageAt` | bms.cpp:103-108 | every percentage in [0, 100] is produced by the voltage `VoltageAt` assigns it, which lies in the window |
| `Charge.MidpointIsHalf` | bms.cpp:103-108 | 2.7 V gives 0, 3.45 V gives 50, 4.2 V gives 100 |
| `Charge.PercentageMonotone` | bms.cpp:103-108 | a higher voltage never gives a lower percentage |
| `Charge.PercentageOfClampedVoltage` | bms.cpp:103-108 | clamping the voltage to [2.7, 4.2] first does not change the percentage |
| `Charge.PackPercentage` | bms.cpp:148-152 | pack percentage in [0, 100]; 100 iff every cell ≥ 4.2 V; 0 iff every cell ≤ 2.7 V |
| `Charge.DepletedCellCapsPack` | bms.cpp:152 | one cell at or below 2.7 V caps the pack percentage at 75 |
| `Alerts.MinCell` | bms.cpp:205 | the minimum is at most every cell and equal to one of them |
| `Alerts.EvaluateAlerts` | bms.cpp:197-205 | alert k iff cell k is below 2.9 V for odd k or 3.9 V for even k; critical iff the lowest cell is below 2.6 V |
| `Alerts.CriticalImpliesCellAlert` | bms.cpp:198-205 | a critical alert always comes with the per-cell alert of a cell below 2.6 V |
| `Alerts.AlertsMonotone` | bms.cpp:198-205 | lowering cell voltages can switch alerts on but never off |
| `Alerts.ThresholdAsymmetry` | bms.cpp:198-201 | 2.85/3.85 V cells trip all four alerts; 3.95 V clears cell 2 while cell 1 at 2.85 V stays on; 3.0 V trips only the even cells |
| `DisplayMode.NextMode` | bms.cpp:190 | the next mode stays in {0, 1, 2} and differs from the current one |
| `DisplayMode.NextModeCycles` | bms.cpp:190 | three advances return to the start: 0 → 1 → 2 → 0 |
| `DisplayMode.ButtonStep` | bms.cpp:187-194 | clear iff the level is HIGH and the last was LOW; then the mode advances, otherwise it is unchanged; the last level becomes the current one; the mode stays in range |
| `DisplayMode.RunCountsEdges` | bms.cpp:187-194 | after any sequence of polls the mode is the start plus the number of accepted edges, mod 3, and the last level is the last polled |
| `DisplayMode.ThreeEdgesReturn` | bms.cpp:190 | a poll sequence with exactly three accepted edges returns to the starting mode |
| `DisplayMode.SteadyLevelHasNoEdge` | bms.cpp:189 | after a HIGH, a constant level never contains an accepted edge |
| `DisplayMode.SteadyLowHasNoEdge` | bms.cpp:189 | after a LOW, a constant LOW never contains an accepted edge |
| `DisplayMode.SteadyLevelKeepsMode` | bms.cpp:187-194 | from the power-on state of lines 40-41, holding the button at either level never changes the mode |
| `DisplayMode.RunCons` | bms.cpp:188-194 | polling one level and then the rest is the same as polling the whole sequence |
| `DisplayMode.RunAppend` | bms.cpp:188-194 | polling two sequences in turn is polling their concatenation |
| `DisplayMode.PressReleaseCycle` | bms.cpp:189-190 | from power-on, LOW/HIGH pairs walk the modes 1, 2, 0 |
| `Monitor.Measure` | bms.cpp:124-152 | cells 1..k sum to the tap voltage read on channel A(k-1), for k = 1..4; the total is the four-cell stack times 0.99; each cell percentage is `calculatePercentage` of that cell and the pack percentage their mean |
| `Monitor.MeasureWithinFullScale` | bms.cpp:125-141 | when every read is in [0, 1023], every tap of the measured stack lies between 0 V and `calculateVin` of 5 V |
| `Monitor.TapWithinFullScale` | bms.cpp:125-138 | an in-range channel's tap voltage lies between 0 V and `calculateVin` of 5 V |
| `Monitor.Render` | bms.cpp:155-180 | mode 0 shows exactly the cell voltages, 1 exactly the cell percentages, 2 exactly the total voltage and pack percentage, and any other mode writes nothing |
| `Monitor.Step` | bms.cpp:121-206 | no tick keeps cells and total and renders nothing; a tick stores the new measurement and renders it with the pre-poll mode; the button behaves as `ButtonStep`; alerts follow the cells after the update |
| `Monitor.LoopModeFollowsButton` | bms.cpp:121-206 | over any run of the loop, the mode controller evolves exactly as the button levels alone dictate and stays in {0, 1, 2} |
| `Monitor.AlertsBeforeFirstTick` | bms.cpp:60-63 | before the first tick every cell is 0 V, so all four per-cell alerts and the critical alert are on |
| `Monitor.EdgeDuringTickRendersOldMode` | bms.cpp:155-194 | a tick that coincides with an accepted edge renders the old mode, clears, and leaves the new mode for the next tick |

## Left out

- LCD handling: initialisation, `fatalError`, the backlight and the text formatting with decimal
  places (lines 7, 72-77, 156-180). The model keeps only which quantities a mode shows (`Screen`)
  and the clear request.
- Serial output, `setup` pin configuration and the `digitalWrite` calls. These are hardware I/O;
  the alert levels are returned as booleans. `setup` never configures the critical alert pin
  (pin 2) as an output, which only matters electrically.
- `analogRead` and `digitalRead` are replaced by parameters: fifty reads per channel and the
  sampled button level.
- The `millis()` update gate and the `delay(50)` debounce (lines 123, 183, 191) are wall-clock
  timing. Whether the tick fires is an input of `Step`, and the debounce delay has no effect on
  the state.
- IEEE single-precision rounding: all voltage arithmetic is exact over `real`. For the same
  reason `CalculateVin` groups the product as `vout * ((R1 + R2) / R2 * calibrationFactor)`,
  which is the same real number as the sketch's left-to-right evaluation.
- Integer widths: `displayMode` is a `nat` because it starts at 0 and only ever takes values
  (m + 1) % 3. The reads are unbounded integers; `AverageFitsSourceTypes` shows that no
  wrap-around can occur for 16-bit reads.
