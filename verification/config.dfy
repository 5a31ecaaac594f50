/** Compile-time configuration of the battery monitor: ADC range, divider resistors,
    calibration trims, the state-of-charge window and the alert thresholds. */
module Config {

  /** Largest code of the 10-bit ADC; also the divisor of the linearisation. */
  const Resolution: int := 1023
  /** ADC reference voltage, in volts. */
  const ReferenceVoltage: real := 5.0

  /** Resistive divider in front of every sense tap, in ohms. */
  const R1: real := 14830.0
  const R2: real := 2700.0

  /** Per-tap trim applied after undoing the divider. */
  const CalibrationFactor: real := 1.047
  /** Pack-level trim applied to the sum of the four cells. */
  const TotalCalibrationFactor: real := 0.99

  /** State-of-charge window: 0 % at MinVoltage, 100 % at MaxVoltage. */
  const MaxVoltage: real := 4.2
  const MinVoltage: real := 2.7

  /** Raw reads averaged per channel and tick. */
  const NumReadings: int := 50

  /** Low-voltage thresholds: cells 1 and 3 use the odd one, cells 2 and 4 the even one. */
  const OddCellThreshold: real := 2.9
  const EvenCellThreshold: real := 3.9
  /** Any cell below this raises the critical alert. */
  const CriticalThreshold: real := 2.6

  /** Digital levels as read from the button pin. */
  const High: bool := true
  const Low: bool := false
}
