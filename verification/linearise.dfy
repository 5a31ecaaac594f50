/** The divider linearizer: ADC code to sense-point volts, then sense-point volts back to
    the voltage at the tap, undoing the resistive divider and applying the calibration trim. */
module Linearise {
  import opened Config

  /** Volts at the ADC pin for an averaged code: code 0 reads 0 V, full scale reads the
      reference, and every code in range lies between. */
  function SenseVoltage(raw: int): (v: real)
    ensures raw == 0 ==> v == 0.0
    ensures raw == Resolution ==> v == ReferenceVoltage
    ensures 0 <= raw <= Resolution ==> 0.0 <= v <= ReferenceVoltage
  {
    (raw as real * ReferenceVoltage) / Resolution as real
  }

  /** A larger code always means a strictly larger sense voltage. */
  lemma SenseVoltageStrictlyIncreasing(a: int, b: int)
    ensures a < b <==> SenseVoltage(a) < SenseVoltage(b)
  {
  }

  /** The sense network in front of a tap: R1 on top, R2 to ground, and the calibration trim. */
  datatype Divider = Divider(r1: real, r2: real, calibration: real) {
    predicate Valid() {
      r1 >= 0.0 && r2 > 0.0 && calibration > 0.0
    }
  }

  /** The board as built. */
  const Board: Divider := Divider(R1, R2, CalibrationFactor)

  /** A divider that passes the tap voltage straight through (no attenuation, no trim). */
  const Unity: Divider := Divider(0.0, 1.0, 1.0)

  /** Overall factor from the sense point back to the tap: (R1 + R2) / R2 * calibrationFactor. */
  function Gain(d: Divider): (g: real)
    requires d.r2 != 0.0
    ensures d.Valid() ==> g > 0.0
  {
    (d.r1 + d.r2) / d.r2 * d.calibration
  }

  /** calculateVin: vout * (R1 + R2) / R2 * calibrationFactor, grouped as vout times the gain
      (the same real number; only float rounding would tell the groupings apart). */
  function CalculateVin(d: Divider, vout: real): (vin: real)
    requires d.r2 != 0.0
    ensures d.Valid() ==> (vin < 0.0 <==> vout < 0.0) && (vin == 0.0 <==> vout == 0.0)
  {
    vout * Gain(d)
  }

  /** The sense-point voltage a tap at `vin` produces: the tap scaled down by the gain. */
  function SenseFromTap(d: Divider, vin: real): (vout: real)
    requires d.Valid()
  {
    vin / Gain(d)
  }

  /** That scaling is the physical divider: the tap attenuated by R2 / (R1 + R2), with the
      calibration error the trim corrects taken out. */
  lemma SenseFromTapIsDivider(d: Divider, vin: real)
    requires d.Valid()
    ensures SenseFromTap(d, vin) == vin * d.r2 / (d.r1 + d.r2) / d.calibration
  {
  }

  /** The board's resistors and trim, and the unity divider, are physical dividers, so every
      lemma guarded by Valid() applies to them (see BoardRecoversStack). */
  lemma BoardValid()
    ensures Board.Valid() && Unity.Valid()
  {
  }

  /** calculateVin exactly undoes the divider, and the divider exactly undoes calculateVin. */
  lemma CalculateVinInvertsDivider(d: Divider, v: real)
    requires d.Valid()
    ensures CalculateVin(d, SenseFromTap(d, v)) == v
    ensures SenseFromTap(d, CalculateVin(d, v)) == v
  {
  }

  /** A tap at v seen through the bare resistive divider (v * R2 / (R1 + R2)) comes back from
      calculateVin as v scaled by the calibration trim. */
  lemma CalculateVinUndoesDivider(d: Divider, v: real)
    requires d.Valid()
    ensures CalculateVin(d, v * d.r2 / (d.r1 + d.r2)) == v * d.calibration
  {
  }

  /** calculateVin is linear: it maps 0 V to 0 V and distributes over sums and differences. */
  lemma CalculateVinLinear(d: Divider, a: real, b: real)
    requires d.r2 != 0.0
    ensures CalculateVin(d, 0.0) == 0.0
    ensures CalculateVin(d, a + b) == CalculateVin(d, a) + CalculateVin(d, b)
    ensures CalculateVin(d, a - b) == CalculateVin(d, a) - CalculateVin(d, b)
  {
  }

  /** For a physical divider, calculateVin is strictly increasing. */
  lemma CalculateVinStrictlyIncreasing(d: Divider, a: real, b: real)
    requires d.Valid()
    ensures a < b <==> CalculateVin(d, a) < CalculateVin(d, b)
  {
  }

  /** The unity divider is the identity. */
  lemma UnityIsIdentity(v: real)
    ensures CalculateVin(Unity, v) == v
  {
  }
}
