/** The state-of-charge mapper: a clamped straight line from MinVoltage (0 %) to
    MaxVoltage (100 %), and the pack figure as the mean of the four cell figures. */
module Charge {
  import opened Config
  import opened Decomposition

  /** calculatePercentage: the unclamped line, then the lower clamp, then the upper clamp. */
  function CalculatePercentage(voltage: real): (p: real)
    ensures 0.0 <= p <= 100.0
    ensures voltage <= MinVoltage <==> p == 0.0
    ensures voltage >= MaxVoltage <==> p == 100.0
    ensures MinVoltage <= voltage <= MaxVoltage ==> VoltageAt(p) == voltage
  {
    var percentage := (voltage - MinVoltage) / (MaxVoltage - MinVoltage) * 100.0;
    var raised := if percentage < 0.0 then 0.0 else percentage;
    if raised > 100.0 then 100.0 else raised
  }

  /** The cell voltage the linear map assigns to a percentage: its inverse on the window. */
  function VoltageAt(p: real): real
  {
    MinVoltage + p / 100.0 * (MaxVoltage - MinVoltage)
  }

  /** Every percentage in [0, 100] is reached, by exactly the voltage VoltageAt names. */
  lemma PercentageOfVoltageAt(p: real)
    requires 0.0 <= p <= 100.0
    ensures MinVoltage <= VoltageAt(p) <= MaxVoltage
    ensures CalculatePercentage(VoltageAt(p)) == p
  {
  }

  /** The midpoint of the window is half charge. */
  lemma MidpointIsHalf()
    ensures CalculatePercentage(3.45) == 50.0
    ensures CalculatePercentage(MinVoltage) == 0.0
    ensures CalculatePercentage(MaxVoltage) == 100.0
  {
  }

  /** A higher cell voltage never shows a lower charge. */
  lemma PercentageMonotone(a: real, b: real)
    requires a <= b
    ensures CalculatePercentage(a) <= CalculatePercentage(b)
  {
  }

  /** Clamping the voltage to the window first changes nothing. */
  lemma PercentageOfClampedVoltage(v: real)
    ensures var w := if v < MinVoltage then MinVoltage else if v > MaxVoltage then MaxVoltage else v;
            CalculatePercentage(w) == CalculatePercentage(v)
  {
  }

  /** totalPercentage: the mean of the four cell percentages (not a map of the pack total). */
  function PackPercentage(c: Cells): (p: real)
    ensures 0.0 <= p <= 100.0
    ensures p == 100.0 <==> forall k :: 1 <= k <= 4 ==> c.At(k) >= MaxVoltage
    ensures p == 0.0 <==> forall k :: 1 <= k <= 4 ==> c.At(k) <= MinVoltage
  {
    assert c.At(1) == c.c1 && c.At(2) == c.c2 && c.At(3) == c.c3 && c.At(4) == c.c4;
    (CalculatePercentage(c.c1) + CalculatePercentage(c.c2)
     + CalculatePercentage(c.c3) + CalculatePercentage(c.c4)) / 4.0
  }

  /** One depleted cell caps the pack figure at 75 %, however full the other three are. */
  lemma DepletedCellCapsPack(c: Cells, k: int)
    requires 1 <= k <= 4
    requires c.At(k) <= MinVoltage
    ensures PackPercentage(c) <= 75.0
  {
  }
}
