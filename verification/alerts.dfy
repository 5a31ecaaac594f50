/** The alert evaluator: five discrete outputs re-derived every loop iteration from the
    current cell voltages alone, with no latching and no hysteresis. */
module Alerts {
  import opened Config
  import opened Decomposition

  /** Levels written to the four per-cell alert pins and the critical alert pin. */
  datatype AlertOutputs = AlertOutputs(cell1: bool, cell2: bool, cell3: bool, cell4: bool, critical: bool) {
    /** The per-cell output for cell k. */
    function At(k: int): bool
      requires 1 <= k <= 4
    {
      if k == 1 then cell1 else if k == 2 then cell2 else if k == 3 then cell3 else cell4
    }
  }

  /** The low-voltage threshold of cell k: odd positions use one value, even positions another. */
  function CellThreshold(k: int): real
    requires 1 <= k <= 4
  {
    if k % 2 == 1 then OddCellThreshold else EvenCellThreshold
  }

  /** The lowest of the four cells. */
  function MinCell(c: Cells): (m: real)
    ensures forall k :: 1 <= k <= 4 ==> m <= c.At(k)
    ensures exists k :: 1 <= k <= 4 && m == c.At(k)
  {
    var low12 := if c.c1 <= c.c2 then c.c1 else c.c2;
    var low34 := if c.c3 <= c.c4 then c.c3 else c.c4;
    var m := if low12 <= low34 then low12 else low34;
    assert c.At(1) == c.c1 && c.At(2) == c.c2 && c.At(3) == c.c3 && c.At(4) == c.c4;
    m
  }

  /** The five outputs for the given cells. */
  function EvaluateAlerts(c: Cells): (a: AlertOutputs)
    ensures forall k :: 1 <= k <= 4 ==> (a.At(k) <==> c.At(k) < CellThreshold(k))
    ensures a.critical <==> MinCell(c) < CriticalThreshold
  {
    AlertOutputs(
      c.c1 < OddCellThreshold,
      c.c2 < EvenCellThreshold,
      c.c3 < OddCellThreshold,
      c.c4 < EvenCellThreshold,
      c.c1 < CriticalThreshold || c.c2 < CriticalThreshold
      || c.c3 < CriticalThreshold || c.c4 < CriticalThreshold)
  }

  /** The critical threshold lies under both per-cell thresholds, so a critical alert always
      comes with the per-cell alert of the cell that caused it. */
  lemma CriticalImpliesCellAlert(c: Cells)
    requires EvaluateAlerts(c).critical
    ensures exists k :: 1 <= k <= 4 && c.At(k) < CriticalThreshold && EvaluateAlerts(c).At(k)
  {
  }

  /** Fail-safe: lowering any cell voltages can only switch alerts on, never off. */
  lemma AlertsMonotone(c: Cells, lower: Cells)
    requires forall k :: 1 <= k <= 4 ==> lower.At(k) <= c.At(k)
    ensures forall k :: 1 <= k <= 4 ==> EvaluateAlerts(c).At(k) ==> EvaluateAlerts(lower).At(k)
    ensures EvaluateAlerts(c).critical ==> EvaluateAlerts(lower).critical
  {
  }

  /** The threshold asymmetry: 2.85 V trips every cell, while 3.95 V clears an even cell
      and the odd cell beside it at the same class of voltage stays alerted. */
  lemma ThresholdAsymmetry()
    ensures EvaluateAlerts(Cells(2.85, 3.85, 2.85, 3.85)) == AlertOutputs(true, true, true, true, false)
    ensures var a := EvaluateAlerts(Cells(2.85, 3.95, 2.85, 3.85));
            a.cell1 && !a.cell2 && a.cell3 && a.cell4
    ensures EvaluateAlerts(Cells(3.0, 3.0, 3.0, 3.0)) == AlertOutputs(false, true, false, true, false)
  {
  }
}
