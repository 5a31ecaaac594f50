/** The cell decomposition engine. Tap k of the stack reads cells 1..k in series, so each
    cell is recovered by subtracting the already-decomposed lower cells from its tap. */
module Decomposition {
  import opened Config
  import opened Linearise

  /** Sense-point voltages of the four channels, tap 1 at the bottom of the stack. */
  datatype Taps = Taps(v1: real, v2: real, v3: real, v4: real)

  /** Incremental voltages of the four cells. */
  datatype Cells = Cells(c1: real, c2: real, c3: real, c4: real) {
    /** Cell k, counted from 1 at the bottom of the stack. */
    function At(k: int): real
      requires 1 <= k <= 4
    {
      if k == 1 then c1 else if k == 2 then c2 else if k == 3 then c3 else c4
    }

    /** Voltage across cells 1..k: what tap k sees before the divider. */
    function Stack(k: int): real
      requires 0 <= k <= 4
    {
      if k == 0 then 0.0 else Stack(k - 1) + At(k)
    }
  }

  /** The four cell voltages of one tick: each tap through calculateVin, minus the cells below. */
  function Decompose(d: Divider, t: Taps): (c: Cells)
    requires d.r2 != 0.0
    ensures c.Stack(1) == CalculateVin(d, t.v1)
    ensures c.Stack(2) == CalculateVin(d, t.v2)
    ensures c.Stack(3) == CalculateVin(d, t.v3)
    ensures c.Stack(4) == CalculateVin(d, t.v4)
  {
    var c1 := CalculateVin(d, t.v1);
    var c2 := CalculateVin(d, t.v2) - c1;
    var c3 := CalculateVin(d, t.v3) - (c1 + c2);
    var c4 := CalculateVin(d, t.v4) - (c1 + c2 + c3);
    Cells(c1, c2, c3, c4)
  }

  /** The sense-point voltages a stack of known cells puts on the four channels. */
  function StackTaps(d: Divider, c: Cells): Taps
    requires d.Valid()
  {
    Taps(SenseFromTap(d, c.Stack(1)), SenseFromTap(d, c.Stack(2)),
         SenseFromTap(d, c.Stack(3)), SenseFromTap(d, c.Stack(4)))
  }

  /** Decomposition recovers the cells of any stack exactly, whatever the (physical) divider. */
  lemma DecomposeRecoversStack(d: Divider, c: Cells)
    requires d.Valid()
    ensures Decompose(d, StackTaps(d, c)) == c
  {
    var t := StackTaps(d, c);
    CalculateVinInvertsDivider(d, c.Stack(1));
    CalculateVinInvertsDivider(d, c.Stack(2));
    CalculateVinInvertsDivider(d, c.Stack(3));
    CalculateVinInvertsDivider(d, c.Stack(4));
    var r := Decompose(d, t);
    assert r.Stack(1) == c.Stack(1);
    assert r.Stack(2) == c.Stack(2);
    assert r.Stack(3) == c.Stack(3);
    assert r.Stack(4) == c.Stack(4);
  }

  /** Through the unity divider the taps are the cumulative sums themselves, and
      decomposition hands the cells back unchanged. */
  lemma DecomposeUnityStack(c: Cells)
    ensures Decompose(Unity, Taps(c.Stack(1), c.Stack(2), c.Stack(3), c.Stack(4))) == c
  {
  }

  /** In particular the board as built recovers any stack of cells exactly. */
  lemma BoardRecoversStack(c: Cells)
    ensures Decompose(Board, StackTaps(Board, c)) == c
  {
    BoardValid();
    DecomposeRecoversStack(Board, c);
  }

  /** Four 3.3 V cells stacked read 3.3, 6.6, 9.9 and 13.2 V and decompose to 3.3 V each. */
  lemma UniformStackExample()
    ensures Decompose(Unity, Taps(3.3, 6.6, 9.9, 13.2)) == Cells(3.3, 3.3, 3.3, 3.3)
  {
  }

  /** totalVoltage: the four cells summed and scaled by the pack trim. */
  function PackTotal(c: Cells): (total: real)
    ensures total == c.Stack(4) * TotalCalibrationFactor
  {
    assert c.Stack(1) == c.c1;
    assert c.Stack(2) == c.c1 + c.c2;
    assert c.Stack(4) == c.Stack(2) + c.c3 + c.c4;
    (c.c1 + c.c2 + c.c3 + c.c4) * TotalCalibrationFactor
  }

  /** The decomposed cells telescope: the pack total depends only on the top tap. */
  lemma PackTotalIsTopTap(d: Divider, t: Taps)
    requires d.r2 != 0.0
    ensures PackTotal(Decompose(d, t)) == CalculateVin(d, t.v4) * TotalCalibrationFactor
  {
  }

  /** A fault on a lower tap moves its own cell and the cell above by opposite amounts and
      leaves the other cells and the pack total unchanged: errors propagate upward by one. */
  lemma LowerTapErrorPropagation(d: Divider, t: Taps, e: real)
    requires d.r2 != 0.0
    ensures var c := Decompose(d, t);
            var f := Decompose(d, t.(v2 := t.v2 + e));
            f.c1 == c.c1 && f.c2 == c.c2 + CalculateVin(d, e) && f.c3 == c.c3 - CalculateVin(d, e)
            && f.c4 == c.c4 && PackTotal(f) == PackTotal(c)
  {
  }
}
