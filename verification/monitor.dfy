/** One iteration of the control loop as a pure step: an optional tick that measures,
    decomposes and renders; then the button poll; then the five alert outputs. */
module Monitor {
  import opened Config
  import opened Sampling
  import opened Linearise
  import opened Decomposition
  import opened Charge
  import opened Alerts
  import opened DisplayMode

  datatype Option<T> = None | Some(value: T)

  /** The raw reads of channels A0..A3 (cells 1..4) taken during one tick. */
  datatype Channels = Channels(a0: seq<int>, a1: seq<int>, a2: seq<int>, a3: seq<int>) {
    predicate WellFormed() {
      |a0| == NumReadings && |a1| == NumReadings && |a2| == NumReadings && |a3| == NumReadings
    }

    predicate InRange() {
      AllWithin(a0, 0, Resolution) && AllWithin(a1, 0, Resolution)
      && AllWithin(a2, 0, Resolution) && AllWithin(a3, 0, Resolution)
    }
  }

  /** Everything one tick computes. */
  datatype Reading = Reading(
    cells: Cells,
    totalVoltage: real,
    p1: real, p2: real, p3: real, p4: real,
    totalPercentage: real)

  /** The sense-point voltages of one tick: each channel averaged, then linearised. */
  function TapsOf(ch: Channels): Taps
    requires ch.WellFormed()
  {
    Taps(SenseVoltage(AverageOf(ch.a0)), SenseVoltage(AverageOf(ch.a1)),
         SenseVoltage(AverageOf(ch.a2)), SenseVoltage(AverageOf(ch.a3)))
  }

  /** The highest tap voltage the board can report: full-scale code through the divider. */
  function FullScale(): (v: real)
    ensures v > 0.0
  {
    CalculateVin(Board, ReferenceVoltage)
  }

  /** The measurement half of a tick: channel A(k-1) is the tap above cell k, so the stack
      of cells 1..k is what that channel reads back through the divider. */
  function Measure(ch: Channels): (m: Reading)
    requires ch.WellFormed()
    ensures m.cells.Stack(1) == TapVoltage(ch.a0)
    ensures m.cells.Stack(2) == TapVoltage(ch.a1)
    ensures m.cells.Stack(3) == TapVoltage(ch.a2)
    ensures m.cells.Stack(4) == TapVoltage(ch.a3)
    ensures m.totalVoltage == m.cells.Stack(4) * TotalCalibrationFactor
    ensures m.p1 == CalculatePercentage(m.cells.c1) && m.p2 == CalculatePercentage(m.cells.c2)
    ensures m.p3 == CalculatePercentage(m.cells.c3) && m.p4 == CalculatePercentage(m.cells.c4)
    ensures m.totalPercentage == PackPercentage(m.cells)
  {
    var cells := Decompose(Board, TapsOf(ch));
    var p1 := CalculatePercentage(cells.c1);
    var p2 := CalculatePercentage(cells.c2);
    var p3 := CalculatePercentage(cells.c3);
    var p4 := CalculatePercentage(cells.c4);
    Reading(cells, PackTotal(cells), p1, p2, p3, p4, PackPercentage(cells))
  }

  /** The voltage at the tap a channel senses: its reads averaged, linearised and scaled back
      through the board's divider. */
  function TapVoltage(samples: seq<int>): real
    requires |samples| == NumReadings
  {
    CalculateVin(Board, SenseVoltage(AverageOf(samples)))
  }

  /** In-range reads keep every tap of the measured stack between 0 V and full scale. */
  lemma MeasureWithinFullScale(ch: Channels)
    requires ch.WellFormed()
    ensures ch.InRange() ==> forall k :: 1 <= k <= 4 ==> 0.0 <= Measure(ch).cells.Stack(k) <= FullScale()
  {
    TapWithinFullScale(ch.a0);
    TapWithinFullScale(ch.a1);
    TapWithinFullScale(ch.a2);
    TapWithinFullScale(ch.a3);
  }

  /** An in-range channel reads between 0 V and full scale at its tap. */
  lemma TapWithinFullScale(samples: seq<int>)
    requires |samples| == NumReadings
    ensures AllWithin(samples, 0, Resolution) ==> 0.0 <= TapVoltage(samples) <= FullScale()
  {
  }

  /** What the display shows after a tick, by the mode current when the tick runs. */
  datatype Screen =
    | VoltageScreen(v1: real, v2: real, v3: real, v4: real)
    | PercentageScreen(p1: real, p2: real, p3: real, p4: real)
    | TotalScreen(total: real, percentage: real)
    | Unwritten

  /** The quantities rendered for a mode; a mode outside the cycle writes nothing. */
  function Render(mode: nat, m: Reading): (s: Screen)
    ensures s.VoltageScreen? <==> mode == 0
    ensures s.PercentageScreen? <==> mode == 1
    ensures s.TotalScreen? <==> mode == 2
    ensures s.Unwritten? <==> mode >= ModeCount
    ensures s.VoltageScreen? ==>
      s.v1 == m.cells.c1 && s.v2 == m.cells.c2 && s.v3 == m.cells.c3 && s.v4 == m.cells.c4
    ensures s.PercentageScreen? ==> s.p1 == m.p1 && s.p2 == m.p2 && s.p3 == m.p3 && s.p4 == m.p4
    ensures s.TotalScreen? ==> s.total == m.totalVoltage && s.percentage == m.totalPercentage
  {
    if mode == 0 then VoltageScreen(m.cells.c1, m.cells.c2, m.cells.c3, m.cells.c4)
    else if mode == 1 then PercentageScreen(m.p1, m.p2, m.p3, m.p4)
    else if mode == 2 then TotalScreen(m.totalVoltage, m.totalPercentage)
    else Unwritten
  }

  /** The sketch's globals that persist between iterations. */
  datatype State = State(ctl: Controller, cells: Cells, totalVoltage: real) {
    predicate Valid() {
      ctl.Valid()
    }
  }

  /** Power-on: mode 0, button taken as HIGH, every voltage 0. */
  const Init: State := State(Start, Cells(0.0, 0.0, 0.0, 0.0), 0.0)

  /** What one iteration drives, in the order the loop drives it: first the screen rendered
      if the tick fired, then whether the display is cleared (an accepted edge clears after
      that render, so the display stays blank until the next tick shows the new mode), then
      the five alert levels. */
  datatype Outputs = Outputs(screen: Option<Screen>, clear: bool, alerts: AlertOutputs)

  datatype StepResult = StepResult(next: State, out: Outputs)

  /** One iteration of loop(). `tick` carries the raw reads when the update interval has elapsed. */
  function Step(s: State, tick: Option<Channels>, button: bool): (r: StepResult)
    requires tick.Some? ==> tick.value.WellFormed()
    ensures tick.None? ==> r.next.cells == s.cells && r.next.totalVoltage == s.totalVoltage && r.out.screen.None?
    ensures tick.Some? ==> var m := Measure(tick.value);
      r.next.cells == m.cells && r.next.totalVoltage == m.totalVoltage
      && r.out.screen == Some(Render(s.ctl.displayMode, m))
    ensures r.next.ctl.lastButtonState == button
    ensures r.out.clear <==> button == High && s.ctl.lastButtonState == Low
    ensures r.next.ctl.displayMode == if r.out.clear then NextMode(s.ctl.displayMode) else s.ctl.displayMode
    ensures r.out.alerts == EvaluateAlerts(r.next.cells)
    ensures s.Valid() ==> r.next.Valid()
  {
    var measured := match tick
      case None => s
      case Some(ch) => var m := Measure(ch); State(s.ctl, m.cells, m.totalVoltage);
    var screen := match tick
      case None => None
      case Some(ch) => Some(Render(s.ctl.displayMode, Measure(ch)));
    var polled := ButtonStep(s.ctl, button);
    var next := measured.(ctl := polled.next);
    StepResult(next, Outputs(screen, polled.clear, EvaluateAlerts(next.cells)))
  }

  /** One iteration's inputs. */
  datatype Iteration = Iteration(tick: Option<Channels>, button: bool)

  predicate WellFormed(its: seq<Iteration>)
  {
    forall i :: 0 <= i < |its| ==> its[i].tick.Some? ==> its[i].tick.value.WellFormed()
  }

  /** The state after running the given iterations in order. */
  function RunLoop(s: State, its: seq<Iteration>): State
    requires WellFormed(its)
    decreases |its|
  {
    if |its| == 0 then s
    else RunLoop(Step(s, its[0].tick, its[0].button).next, its[1..])
  }

  /** The button levels polled by the given iterations. */
  function Levels(its: seq<Iteration>): (levels: seq<bool>)
    ensures |levels| == |its|
    ensures forall i :: 0 <= i < |its| ==> levels[i] == its[i].button
  {
    seq(|its|, i requires 0 <= i < |its| => its[i].button)
  }

  /** Ticks and alerts never disturb the mode controller: over any run of the loop it evolves
      exactly as the button levels alone dictate, and stays within the mode cycle. */
  lemma {:induction false} LoopModeFollowsButton(s: State, its: seq<Iteration>)
    requires WellFormed(its)
    ensures RunLoop(s, its).ctl == DisplayMode.Run(s.ctl, Levels(its))
    ensures s.Valid() ==> RunLoop(s, its).Valid()
    decreases |its|
  {
    if |its| > 0 {
      var rest := its[1..];
      assert WellFormed(rest) by {
        forall i | 0 <= i < |rest| ensures rest[i] == its[i + 1] {
        }
      }
      var next := Step(s, its[0].tick, its[0].button).next;
      LoopModeFollowsButton(next, rest);
      assert Levels(its)[1..] == Levels(rest);
    }
  }

  /** Until the first tick every cell reads 0 V, so every alert output is on. */
  lemma AlertsBeforeFirstTick(button: bool)
    ensures Step(Init, None, button).out.alerts == AlertOutputs(true, true, true, true, true)
  {
  }

  /** A mode change is seen only at the next tick: a tick that coincides with an accepted
      edge still renders the old mode, and the clear follows it. */
  lemma EdgeDuringTickRendersOldMode(s: State, ch: Channels)
    requires ch.WellFormed()
    requires s.ctl.lastButtonState == Low
    ensures var r := Step(s, Some(ch), High);
      r.out.clear && r.out.screen == Some(Render(s.ctl.displayMode, Measure(ch)))
      && r.next.ctl.displayMode == NextMode(s.ctl.displayMode)
  {
  }
}
