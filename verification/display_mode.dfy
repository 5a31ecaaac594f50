/** The display mode controller: three modes in a cycle, advanced by one on each accepted
    button edge. The edge is LOW on the previous sample and HIGH on this one (the release of
    a pulled-up button), and an accepted edge also asks for the display to be cleared. */
module DisplayMode {
  import opened Config

  /** Mode 0 shows cell voltages, 1 cell percentages, 2 the pack total and pack percentage. */
  const ModeCount: nat := 3

  /** The controller's memory between loop iterations. */
  datatype Controller = Controller(displayMode: nat, lastButtonState: bool) {
    predicate Valid() {
      displayMode < ModeCount
    }
  }

  /** Power-on state: mode 0 and the button taken to be HIGH. */
  const Start: Controller := Controller(0, High)

  /** What one poll of the button does: the next controller and whether the display is cleared. */
  datatype ButtonOutcome = ButtonOutcome(next: Controller, clear: bool)

  /** The mode that follows `mode` in the cycle. */
  function NextMode(mode: nat): (m: nat)
    ensures mode < ModeCount ==> m < ModeCount && m != mode
  {
    (mode + 1) % ModeCount
  }

  /** Three advances bring any mode back to itself. */
  lemma NextModeCycles(mode: nat)
    requires mode < ModeCount
    ensures NextMode(NextMode(NextMode(mode))) == mode
    ensures NextMode(0) == 1 && NextMode(1) == 2 && NextMode(2) == 0
  {
  }

  /** True when the sampled level is an accepted edge. */
  predicate IsEdge(last: bool, level: bool)
  {
    level == High && last == Low
  }

  /** One poll of the button. */
  function ButtonStep(ctl: Controller, level: bool): (r: ButtonOutcome)
    ensures r.next.lastButtonState == level
    ensures r.clear <==> level && !ctl.lastButtonState
    ensures r.clear ==> r.next.displayMode == NextMode(ctl.displayMode)
    ensures !r.clear ==> r.next.displayMode == ctl.displayMode
    ensures ctl.Valid() ==> r.next.Valid()
  {
    if IsEdge(ctl.lastButtonState, level) then
      ButtonOutcome(Controller(NextMode(ctl.displayMode), level), true)
    else
      ButtonOutcome(Controller(ctl.displayMode, level), false)
  }

  /** The controller after polling the given levels in order. */
  function Run(ctl: Controller, levels: seq<bool>): Controller
    decreases |levels|
  {
    if |levels| == 0 then ctl else Run(ButtonStep(ctl, levels[0]).next, levels[1..])
  }

  /** How many accepted edges the levels contain, given the level sampled before them. */
  function Edges(last: bool, levels: seq<bool>): nat
    decreases |levels|
  {
    if |levels| == 0 then 0
    else (if IsEdge(last, levels[0]) then 1 else 0) + Edges(levels[0], levels[1..])
  }

  /** Reducing a summand modulo the cycle length first does not change the sum's residue. */
  lemma ModAdd(a: nat, b: nat)
    ensures (a % ModeCount + b) % ModeCount == (a + b) % ModeCount
  {
  }

  /** The mode after a run is the starting mode advanced once per accepted edge, modulo three,
      and the remembered level is the last level polled. */
  lemma {:induction false} RunCountsEdges(ctl: Controller, levels: seq<bool>)
    requires ctl.Valid()
    ensures Run(ctl, levels).Valid()
    ensures Run(ctl, levels).displayMode == (ctl.displayMode + Edges(ctl.lastButtonState, levels)) % ModeCount
    ensures |levels| > 0 ==> Run(ctl, levels).lastButtonState == levels[|levels| - 1]
    decreases |levels|
  {
    if |levels| > 0 {
      var step := ButtonStep(ctl, levels[0]);
      var rest := levels[1..];
      RunCountsEdges(step.next, rest);
      if step.clear {
        ModAdd(ctl.displayMode + 1, Edges(levels[0], rest));
      }
      if |rest| > 0 {
        assert levels[|levels| - 1] == rest[|rest| - 1];
      }
    }
  }

  /** Three accepted edges, with any number of ignored polls around them, return to the
      starting mode. */
  lemma ThreeEdgesReturn(ctl: Controller, levels: seq<bool>)
    requires ctl.Valid()
    requires Edges(ctl.lastButtonState, levels) == 3
    ensures Run(ctl, levels).displayMode == ctl.displayMode
  {
    RunCountsEdges(ctl, levels);
  }

  /** A level that never changes contains no accepted edge once the remembered level is HIGH. */
  lemma {:induction false} SteadyLevelHasNoEdge(last: bool, levels: seq<bool>)
    requires last == High
    requires forall i :: 0 <= i < |levels| ==> levels[i] == levels[0]
    ensures Edges(last, levels) == 0
    decreases |levels|
  {
    if |levels| > 0 {
      var rest := levels[1..];
      if levels[0] == Low && |rest| > 0 {
        assert rest[0] == Low;
        SteadyLowHasNoEdge(rest);
      } else if |rest| > 0 {
        assert rest[0] == levels[0];
        SteadyLevelHasNoEdge(levels[0], rest);
      }
    }
  }

  lemma {:induction false} SteadyLowHasNoEdge(levels: seq<bool>)
    requires forall i :: 0 <= i < |levels| ==> levels[i] == Low
    ensures Edges(Low, levels) == 0
    decreases |levels|
  {
    if |levels| > 0 {
      SteadyLowHasNoEdge(levels[1..]);
    }
  }

  /** From power-on, holding the button at either level never changes the mode. */
  lemma SteadyLevelKeepsMode(levels: seq<bool>)
    requires forall i :: 0 <= i < |levels| ==> levels[i] == levels[0]
    ensures Run(Start, levels).displayMode == Start.displayMode
  {
  }

  /** Polling one level and then the rest is polling the whole sequence. */
  lemma RunCons(ctl: Controller, level: bool, rest: seq<bool>)
    ensures Run(ctl, [level] + rest) == Run(ButtonStep(ctl, level).next, rest)
  {
  }

  /** The LOW, HIGH pattern repeated three times walks the modes 0, 1, 2 and back to 0. */
  lemma PressReleaseCycle()
    ensures Run(Start, [Low, High]).displayMode == 1
    ensures Run(Start, [Low, High, Low, High]).displayMode == 2
    ensures Run(Start, [Low, High, Low, High, Low, High]).displayMode == 0
  {
    var pair := [Low, High];
    var once := Controller(1, High);
    var twice := Controller(2, High);
    assert Run(Start, pair) == once by {
      RunCons(Start, Low, [High]);
      RunCons(Controller(0, Low), High, []);
    }
    assert Run(once, pair) == twice by {
      RunCons(once, Low, [High]);
      RunCons(Controller(1, Low), High, []);
    }
    assert Run(twice, pair) == Controller(0, High) by {
      RunCons(twice, Low, [High]);
      RunCons(Controller(2, Low), High, []);
    }
    RunAppend(Start, pair, pair);
    RunAppend(once, pair, pair);
    RunAppend(Start, pair, pair + pair);
    assert [Low, High, Low, High] == pair + pair;
    assert [Low, High, Low, High, Low, High] == pair + (pair + pair);
  }

  /** Polling two sequences one after the other is polling their concatenation. */
  lemma {:induction false} RunAppend(ctl: Controller, first: seq<bool>, second: seq<bool>)
    ensures Run(ctl, first + second) == Run(Run(ctl, first), second)
    decreases |first|
  {
    if |first| > 0 {
      assert (first + second)[1..] == first[1..] + second;
      RunAppend(ButtonStep(ctl, first[0]).next, first[1..], second);
    } else {
      assert first + second == second;
    }
  }
}
