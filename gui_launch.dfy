/** The launch sequencer of gui.py's RocketDisplayWindow: an index into
    LAUNCH_MODE advanced by the PROCEED button and an abort latch set by
    the ABORT button. The state label is modelled only as what each step
    writes into it. */
module GuiLaunch {
  import opened Common

  const LaunchMode: seq<string> := ["LOADING", "FUEL OUT", "IGNITION", "TAKEOFF", "FLIGHT"]

  /** What a step writes into the state label. */
  datatype Display = StateText(name: string) | AbortedText

  /** The control fields of the window. */
  datatype Console = Console(currentState: nat, aborted: bool)

  /** A step's new control fields and what it shows, if anything. */
  datatype Step = Step(next: Console, shown: Option<Display>)

  /** LOADING, not aborted. */
  const Initial: Console := Console(0, false)

  /** The index stays within LAUNCH_MODE. */
  predicate Valid(c: Console) {
    c.currentState < |LaunchMode|
  }

  /** _advanceState: one stage on, shown in the label, only while not
      aborted and not yet at the last stage; otherwise nothing happens. */
  function AfterAdvance(c: Console): (s: Step)
    ensures Valid(c) ==> Valid(s.next)
    ensures s.next.aborted == c.aborted
    ensures s.next.currentState ==
      if !c.aborted && c.currentState < |LaunchMode| - 1 then c.currentState + 1 else c.currentState
    ensures s.shown.Some? <==> s.next != c
    ensures s.shown.Some? ==> s.shown == Some(StateText(LaunchMode[s.next.currentState]))
  {
    if c.currentState < |LaunchMode| - 1 && !c.aborted then
      Step(c.(currentState := c.currentState + 1), Some(StateText(LaunchMode[c.currentState + 1])))
    else
      Step(c, None)
  }

  /** _abortMission: set the latch; the stage stays. */
  function AfterAbort(c: Console): (s: Step)
    ensures s.next.aborted && s.next.currentState == c.currentState
    ensures s.shown == Some(AbortedText)
  {
    Step(c.(aborted := true), Some(AbortedText))
  }

  /** The two buttons. */
  datatype Op = AdvanceOp | AbortOp

  function Apply(c: Console, op: Op): Step {
    match op
    case AdvanceOp => AfterAdvance(c)
    case AbortOp => AfterAbort(c)
  }

  /** The control fields after a sequence of presses. */
  function Run(c: Console, ops: seq<Op>): (r: Console)
    ensures Valid(c) ==> Valid(r)
    decreases ops
  {
    if ops == [] then c else Run(Apply(c, ops[0]).next, ops[1..])
  }

  /** From the start, the index never exceeds 4, the last index of LAUNCH_MODE. */
  lemma StageStaysInRange(ops: seq<Op>)
    ensures Run(Initial, ops).currentState <= |LaunchMode| - 1
  {
  }

  /** No press moves the stage backwards. */
  lemma {:induction false} StageNeverDecreases(c: Console, ops: seq<Op>)
    ensures Run(c, ops).currentState >= c.currentState
    decreases ops
  {
    if ops != [] {
      StageNeverDecreases(Apply(c, ops[0]).next, ops[1..]);
    }
  }

  /** After _abortMission, no later press changes the stage, and the latch
      stays set. */
  lemma {:induction false} AbortIsFinal(c: Console, ops: seq<Op>)
    ensures var a := AfterAbort(c).next; Run(a, ops) == a
    decreases ops
  {
    if ops != [] {
      var a := AfterAbort(c).next;
      assert Apply(a, ops[0]).next == a;
      AbortIsFinal(c, ops[1..]);
    }
  }

  /** From the start, four presses of PROCEED reach FLIGHT, and a fifth
      changes nothing. */
  lemma ProceedReachesFlight()
    ensures Run(Initial, [AdvanceOp, AdvanceOp, AdvanceOp, AdvanceOp]) == Console(4, false)
    ensures LaunchMode[4] == "FLIGHT"
    ensures AfterAdvance(Console(4, false)) == Step(Console(4, false), None)
  {
    var ops := [AdvanceOp, AdvanceOp, AdvanceOp, AdvanceOp];
    assert ops[1..] == [AdvanceOp, AdvanceOp, AdvanceOp];
    assert ops[1..][1..] == [AdvanceOp, AdvanceOp];
    assert ops[1..][1..][1..] == [AdvanceOp];
  }

  class RocketDisplayWindow {
    var currentState: nat
    var aborted: bool

    /** The control fields as a value. */
    function Fields(): Console
      reads this
    {
      Console(currentState, aborted)
    }

    constructor ()
      ensures Fields() == Initial
    {
      currentState := 0;
      aborted := false;
    }

    /** _advanceState. */
    method AdvanceState() returns (shown: Option<Display>)
      modifies this
      ensures Step(Fields(), shown) == AfterAdvance(old(Fields()))
    {
      if currentState < |LaunchMode| - 1 && !aborted {
        currentState := currentState + 1;
        shown := Some(StateText(LaunchMode[currentState]));
      } else {
        shown := None;
      }
    }

    /** _abortMission. */
    method AbortMission() returns (shown: Option<Display>)
      modifies this
      ensures Step(Fields(), shown) == AfterAbort(old(Fields()))
    {
      shown := Some(AbortedText);
      aborted := true;
    }
  }
}
