/** The launch sequencer of main.py's RocketDisplayWindow: an index into
    LAUNCH_STATES that the PROCEED button advances, an abort latch, and the
    countdown that advancing at the last stage starts. The state label is
    modelled only as what each step writes into it, and the QTimer as an
    explicit Tick, one call per timeout. */
module MainLaunch {
  import opened Common

  const LaunchStates: seq<string> := ["IDLE", "HIGH PRESSURE", "TANK HIGH PRESSURE", "FIRE"]

  /** self.moment: not yet set, a number of seconds, or the string "BLASTOFF". */
  datatype Moment = Unset | Count(n: int) | Blastoff

  /** self.countdown: no timer created yet, a running timer, or a stopped one. */
  datatype Timer = NoTimer | Running | Stopped

  /** What a step writes into the state label. */
  datatype Display = StateText(name: string) | AbortedText | CountdownText(moment: Moment)

  /** The control fields of the window. */
  datatype Console = Console(currentState: nat, aborted: bool, moment: Moment, countdown: Timer)

  /** A step's new control fields and what it shows, if anything. */
  datatype Step = Step(next: Console, shown: Option<Display>)

  const Initial: Console := Console(0, false, Unset, NoTimer)

  /** The control fields the window can reach: the index stays within
      LAUNCH_STATES, a countdown only exists at the last stage, a running
      timer has between 1 and 10 seconds left. */
  predicate Valid(c: Console) {
    && c.currentState < |LaunchStates|
    && (c.moment.Count? ==> 1 <= c.moment.n <= 10)
    && (c.countdown == Running ==> c.moment.Count?)
    && (c.countdown == NoTimer <==> c.moment == Unset)
    && (c.moment != Unset ==> c.currentState == |LaunchStates| - 1)
  }

  /** One run of _countSecond: a second less, and at 0 the moment becomes
      BLASTOFF and the timer stops; the new moment is shown. */
  function AfterCountSecond(c: Console): Step
    requires c.moment.Count?
  {
    var n := c.moment.n - 1;
    if n == 0 then Step(c.(moment := Blastoff, countdown := Stopped), Some(CountdownText(Blastoff)))
    else Step(c.(moment := Count(n)), Some(CountdownText(Count(n))))
  }

  /** _countDown: unless aborted, set the moment to 11, run _countSecond at
      once, then start a new timer. */
  function AfterCountDown(c: Console): Step {
    if c.aborted then Step(c, None)
    else
      var s := AfterCountSecond(c.(moment := Count(11)));
      Step(s.next.(countdown := Running), s.shown)
  }

  /** _advanceState: one stage on while not aborted and not at the last
      stage; at the last stage the countdown starts at 10; when aborted
      nothing changes. */
  function AfterAdvance(c: Console): (s: Step)
    ensures Valid(c) ==> Valid(s.next)
    ensures !c.aborted && c.currentState <= |LaunchStates| - 2 ==>
      && s.next == c.(currentState := c.currentState + 1)
      && s.shown == Some(StateText(LaunchStates[c.currentState + 1]))
    ensures !c.aborted && c.currentState == |LaunchStates| - 1 ==>
      && s.next == c.(moment := Count(10), countdown := Running)
      && s.shown == Some(CountdownText(Count(10)))
    ensures c.aborted || c.currentState >= |LaunchStates| ==> s == Step(c, None)
  {
    if c.currentState <= |LaunchStates| - 2 && !c.aborted then
      Step(c.(currentState := c.currentState + 1), Some(StateText(LaunchStates[c.currentState + 1])))
    else if c.currentState == |LaunchStates| - 1 && !c.aborted then
      AfterCountDown(c)
    else
      Step(c, None)
  }

  /** _abortMission: set the latch and stop the countdown timer if one was
      ever created (without one, the AttributeError is swallowed). The
      stage and the moment stay as they were. */
  function AfterAbort(c: Console): (s: Step)
    ensures s.next.aborted
    ensures s.next.currentState == c.currentState && s.next.moment == c.moment
    ensures s.next.countdown != Running
    ensures Valid(c) ==> Valid(s.next)
    ensures s.shown == Some(AbortedText)
  {
    Step(c.(aborted := true, countdown := if c.countdown == NoTimer then NoTimer else Stopped), Some(AbortedText))
  }

  /** A timeout of the countdown timer: it fires only while it runs. */
  function AfterTick(c: Console): (s: Step)
    requires Valid(c)
    ensures Valid(s.next)
    ensures s.next.currentState == c.currentState && s.next.aborted == c.aborted
    ensures c.countdown != Running ==> s == Step(c, None)
  {
    if c.countdown == Running then AfterCountSecond(c) else Step(c, None)
  }

  /** What can happen to the window: a PROCEED press, an abort, a timeout. */
  datatype Op = AdvanceOp | AbortOp | TickOp

  function Apply(c: Console, op: Op): (s: Step)
    requires Valid(c)
    ensures Valid(s.next)
  {
    match op
    case AdvanceOp => AfterAdvance(c)
    case AbortOp => AfterAbort(c)
    case TickOp => AfterTick(c)
  }

  /** The control fields after a sequence of events. */
  function Run(c: Console, ops: seq<Op>): (r: Console)
    requires Valid(c)
    ensures Valid(r)
    decreases ops
  {
    if ops == [] then c else Run(Apply(c, ops[0]).next, ops[1..])
  }

  /** From the start, the index never leaves LAUNCH_STATES (at most 3). */
  lemma StageStaysInRange(ops: seq<Op>)
    ensures Valid(Initial)
    ensures Run(Initial, ops).currentState <= |LaunchStates| - 1
  {
  }

  /** No event moves the stage backwards. */
  lemma {:induction false} StageNeverDecreases(c: Console, ops: seq<Op>)
    requires Valid(c)
    ensures Run(c, ops).currentState >= c.currentState
    decreases ops
  {
    if ops != [] {
      StageNeverDecreases(Apply(c, ops[0]).next, ops[1..]);
    }
  }

  /** Once aborted with no timer running, no event changes anything. */
  lemma {:induction false} AbortedIsFrozen(c: Console, ops: seq<Op>)
    requires Valid(c) && c.aborted && c.countdown != Running
    ensures Run(c, ops) == c
    decreases ops
  {
    if ops != [] {
      assert Apply(c, ops[0]).next == c;
      AbortedIsFrozen(c, ops[1..]);
    }
  }

  /** After _abortMission, no later press or timeout changes the stage, the
      moment or the latch: nothing ever resets `aborted`. */
  lemma AbortIsFinal(c: Console, ops: seq<Op>)
    requires Valid(c)
    ensures var a := AfterAbort(c).next; Run(a, ops) == a
  {
    AbortedIsFrozen(AfterAbort(c).next, ops);
  }

  /** k timeouts in a row: the fields after them and what each one showed. */
  function Ticks(c: Console, k: nat): (r: (Console, seq<Display>))
    requires Valid(c)
    ensures Valid(r.0)
    decreases k
  {
    if k == 0 then (c, [])
    else
      var s := AfterTick(c);
      var rest := Ticks(s.next, k - 1);
      (rest.0, (if s.shown.Some? then [s.shown.value] else []) + rest.1)
  }

  /** The label texts of a countdown from n: n - 1, ..., 1, then BLASTOFF. */
  function Falling(n: nat): (shown: seq<Display>)
    requires n >= 1
    ensures |shown| == n
  {
    if n == 1 then [CountdownText(Blastoff)]
    else [CountdownText(Count(n - 1))] + Falling(n - 1)
  }

  /** A running countdown with n seconds left shows n - 1, ..., 1, BLASTOFF
      on its next n timeouts and then stops. */
  lemma {:induction false} CountdownRunsOut(c: Console)
    requires Valid(c) && c.countdown == Running
    ensures Ticks(c, c.moment.n) == (c.(moment := Blastoff, countdown := Stopped), Falling(c.moment.n))
    decreases c.moment.n
  {
    var n := c.moment.n;
    var s := AfterTick(c);
    if n > 1 {
      assert s.next == c.(moment := Count(n - 1));
      CountdownRunsOut(s.next);
      assert Ticks(c, n).1 == [CountdownText(Count(n - 1))] + Ticks(s.next, n - 1).1;
    } else {
      assert s.next == c.(moment := Blastoff, countdown := Stopped);
      assert n == 1;
      assert s.shown == Some(CountdownText(Blastoff));
      assert Ticks(s.next, 0) == (s.next, []);
      assert Ticks(c, 1).0 == s.next;
      assert Ticks(c, 1).1 == [s.shown.value] + Ticks(s.next, 0).1 == [CountdownText(Blastoff)];
    }
  }

  /** Advancing at the last stage while not aborted shows 10 at once, then
      9, ..., 1 and BLASTOFF on the next ten timeouts, after which the timer
      is stopped and further timeouts show nothing. */
  lemma LaunchCountdown(c: Console)
    requires Valid(c) && !c.aborted && c.currentState == |LaunchStates| - 1
    ensures var s := AfterAdvance(c);
      && s.shown == Some(CountdownText(Count(10)))
      && [s.shown.value] + Ticks(s.next, 10).1 == Falling(11)
      && Ticks(s.next, 10).0.countdown == Stopped
      && AfterTick(Ticks(s.next, 10).0).shown.None?
  {
    CountdownRunsOut(AfterAdvance(c).next);
  }

  class RocketDisplayWindow {
    var currentState: nat
    var aborted: bool
    var moment: Moment
    var countdown: Timer

    /** The control fields as a value. */
    function Fields(): Console
      reads this
    {
      Console(currentState, aborted, moment, countdown)
    }

    constructor ()
      ensures Fields() == Initial
    {
      currentState := 0;
      aborted := false;
      moment := Unset;
      countdown := NoTimer;
    }

    /** _advanceState. */
    method AdvanceState() returns (shown: Option<Display>)
      modifies this
      ensures Step(Fields(), shown) == AfterAdvance(old(Fields()))
    {
      if currentState <= |LaunchStates| - 2 && !aborted {
        currentState := currentState + 1;
        shown := Some(StateText(LaunchStates[currentState]));
      } else if currentState == |LaunchStates| - 1 && !aborted {
        shown := CountDown();
      } else {
        shown := None;
      }
    }

    /** _abortMission. */
    method AbortMission() returns (shown: Option<Display>)
      modifies this
      ensures Step(Fields(), shown) == AfterAbort(old(Fields()))
    {
      shown := Some(AbortedText);
      aborted := true;
      if countdown != NoTimer {
        countdown := Stopped;
      }
    }

    /** _countDown. */
    method CountDown() returns (shown: Option<Display>)
      modifies this
      ensures Step(Fields(), shown) == AfterCountDown(old(Fields()))
    {
      if !aborted {
        moment := Count(11);
        shown := CountSecond();
        countdown := Running;
      } else {
        shown := None;
      }
    }

    /** _countSecond. */
    method CountSecond() returns (shown: Option<Display>)
      requires moment.Count?
      modifies this
      ensures Step(Fields(), shown) == AfterCountSecond(old(Fields()))
    {
      moment := Count(moment.n - 1);
      if moment.n == 0 {
        moment := Blastoff;
        countdown := Stopped;
      }
      shown := Some(CountdownText(moment));
    }

    /** The timer's timeout: _countSecond runs only while the timer runs. */
    method Tick() returns (shown: Option<Display>)
      requires Valid(Fields())
      modifies this
      ensures Step(Fields(), shown) == AfterTick(old(Fields()))
    {
      if countdown == Running {
        shown := CountSecond();
      } else {
        shown := None;
      }
    }
  }
}
