/** The PWM edge-capture task: the INT4 interrupt handler that flags an edge and
    its level, and the two-state run that time-stamps edges and computes the
    pulse width (task_actuator.cc). The handler is an atomic event that happens
    between two run steps. */
module TaskActuator {
  import opened UsTimer

  /** Bit 4 of PINE, the pin that carries the RC PWM signal. */
  const PINE4: bv8 := 0x10
  /** run sets the update flag once the delay counter has passed this. */
  const UPDATE_DELAY_COUNT: nat := 1000

  /** The two states (UPDATE_STICK_POSITION = 0, STICK_UPDATE_DELAY = 1). */
  datatype ActuatorState = UpdateStickPosition | StickUpdateDelay

  /** The globals shared between the handler and run: the pin level, the
      "edge pending" flag, and the stamps risingedge_time, fallingedge_time and
      pwm_width. */
  datatype Capture = Capture(
    pinStatus: bool, pinStatusFlag: bool,
    rising: TimeData32, falling: TimeData32, width: TimeData32)

  /** The task's own fields that run updates. */
  datatype Fields = Fields(
    pwmWidthValue: i32, stickUpdateDummy: nat, stickPosition: int, timeToUpdate: bool)

  /** What one run step leaves behind. */
  datatype Outcome = Outcome(capture: Capture, fields: Fields, next: ActuatorState)

  // ---------------------------------------------------------------------------
  // The handler and the step as functions

  /** ISR(INT4_vect) with PINE reading `pine`: it always flags an edge and
      records the level, high exactly when PINE bit 4 is set. The stamps are
      untouched. */
  function IsrStep(c: Capture, pine: bv8): (r: Capture)
    ensures r.pinStatusFlag
    ensures r.pinStatus <==> pine & PINE4 != 0
    ensures r.(pinStatus := c.pinStatus, pinStatusFlag := c.pinStatusFlag) == c
  {
    if pine & PINE4 == PINE4 then c.(pinStatusFlag := true, pinStatus := true)
    else c.(pinStatusFlag := true, pinStatus := false)
  }

  /** run(state) when the timer reads `now`. The two states alternate; run
      never changes the recorded level, never raises the edge flag (only the
      handler does) and never lowers the delay counter. */
  function RunStep(c: Capture, f: Fields, state: ActuatorState, now: TimeData32): (r: Outcome)
    ensures r.next != state
    ensures r.capture.pinStatus == c.pinStatus
    ensures r.capture.pinStatusFlag ==> c.pinStatusFlag
    ensures r.fields.stickUpdateDummy >= f.stickUpdateDummy
  {
    match state
    case UpdateStickPosition =>
      if f.timeToUpdate && c.pinStatusFlag then
        if c.pinStatus then
          Outcome(c.(rising := now, pinStatusFlag := false), f, StickUpdateDelay)
        else
          var width := Difference(now, c.rising);
          Outcome(c.(falling := now, width := width, pinStatusFlag := false),
                  f.(pwmWidthValue := width.Whole(), stickPosition := 0, timeToUpdate := false),
                  StickUpdateDelay)
      else Outcome(c, f, StickUpdateDelay)
    case StickUpdateDelay =>
      Outcome(c, f.(stickUpdateDummy := f.stickUpdateDummy + 1,
                    timeToUpdate := f.timeToUpdate || f.stickUpdateDummy > UPDATE_DELAY_COUNT),
              UpdateStickPosition)
  }

  // ---------------------------------------------------------------------------
  // Properties

  /** A second edge before run has consumed the first overwrites it. */
  lemma IsrOverwrites(c: Capture, first: bv8, second: bv8)
    ensures IsrStep(IsrStep(c, first), second) == IsrStep(c, second)
  {
  }

  /** A pending rising edge: its time is taken, the flag is cleared, and
      nothing else changes. */
  lemma ConsumeRisingEdge(c: Capture, f: Fields, now: TimeData32)
    requires f.timeToUpdate && c.pinStatusFlag && c.pinStatus
    ensures RunStep(c, f, UpdateStickPosition, now).capture == c.(rising := now, pinStatusFlag := false)
    ensures RunStep(c, f, UpdateStickPosition, now).fields == f
  {
  }

  /** A pending falling edge: its time is taken, the width is the falling
      time minus the rising time modulo 2^32, the stick position is zeroed
      and both the pending flag and the update flag are cleared. */
  lemma ConsumeFallingEdge(c: Capture, f: Fields, now: TimeData32)
    requires f.timeToUpdate && c.pinStatusFlag && !c.pinStatus
    ensures var o := RunStep(c, f, UpdateStickPosition, now);
      && o.capture.falling == now && o.capture.rising == c.rising
      && o.capture.width == Difference(now, c.rising)
      && Sum(o.capture.rising, o.capture.width) == now
      && !o.capture.pinStatusFlag && o.capture.pinStatus == c.pinStatus
      && o.fields.pwmWidthValue == o.capture.width.Whole()
      && o.fields.stickPosition == 0 && !o.fields.timeToUpdate
      && o.fields.stickUpdateDummy == f.stickUpdateDummy
  {
    SumDifferenceInverse(now, c.rising);
  }

  /** Without the update flag or without a pending edge the update state
      changes nothing. */
  lemma UpdateWithoutEdgeIsIdle(c: Capture, f: Fields, now: TimeData32)
    requires !f.timeToUpdate || !c.pinStatusFlag
    ensures RunStep(c, f, UpdateStickPosition, now).capture == c
    ensures RunStep(c, f, UpdateStickPosition, now).fields == f
  {
  }

  /** The delay state counts every visit, never resets the counter, and sets
      the update flag once the count before the visit exceeds 1000; it never
      clears the flag. */
  lemma DelayCounts(c: Capture, f: Fields, now: TimeData32)
    ensures var o := RunStep(c, f, StickUpdateDelay, now);
      && o.capture == c
      && o.fields.stickUpdateDummy == f.stickUpdateDummy + 1
      && (o.fields.timeToUpdate <==> f.timeToUpdate || f.stickUpdateDummy > UPDATE_DELAY_COUNT)
      && o.fields.pwmWidthValue == f.pwmWidthValue && o.fields.stickPosition == f.stickPosition
  {
  }

  /** When the rising edge was stamped at count `t0` and the falling edge is
      consumed `d` counts later, with `d` below 2^31, the width read out by
      get_time is `d`, even if the counter wrapped in between. */
  lemma PulseWidthIsElapsed(c: Capture, f: Fields, t0: nat, d: nat)
    requires d < 0x8000_0000
    requires f.timeToUpdate && c.pinStatusFlag && !c.pinStatus && c.rising == StampAt(t0)
    ensures RunStep(c, f, UpdateStickPosition, StampAt(t0 + d)).fields.pwmWidthValue == d
  {
    ElapsedAcrossWrap(t0, d);
  }

  /** The state after scheduler passes that alternate the handler and run:
      each entry is the PINE level seen by an edge (or none) followed by one
      run step at the given time. */
  datatype Pass = Pass(edge: bool, pine: bv8, now: nat)

  function Replay(c: Capture, f: Fields, state: ActuatorState, passes: seq<Pass>): Outcome
    decreases |passes|
  {
    if passes == [] then Outcome(c, f, state)
    else
      var p := passes[0];
      var c1 := if p.edge then IsrStep(c, p.pine) else c;
      var o := RunStep(c1, f, state, StampAt(p.now));
      Replay(o.capture, o.fields, o.next, passes[1..])
  }

  /** A rising edge consumed at t = 100 and a falling edge at t = 135 leave a
      width of 35; a later rising edge consumed at t = 200 with no falling edge
      leaves 35 readable. */
  lemma PulseScenario(c: Capture, f: Fields)
    requires f.timeToUpdate && f.stickUpdateDummy > UPDATE_DELAY_COUNT && !c.pinStatusFlag
    ensures var o := Replay(c, f, UpdateStickPosition,
        [Pass(true, PINE4, 100), Pass(false, 0, 110), Pass(true, 0, 135)]);
      o.capture.width.bits == 35 && o.fields.pwmWidthValue == 35 && o.next == StickUpdateDelay
    ensures var o := Replay(c, f, UpdateStickPosition,
        [Pass(true, PINE4, 100), Pass(false, 0, 110), Pass(true, 0, 135),
         Pass(false, 0, 140), Pass(true, PINE4, 200)]);
      o.capture.width.bits == 35 && o.fields.pwmWidthValue == 35 && o.capture.rising.bits == 200
  {
    var p1, p2, p3, p4, p5 :=
      Pass(true, PINE4, 100), Pass(false, 0, 110), Pass(true, 0, 135), Pass(false, 0, 140), Pass(true, PINE4, 200);
    var o1 := RunStep(IsrStep(c, PINE4), f, UpdateStickPosition, StampAt(100));
    assert o1.capture.rising.bits == 100 && o1.fields == f && !o1.capture.pinStatusFlag;
    var o2 := RunStep(o1.capture, o1.fields, o1.next, StampAt(110));
    assert o2.fields.timeToUpdate && o2.capture == o1.capture && o2.next == UpdateStickPosition;
    var o3 := RunStep(IsrStep(o2.capture, 0), o2.fields, o2.next, StampAt(135));
    assert o3.capture.width == Difference(TimeData32(135), TimeData32(100));
    assert o3.capture.width.bits == 35 && o3.fields.pwmWidthValue == 35;
    var o4 := RunStep(o3.capture, o3.fields, o3.next, StampAt(140));
    assert o4.fields.timeToUpdate && o4.capture == o3.capture;
    var o5 := RunStep(IsrStep(o4.capture, PINE4), o4.fields, o4.next, StampAt(200));
    assert o5.capture.rising.bits == 200 && o5.capture.width.bits == 35 && o5.fields.pwmWidthValue == 35;
    assert Replay(o5.capture, o5.fields, o5.next, []) == o5;
    assert Replay(o4.capture, o4.fields, o4.next, [p5]) == o5;
    assert Replay(o3.capture, o3.fields, o3.next, [p4, p5]) == o5;
    assert Replay(o3.capture, o3.fields, o3.next, []) == o3;
    assert Replay(o2.capture, o2.fields, o2.next, [p3]) == o3;
    assert Replay(o2.capture, o2.fields, o2.next, [p3, p4, p5]) == o5;
    assert Replay(o1.capture, o1.fields, o1.next, [p2, p3]) == o3;
    assert Replay(o1.capture, o1.fields, o1.next, [p2, p3, p4, p5]) == o5;
    assert [p1, p2, p3][1..] == [p2, p3];
    assert [p1, p2, p3, p4, p5][1..] == [p2, p3, p4, p5];
  }

  // ---------------------------------------------------------------------------
  // The globals and the task object

  /** The file's globals, shared by the handler and run. */
  class EdgeGlobals {
    var pinStatus: bool
    var pinStatusFlag: bool
    var risingEdgeTime: TimeData32
    var fallingEdgeTime: TimeData32
    var pwmWidth: TimeData32

    /** Static initialisation: both flags false, the stamps empty. */
    constructor ()
      ensures !pinStatus && !pinStatusFlag
      ensures risingEdgeTime.bits == 0 && fallingEdgeTime.bits == 0 && pwmWidth.bits == 0
    {
      pinStatus, pinStatusFlag := false, false;
      risingEdgeTime, fallingEdgeTime, pwmWidth := TimeData32(0), TimeData32(0), TimeData32(0);
    }

    function Snapshot(): Capture
      reads this
    {
      Capture(pinStatus, pinStatusFlag, risingEdgeTime, fallingEdgeTime, pwmWidth)
    }

    /** ISR(INT4_vect), with PINE reading `pine`. */
    method Isr(pine: bv8)
      modifies this
      ensures Snapshot() == IsrStep(old(Snapshot()), pine)
    {
      if pine & 0x10 == 0x10 {
        pinStatusFlag := true;
        pinStatus := true;
      } else {
        pinStatusFlag := true;
        pinStatus := false;
      }
    }
  }

  /** The actuator task: the globals it reads, its timer and its own fields. */
  class ActuatorTask {
    const edges: EdgeGlobals
    const timer: TaskTimer
    var pwmWidthValue: i32
    var stickUpdateDummy: nat
    var stickPosition: int
    var timeToUpdate: bool

    /** The constructor zeroes the width, the delay counter and the stick
        position. It does not set the update flag, so the model promises
        nothing about it. */
    constructor (edges: EdgeGlobals, timer: TaskTimer)
      ensures this.edges == edges && this.timer == timer
      ensures pwmWidthValue == 0 && stickUpdateDummy == 0 && stickPosition == 0
    {
      this.edges := edges;
      this.timer := timer;
      pwmWidthValue := 0;
      stickUpdateDummy := 0;
      stickPosition := 0;
      timeToUpdate := false;
    }

    function Snapshot(): Fields
      reads this
    {
      Fields(pwmWidthValue, stickUpdateDummy, stickPosition, timeToUpdate)
    }

    /** One call of run(state); the current time comes from the task timer. */
    method Run(state: ActuatorState) returns (next: ActuatorState)
      modifies this, edges, timer.nowTime
      ensures Outcome(edges.Snapshot(), Snapshot(), next)
           == RunStep(old(edges.Snapshot()), old(Snapshot()), state, timer.Now())
      ensures timer.nowTime == old(timer.nowTime)
      ensures timer.nowTime.data ==
        if state == UpdateStickPosition && old(timeToUpdate) && old(edges.pinStatusFlag)
        then timer.Now() else old(timer.nowTime.data)
    {
      match state {
        case UpdateStickPosition =>
          if timeToUpdate {
            if edges.pinStatusFlag {
              if edges.pinStatus {
                var t := timer.GetTimeNow();
                edges.risingEdgeTime := t.data;
                edges.pinStatusFlag := false;
              } else {
                var t := timer.GetTimeNow();
                edges.fallingEdgeTime := t.data;
                edges.pwmWidth := Difference(edges.fallingEdgeTime, edges.risingEdgeTime);
                pwmWidthValue := edges.pwmWidth.Whole();
                stickPosition := 0;
                edges.pinStatusFlag := false;
                timeToUpdate := false;
              }
            }
          }
          next := StickUpdateDelay;
        case StickUpdateDelay =>
          var before := stickUpdateDummy;
          stickUpdateDummy := stickUpdateDummy + 1;
          if before > UPDATE_DELAY_COUNT {
            timeToUpdate := true;
          }
          next := UpdateStickPosition;
      }
    }
  }
}
