/** The sensor-polling task: its state-transition step, the conversions it starts
    on the shared converter and the slots of the data table it fills
    (task_sensors.cc). */
module TaskSensors {
  import opened AvrAdc

  /** An A/D channel number, 0 to 7. */
  type Channel = c: bv8 | c < 8

  /** The channel assignment. The source leaves every initialiser empty, so the
      assignment is a parameter of the task. */
  datatype ChannelMap = ChannelMap(
    linAct1: Channel, linAct2: Channel,
    loadCell1: Channel, loadCell2: Channel, pitot: Channel, staticM: Channel,
    sixDofA1: Channel, sixDofA2: Channel, sixDofA3: Channel,
    sixDofA4: Channel, sixDofA5: Channel, sixDofA6: Channel,
    sixDofB1: Channel, sixDofB2: Channel, sixDofB3: Channel,
    sixDofB4: Channel, sixDofB5: Channel, sixDofB6: Channel)

  /** The task's states. The case label SIX_DOF_1 and the returned SIXDOF_1 are
      taken to name one state, SixDof1. `Other` stands for every state code the
      switch does not know; ALL_ON has no case either. */
  datatype SensorState =
    | Init | Wait | LinAct1 | LinAct2 | SixDof1 | SixDof2
    | Pitot | StaticM | LoadCell1 | LoadCell2 | AllOn | Other(code: int)

  /** What run returns: a next state or STL_NO_TRANSITION. */
  datatype Transition = NoTransition | Goto(next: SensorState)

  /** The slots of the data table that run writes. */
  datatype Slot = Actuator1 | Actuator2 | DofA1 | DofA2

  // ---------------------------------------------------------------------------
  // The switch as a function of the outcomes of its convertDone checks

  /** The state run returns from state `s`, when the successive convertDone
      checks of this step report `d1`, `d2` and `d3`. Only a WAIT without the
      timer and a LINACT_1 whose check is not done call for no transition;
      no state leads back to INIT, and only an unknown state leads to ALL_ON. */
  function Next(s: SensorState, timeUp: bool, d1: bool, d2: bool, d3: bool): (r: Transition)
    ensures r == NoTransition <==> (s == Wait && !timeUp) || (s == LinAct1 && !d1)
    ensures r != Goto(Init)
    ensures r == Goto(AllOn) <==> s == AllOn || s.Other?
  {
    match s
    case Init => Goto(Wait)
    case Wait => if timeUp then Goto(LinAct1) else NoTransition
    case LinAct1 => if d1 then Goto(LinAct2) else NoTransition
    case LinAct2 => Goto(SixDof1)
    case SixDof1 => if d1 && d2 && d3 then Goto(SixDof1) else Goto(SixDof2)
    case SixDof2 => Goto(Pitot)
    case Pitot => Goto(StaticM)
    case StaticM => Goto(LoadCell1)
    case LoadCell1 => Goto(LoadCell2)
    case LoadCell2 => Goto(Wait)
    case AllOn => Goto(AllOn)
    case Other(_) => Goto(AllOn)
  }

  /** The channels on which the step starts a conversion, in order. */
  function Started(ch: ChannelMap, s: SensorState, d1: bool, d2: bool): seq<Channel>
  {
    match s
    case LinAct1 => [ch.linAct1]
    case LinAct2 => [ch.linAct2]
    case SixDof1 =>
      [ch.sixDofA1] + (if d1 then [ch.sixDofA2] + (if d2 then [ch.sixDofA3] else []) else [])
    case _ => []
  }

  /** The slots the step writes with getValue(), in order. */
  function Written(s: SensorState, d1: bool, d2: bool, d3: bool): seq<Slot>
  {
    match s
    case LinAct1 => if d1 then [Actuator1] else []
    case LinAct2 => if d1 then [Actuator2] else []
    case SixDof1 =>
      (if d1 then [DofA1] else []) + (if d1 && d2 then [DofA2] else []) +
      (if d1 && d2 && d3 then [Actuator2] else [])
    case _ => []
  }

  /** The table after storing `v` in every slot of `slots`, in order. */
  function Store(table: map<Slot, nat>, slots: seq<Slot>, v: nat): map<Slot, nat>
    decreases |slots|
  {
    if slots == [] then table else Store(table[slots[0] := v], slots[1..], v)
  }

  /** Storing fills exactly the listed slots and leaves every other slot as it
      was. */
  lemma {:induction false} StoreSlots(table: map<Slot, nat>, slots: seq<Slot>, v: nat)
    ensures Store(table, slots, v).Keys == table.Keys + set k | k in slots
    ensures forall k :: k in Store(table, slots, v) ==>
              Store(table, slots, v)[k] == if k in slots then v else table[k]
    decreases |slots|
  {
    if slots != [] {
      StoreSlots(table[slots[0] := v], slots[1..], v);
      assert forall k :: k in slots <==> k == slots[0] || k in slots[1..];
    }
  }

  /** ADMUX after selecting each channel of `chans` in turn. */
  function SelectAll(admux: bv8, chans: seq<Channel>): (r: bv8)
    ensures chans != [] ==> r & 0x07 == chans[|chans| - 1]
    ensures r & 0xF8 == admux & 0xF8
  {
    if chans == [] then admux
    else SelectChannel(SelectAll(admux, chans[..|chans| - 1]), chans[|chans| - 1])
  }

  /** The result-register reads of `n` getValue calls. */
  function ReadsOf(n: nat): (r: seq<ResultRegister>)
    ensures |r| == 2 * n
    ensures forall i :: 0 <= i < |r| ==> r[i] == if i % 2 == 0 then Low else High
  {
    if n == 0 then [] else ReadsOf(n - 1) + [Low, High]
  }

  // ---------------------------------------------------------------------------
  // Properties of the switch

  /** INIT always goes to WAIT; WAIT goes to LINACT_1 exactly when the time is
      up and otherwise asks for no transition. Neither touches the converter
      or the table. */
  lemma InitAndWait(ch: ChannelMap, timeUp: bool, d1: bool, d2: bool, d3: bool)
    ensures Next(Init, timeUp, d1, d2, d3) == Goto(Wait)
    ensures Next(Wait, timeUp, d1, d2, d3) == (if timeUp then Goto(LinAct1) else NoTransition)
    ensures Started(ch, Init, d1, d2) == [] && Started(ch, Wait, d1, d2) == []
    ensures Written(Init, d1, d2, d3) == [] && Written(Wait, d1, d2, d3) == []
  {
  }

  /** LINACT_1 always starts a conversion on linAct_1; it stores into
      Actuator1 and moves to LINACT_2 exactly when the check reports done, and
      otherwise asks for no transition and writes nothing. */
  lemma LinAct1Step(ch: ChannelMap, timeUp: bool, d1: bool, d2: bool, d3: bool)
    ensures Started(ch, LinAct1, d1, d2) == [ch.linAct1]
    ensures Next(LinAct1, timeUp, d1, d2, d3) == Goto(LinAct2) <==> d1
    ensures !d1 ==> Next(LinAct1, timeUp, d1, d2, d3) == NoTransition
    ensures Written(LinAct1, d1, d2, d3) == if d1 then [Actuator1] else []
  {
  }

  /** LINACT_2 moves to SIXDOF_1 whether or not the check reports done, and
      writes Actuator2 only when it does. */
  lemma LinAct2Step(ch: ChannelMap, timeUp: bool, d1: bool, d2: bool, d3: bool)
    ensures Started(ch, LinAct2, d1, d2) == [ch.linAct2]
    ensures Next(LinAct2, timeUp, d1, d2, d3) == Goto(SixDof1)
    ensures Written(LinAct2, d1, d2, d3) == if d1 then [Actuator2] else []
  {
  }

  /** The six-DOF state returns itself only when all three checks report done,
      and SIXDOF_2 otherwise; the third value lands in the Actuator2 slot. */
  lemma SixDofStep(ch: ChannelMap, timeUp: bool, d1: bool, d2: bool, d3: bool)
    ensures Next(SixDof1, timeUp, d1, d2, d3) == Goto(SixDof1) <==> d1 && d2 && d3
    ensures Next(SixDof1, timeUp, d1, d2, d3) == Goto(SixDof1) || Next(SixDof1, timeUp, d1, d2, d3) == Goto(SixDof2)
    ensures d1 && d2 && d3 ==> Written(SixDof1, d1, d2, d3) == [DofA1, DofA2, Actuator2]
    ensures |Started(ch, SixDof1, d1, d2)| == 1 + (if d1 then 1 else 0) + (if d1 && d2 then 1 else 0)
  {
  }

  /** SIXDOF_2, PITOT, STATICM, LOADCELL_1 and LOADCELL_2 hand on
      unconditionally to the next state and touch neither converter nor table. */
  lemma TailChain(ch: ChannelMap, timeUp: bool, d1: bool, d2: bool, d3: bool)
    ensures Next(SixDof2, timeUp, d1, d2, d3) == Goto(Pitot)
    ensures Next(Pitot, timeUp, d1, d2, d3) == Goto(StaticM)
    ensures Next(StaticM, timeUp, d1, d2, d3) == Goto(LoadCell1)
    ensures Next(LoadCell1, timeUp, d1, d2, d3) == Goto(LoadCell2)
    ensures Next(LoadCell2, timeUp, d1, d2, d3) == Goto(Wait)
    ensures forall s :: s in [SixDof2, Pitot, StaticM, LoadCell1, LoadCell2] ==>
              Started(ch, s, d1, d2) == [] && Written(s, d1, d2, d3) == []
  {
  }

  /** A state the switch does not recognise goes to ALL_ON and changes nothing. */
  lemma UnknownGoesToAllOn(ch: ChannelMap, s: SensorState, timeUp: bool, d1: bool, d2: bool, d3: bool)
    requires s.Other? || s.AllOn?
    ensures Next(s, timeUp, d1, d2, d3) == Goto(AllOn)
    ensures Started(ch, s, d1, d2) == [] && Written(s, d1, d2, d3) == []
  {
  }

  /** The state after a scheduler pass: a returned state replaces the current
      one, STL_NO_TRANSITION keeps it. */
  function After(s: SensorState, t: Transition): SensorState
  {
    match t
    case NoTransition => s
    case Goto(n) => n
  }

  /** The state reached from `s` after one pass per entry of `timeUps`, when
      every convertDone check reports `done`. */
  function Passes(s: SensorState, timeUps: seq<bool>, done: bool): SensorState
    decreases |timeUps|
  {
    if timeUps == [] then s
    else Passes(After(s, Next(s, timeUps[0], done, done, done)), timeUps[1..], done)
  }

  /** When every check reports done (which is what happens as written, see
      Run), the six-DOF state is never left again. */
  lemma {:induction false} SixDofAbsorbs(timeUps: seq<bool>)
    ensures Passes(SixDof1, timeUps, true) == SixDof1
    decreases |timeUps|
  {
    if timeUps != [] {
      SixDofAbsorbs(timeUps[1..]);
    }
  }

  /** Once the task has reached LINACT_1, two more passes with every check
      done bring it to the six-DOF state, for good. */
  lemma {:induction false} StuckAfterLinearActuators(timeUps: seq<bool>)
    requires |timeUps| >= 2
    ensures Passes(LinAct1, timeUps, true) == SixDof1
  {
    assert Passes(LinAct1, timeUps, true) == Passes(SixDof1, timeUps[2..], true);
    SixDofAbsorbs(timeUps[2..]);
  }

  /** The tail states read neither the timer nor any check, so one scan
      from SIXDOF_2 returns to WAIT in five passes, whatever the timer says
      and whatever the checks would report. */
  lemma TailReturnsToWait(timeUps: seq<bool>, done: bool)
    requires |timeUps| == 5
    ensures Passes(SixDof2, timeUps, done) == Wait
  {
    assert Passes(SixDof2, timeUps, done) == Passes(Pitot, timeUps[1..], done);
    assert Passes(Pitot, timeUps[1..], done) == Passes(StaticM, timeUps[2..], done);
    assert Passes(StaticM, timeUps[2..], done) == Passes(LoadCell1, timeUps[3..], done);
    assert Passes(LoadCell1, timeUps[3..], done) == Passes(LoadCell2, timeUps[4..], done);
    assert Passes(LoadCell2, timeUps[4..], done) == Passes(Wait, timeUps[5..], done);
  }

  /** What the six-DOF state does when all three checks report done, spelled
      out register by register. */
  lemma SixDofEffects(ch: ChannelMap, admux: bv8, table: map<Slot, nat>, v: nat)
    ensures Started(ch, SixDof1, true, true) == [ch.sixDofA1, ch.sixDofA2, ch.sixDofA3]
    ensures SelectAll(admux, Started(ch, SixDof1, true, true)) ==
            SelectChannel(SelectChannel(SelectChannel(admux, ch.sixDofA1), ch.sixDofA2), ch.sixDofA3)
    ensures Written(SixDof1, true, true, true) == [DofA1, DofA2, Actuator2]
    ensures Store(table, Written(SixDof1, true, true, true), v) == table[DofA1 := v][DofA2 := v][Actuator2 := v]
    ensures ReadsOf(|Written(SixDof1, true, true, true)|) == [Low, High, Low, High, Low, High]
  {
    var chans := [ch.sixDofA1, ch.sixDofA2, ch.sixDofA3];
    assert chans[..2][..1] == [ch.sixDofA1];
    assert chans[..2] == [ch.sixDofA1, ch.sixDofA2];
  }

  /** What a linear-actuator state does when its check reports done. */
  lemma SingleEffects(admux: bv8, channel: Channel, table: map<Slot, nat>, slot: Slot, v: nat)
    ensures SelectAll(admux, [channel]) == SelectChannel(admux, channel)
    ensures Store(table, [slot], v) == table[slot := v]
    ensures ReadsOf(1) == [Low, High]
  {
    assert [channel][..0] == [];
    assert [slot][1..] == [];
  }

  // ---------------------------------------------------------------------------
  // The task object

  /** The sensor task: the converter it shares (p_adc), its channel assignment
      and its data table. */
  class SensorTask {
    const channels: ChannelMap
    const adc: Adc
    var dataArray: map<Slot, nat>

    /** A task over `adc` with an empty data table. */
    constructor (channels: ChannelMap, adc: Adc)
      ensures this.channels == channels && this.adc == adc && dataArray == map[]
    {
      this.channels := channels;
      this.adc := adc;
      dataArray := map[];
    }

    /** Start a conversion on `channel`, check it, and when the check reports
        done store getValue() in `slot`. As written the check always reports
        done, because startConversion has just set ADSC. */
    method Sample(channel: Channel, slot: Slot) returns (done: bool)
      modifies this, adc
      ensures done
      ensures dataArray == old(dataArray)[slot := Combine(adc.adch, adc.adcl)]
      ensures adc.admux == SelectChannel(old(adc.admux), channel)
      ensures adc.adcsra == WithStart(old(adc.adcsra))
      ensures adc.adch == old(adc.adch) && adc.adcl == old(adc.adcl)
      ensures adc.dataReads == old(adc.dataReads) + [Low, High]
    {
      var started := adc.StartConversion(channel);
      done := adc.ConvertDone();
      if done {
        var v := adc.GetValue();
        dataArray := dataArray[slot := v];
      }
    }

    /** The body of the six-DOF state: three samples in a row, each made only
        if the previous check reported done. */
    method SampleSixDof() returns (r: Transition)
      modifies this, adc
      ensures r == Goto(SixDof1)
      ensures dataArray == old(dataArray)[DofA1 := Combine(adc.adch, adc.adcl)]
                [DofA2 := Combine(adc.adch, adc.adcl)][Actuator2 := Combine(adc.adch, adc.adcl)]
      ensures adc.admux == SelectChannel(SelectChannel(SelectChannel(old(adc.admux),
                channels.sixDofA1), channels.sixDofA2), channels.sixDofA3)
      ensures adc.adcsra == WithStart(old(adc.adcsra))
      ensures adc.adch == old(adc.adch) && adc.adcl == old(adc.adcl)
      ensures adc.dataReads == old(adc.dataReads) + [Low, High, Low, High, Low, High]
    {
      var done := Sample(channels.sixDofA1, DofA1);
      if done {
        done := Sample(channels.sixDofA2, DofA2);
        if done {
          done := Sample(channels.sixDofA3, Actuator2);
          if done {
            return Goto(SixDof1);
          }
        }
      }
      return Goto(SixDof2);
    }

    /** One call of run(state). `timeUp` is the task's timeUP flag. Every
        convertDone check comes right after a startConversion that set ADSC,
        so, with convertDone as written, every check reports done; the step is
        then Next with all three checks done, and each stored value is the
        reading already standing in ADCH:ADCL. */
    method Run(state: SensorState, timeUp: bool) returns (r: Transition)
      modifies this, adc
      ensures r == Next(state, timeUp, true, true, true)
      ensures dataArray == Store(old(dataArray), Written(state, true, true, true), Combine(adc.adch, adc.adcl))
      ensures adc.admux == SelectAll(old(adc.admux), Started(channels, state, true, true))
      ensures adc.adcsra == if Started(channels, state, true, true) == [] then old(adc.adcsra) else WithStart(old(adc.adcsra))
      ensures adc.adch == old(adc.adch) && adc.adcl == old(adc.adcl)
      ensures adc.dataReads == old(adc.dataReads) + ReadsOf(|Written(state, true, true, true)|)
    {
      var done: bool;
      ghost var v := Combine(adc.adch, adc.adcl);
      match state {
        case Init =>
          return Goto(Wait);
        case Wait =>
          if timeUp {
            return Goto(LinAct1);
          }
        case LinAct1 =>
          SingleEffects(adc.admux, channels.linAct1, dataArray, Actuator1, v);
          done := Sample(channels.linAct1, Actuator1);
          if done {
            return Goto(LinAct2);
          }
        case LinAct2 =>
          SingleEffects(adc.admux, channels.linAct2, dataArray, Actuator2, v);
          done := Sample(channels.linAct2, Actuator2);
          return Goto(SixDof1);
        case SixDof1 =>
          ghost var admux0, table0 := adc.admux, dataArray;
          r := SampleSixDof();
          SixDofEffects(channels, admux0, table0, v);
          return r;
        case SixDof2 =>
          return Goto(Pitot);
        case Pitot =>
          return Goto(StaticM);
        case StaticM =>
          return Goto(LoadCell1);
        case LoadCell1 =>
          return Goto(LoadCell2);
        case LoadCell2 =>
          return Goto(Wait);
        case AllOn =>
          return Goto(AllOn);
        case Other(_) =>
          return Goto(AllOn);
      }
      return NoTransition;
    }
  }
}
