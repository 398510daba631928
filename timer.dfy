/** The microsecond time stamp and the task timer built from a 16-bit hardware
    counter and a 16-bit overflow count (stl_us_timer.h). */
module UsTimer {

  /** 2^16 and 2^32 */
  const TWO16: int := 0x1_0000
  const TWO32: int := 0x1_0000_0000

  type u8 = x: int | 0 <= x < 0x100
  type u16 = x: int | 0 <= x < 0x1_0000
  type u32 = x: int | 0 <= x < 0x1_0000_0000
  /** The AVR `long`: a signed 32-bit integer. */
  type i32 = x: int | -0x8000_0000 <= x < 0x8000_0000

  // ---------------------------------------------------------------------------
  // Crystal configuration and the length of one count

  /** The two crystal settings the header knows about. */
  datatype Crystal = Clock4MHz | Clock8MHz

  /** The header defines SUT_CLOCK_8MHZ and undefines SUT_CLOCK_4MHZ. */
  const CONFIGURED_CRYSTAL: Crystal := Clock8MHz

  /** USEC_PER_COUNT: microseconds per hardware count (the same on every
      processor model the header lists). */
  function UsecPerCount(c: Crystal): nat
  {
    match c
    case Clock4MHz => 2
    case Clock8MHz => 1
  }

  /** Microseconds that `counts` counts of the timer represent. */
  function MicrosFor(counts: nat, c: Crystal): (us: nat)
    ensures us >= counts
    ensures c == Clock8MHz ==> us == counts
  {
    counts * UsecPerCount(c)
  }

  /** With the configured crystal one count is one microsecond; a 4 MHz crystal
      would make every count two microseconds. */
  lemma CountLength(counts: nat)
    ensures MicrosFor(counts, CONFIGURED_CRYSTAL) == counts
    ensures MicrosFor(counts, Clock4MHz) == 2 * counts
  {
  }

  /** The 32-bit count wraps "after a little more than an hour": the period is
      between one and two hours at the configured rate. */
  lemma WrapAfterAboutAnHour()
    ensures 3600 * 1_000_000 < MicrosFor(TWO32, CONFIGURED_CRYSTAL) < 2 * 3600 * 1_000_000
  {
  }

  // ---------------------------------------------------------------------------
  // time_data_32: one 32-bit cell seen as a long, two ints or four chars

  /** Powers of 256 used to pick out the bytes of the cell. */
  function Pow256(i: nat): nat
    requires i < 4
  {
    if i == 0 then 1 else if i == 1 then 0x100 else if i == 2 then 0x1_0000 else 0x100_0000
  }

  /** The union time_data_32. `bits` is the 32-bit pattern read as an unsigned
      number. The AVR is little-endian, so half[0] and quarters[0] are the least
      significant parts; Half and Quarter give their bit patterns unsigned. */
  datatype TimeData32 = TimeData32(bits: u32) {

    /** The `long whole` member: the pattern read as a signed 32-bit number. */
    function Whole(): (v: i32)
      ensures v >= 0 <==> bits < 0x8000_0000
      ensures v % TWO32 == bits
    {
      if bits < 0x8000_0000 then bits else bits - TWO32
    }

    /** `half[i]`: half[0] holds the hardware count, half[1] the overflow count. */
    function Half(i: nat): u16
      requires i < 2
    {
      if i == 0 then bits % TWO16 else bits / TWO16
    }

    /** `quarters[i]`: the i-th byte, least significant first. */
    function Quarter(i: nat): u8
      requires i < 4
    {
      (bits / Pow256(i)) % 0x100
    }
  }

  /** The cell after storing `v` into the `long` member. */
  function FromWhole(v: i32): (d: TimeData32)
    ensures d.Whole() == v
  {
    TimeData32(v % TWO32)
  }

  /** The cell whose low half is the hardware count and whose high half is the
      overflow count. */
  function FromHalves(count: u16, overflows: u16): (d: TimeData32)
    ensures d.Half(0) == count && d.Half(1) == overflows
  {
    TimeData32(overflows * TWO16 + count)
  }

  /** Every cell is the join of its two halves, so the 32-bit value is the
      hardware count in the low 16 bits and the overflow count in the high 16. */
  lemma HalvesDetermine(d: TimeData32)
    ensures FromHalves(d.Half(0), d.Half(1)) == d
    ensures d.bits == d.Half(1) * TWO16 + d.Half(0)
  {
  }

  /** The byte view agrees with the half view, little-endian. */
  lemma QuartersMakeHalves(d: TimeData32)
    ensures d.Half(0) == d.Quarter(1) * 0x100 + d.Quarter(0)
    ensures d.Half(1) == d.Quarter(3) * 0x100 + d.Quarter(2)
  {
    var b := d.bits;
    assert b % TWO16 == (b / 0x100) % 0x100 * 0x100 + b % 0x100;
    assert b / TWO16 == (b / 0x100_0000) % 0x100 * 0x100 + (b / TWO16) % 0x100;
  }

  // ---------------------------------------------------------------------------
  // Arithmetic and comparison on cells

  /** `+=`: addition modulo 2^32. */
  function Sum(a: TimeData32, b: TimeData32): (r: TimeData32)
    ensures r.bits == a.bits + b.bits || r.bits == a.bits + b.bits - TWO32
  {
    TimeData32((a.bits + b.bits) % TWO32)
  }

  /** `-=`: subtraction modulo 2^32, the time between two stamps. */
  function Difference(a: TimeData32, b: TimeData32): (r: TimeData32)
    ensures r.bits == a.bits - b.bits || r.bits == a.bits - b.bits + TWO32
  {
    TimeData32((a.bits - b.bits) % TWO32)
  }

  /** Subtracting what was added restores the stamp, and vice versa. */
  lemma SumDifferenceInverse(t: TimeData32, d: TimeData32)
    ensures Difference(Sum(t, d), d) == t
    ensures Sum(Difference(t, d), d) == t
  {
  }

  /** The stamp taken at absolute count `t` (counts since power-on). */
  function StampAt(t: nat): (d: TimeData32)
    ensures d.bits == t % TWO32
  {
    TimeData32(t % TWO32)
  }

  /** `later -= earlier` is the true number of counts between the two samples
      whenever that number is below 2^32, however often the count wrapped. */
  lemma ElapsedAcrossWrap(t0: nat, elapsed: nat)
    requires elapsed < TWO32
    ensures Difference(StampAt(t0 + elapsed), StampAt(t0)).bits == elapsed
  {
  }

  /** A sample just before the wrap and one just after. */
  lemma ElapsedExample()
    ensures Difference(TimeData32(0x10), TimeData32(0xFFFF_FFF0)).bits == 32
  {
  }

  /** `==`: "all time fields are the same", i.e. both halves agree. */
  predicate Equal(a: TimeData32, b: TimeData32): (r: bool)
    ensures r <==> a == b
  {
    HalvesDetermine(a);
    HalvesDetermine(b);
    a.Half(0) == b.Half(0) && a.Half(1) == b.Half(1)
  }

  /** Field-wise equality is equality of the whole 32-bit value. */
  lemma EqualIffSameValue(a: TimeData32, b: TimeData32)
    ensures Equal(a, b) <==> a == b
    ensures Equal(a, b) <==> a.Whole() == b.Whole()
  {
    HalvesDetermine(a);
    HalvesDetermine(b);
  }

  /** `>=`: the body is not part of the source; the model compares the `long`
      member, a signed comparison. On the 32-bit counts this means: both on
      the same side of 2^31 and `a` at least `b`, or `a` below 2^31 and `b`
      at or above it. */
  predicate LaterOrEqual(a: TimeData32, b: TimeData32): (r: bool)
    ensures r <==> ((a.bits < 0x8000_0000) == (b.bits < 0x8000_0000) && a.bits >= b.bits)
                   || (a.bits < 0x8000_0000 && b.bits >= 0x8000_0000)
  {
    a.Whole() >= b.Whole()
  }

  /** The comparison is a total order on cells. */
  lemma LaterOrEqualIsTotalOrder(a: TimeData32, b: TimeData32, c: TimeData32)
    ensures LaterOrEqual(a, a)
    ensures LaterOrEqual(a, b) || LaterOrEqual(b, a)
    ensures LaterOrEqual(a, b) && LaterOrEqual(b, a) ==> a == b
    ensures LaterOrEqual(a, b) && LaterOrEqual(b, c) ==> LaterOrEqual(a, c)
  {
    if LaterOrEqual(a, b) && LaterOrEqual(b, a) {
      assert a.Whole() == b.Whole();
      assert a.bits == b.bits;
    }
  }

  /** Below 2^31 counts (about 35.8 minutes) the signed comparison is the
      unsigned "later or equal" on the counts. */
  lemma LaterOrEqualBeforeSignBit(a: TimeData32, b: TimeData32)
    requires a.bits < 0x8000_0000 && b.bits < 0x8000_0000
    ensures LaterOrEqual(a, b) <==> a.bits >= b.bits
  {
  }

  /** One count after 0x7FFFFFFF the signed comparison calls the later stamp
      earlier. */
  lemma LaterOrEqualAcrossSignBit()
    ensures !LaterOrEqual(StampAt(0x8000_0000), StampAt(0x7FFF_FFFF))
    ensures LaterOrEqual(StampAt(0x7FFF_FFFF), StampAt(0x8000_0000))
  {
  }

  // ---------------------------------------------------------------------------
  // time_stamp

  /** A time stamp object; its one field is the union `data`. */
  class TimeStamp {
    var data: TimeData32

    /** The empty time stamp. */
    constructor ()
      ensures data.bits == 0
    {
      data := TimeData32(0);
    }

    /** A time stamp holding the given `long`. */
    constructor FromLong(v: i32)
      ensures data.Whole() == v
    {
      data := FromWhole(v);
    }

    /** set_time(long): fill the stamp with `v`. */
    method SetTime(v: i32)
      modifies this
      ensures data == FromWhole(v)
    {
      data := FromWhole(v);
    }

    /** get_time(long&): read out the whole value. */
    method GetTime() returns (v: i32)
      ensures v == data.Whole()
      ensures FromWhole(v) == data
    {
      v := data.Whole();
    }

    /** operator +=. */
    method Add(other: TimeStamp)
      modifies this
      ensures data == Sum(old(data), old(other.data))
    {
      data := Sum(data, other.data);
    }

    /** operator -=. */
    method Subtract(other: TimeStamp)
      modifies this
      ensures data == Difference(old(data), old(other.data))
    {
      data := Difference(data, other.data);
    }

    /** operator ==: the two stamps hold the same time. */
    predicate Equals(other: TimeStamp): (r: bool)
      reads this, other
      ensures r <==> data == other.data
    {
      Equal(data, other.data)
    }

    /** operator >=, read as `this >= other`: this stamp's `long` is at least
        the other's. */
    predicate AtLeast(other: TimeStamp): (r: bool)
      reads this, other
      ensures r <==> data.Whole() >= other.data.Whole()
      ensures data.bits < 0x8000_0000 && other.data.bits < 0x8000_0000 ==>
        (r <==> data.bits >= other.data.bits)
    {
      LaterOrEqual(data, other.data)
    }
  }

  /** set_time followed by get_time yields the value stored. */
  method SetThenGet(t: TimeStamp, v: i32) returns (r: i32)
    modifies t
    ensures r == v
  {
    t.SetTime(v);
    r := t.GetTime();
  }

  /** (t += d) -= d leaves t as it was. */
  method AddThenSubtract(t: TimeStamp, d: TimeStamp)
    requires t != d
    modifies t
    ensures t.data == old(t.data)
  {
    t.Add(d);
    t.Subtract(d);
    SumDifferenceInverse(old(t.data), d.data);
  }

  // ---------------------------------------------------------------------------
  // task_timer

  /** The task timer: the live hardware counter, the overflow count kept by the
      counter's overflow interrupt, and the stamp `now_time` it hands out. */
  class TaskTimer {
    var nowTime: TimeStamp
    var hardwareCount: u16
    var overflowCount: u16

    /** An empty timer: both counts start at zero. */
    constructor ()
      ensures hardwareCount == 0 && overflowCount == 0
      ensures fresh(nowTime) && nowTime.data.bits == 0
    {
      nowTime := new TimeStamp();
      hardwareCount, overflowCount := 0, 0;
    }

    /** The current time: hardware count joined with the overflow count. */
    function Now(): (r: TimeData32)
      reads this
      ensures r.Half(0) == hardwareCount && r.Half(1) == overflowCount
    {
      FromHalves(hardwareCount, overflowCount)
    }

    /** One count of the hardware counter; when it wraps to zero the overflow
        interrupt increments the overflow count. The joined value moves on by
        exactly one modulo 2^32. */
    method Tick()
      modifies this
      ensures Now() == Sum(old(Now()), TimeData32(1))
      ensures nowTime == old(nowTime)
    {
      if hardwareCount < TWO16 - 1 {
        hardwareCount := hardwareCount + 1;
      } else {
        hardwareCount := 0;
        overflowCount := (overflowCount + 1) % TWO16;
      }
    }

    /** save_time_stamp: copy the current time into `ts`. */
    method SaveTimeStamp(ts: TimeStamp)
      modifies ts
      ensures ts.data == Now()
    {
      ts.data := Now();
    }

    /** get_time_now: refresh `now_time` from the counters and hand it out. */
    method GetTimeNow() returns (t: TimeStamp)
      modifies nowTime
      ensures t == nowTime && t.data == Now()
    {
      nowTime.data := Now();
      t := nowTime;
    }

    /** set_time: make the counters show the time in `ts`. */
    method SetTime(ts: TimeStamp) returns (ok: bool)
      modifies this, nowTime
      ensures ok
      ensures Now() == old(ts.data) && nowTime == old(nowTime) && nowTime.data == old(ts.data)
    {
      var d := ts.data;
      HalvesDetermine(d);
      hardwareCount, overflowCount := d.Half(0), d.Half(1);
      nowTime.data := d;
      ok := true;
    }
  }

  /** One more count after `i` counts is `i + 1` counts. */
  lemma SumStampStep(a: TimeData32, i: nat)
    ensures Sum(Sum(a, StampAt(i)), TimeData32(1)) == Sum(a, StampAt(i + 1))
  {
    StampSucc(i);
  }

  /** The stamp one count later, with the wrap at 2^32 spelled out. */
  lemma StampSucc(i: nat)
    ensures StampAt(i + 1).bits == if i % TWO32 == TWO32 - 1 then 0 else i % TWO32 + 1
  {
    var q := i / TWO32;
    assert i == q * TWO32 + i % TWO32;
    if i % TWO32 == TWO32 - 1 {
      assert i + 1 == (q + 1) * TWO32;
    }
  }

  /** Ticking a timer `n` times advances its joined value by `n` modulo 2^32. */
  method TickMany(timer: TaskTimer, n: nat)
    modifies timer
    ensures timer.Now() == Sum(old(timer.Now()), StampAt(n))
    ensures timer.nowTime == old(timer.nowTime)
  {
    var i := 0;
    while i < n
      invariant 0 <= i <= n
      invariant timer.Now() == Sum(old(timer.Now()), StampAt(i))
      invariant timer.nowTime == old(timer.nowTime)
    {
      SumStampStep(old(timer.Now()), i);
      timer.Tick();
      i := i + 1;
    }
  }
}
