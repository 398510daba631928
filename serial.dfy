/** The AVR UART driver (avr_serial.cc): flow-controlled character output with
    bounded waits, bounded receive, and the binary and hexadecimal writers. */
module AvrSerial {

  /** Polls of a busy flag after which putchar gives up (avr_serial.h). */
  const UART_TX_TOUT: nat := 20000
  /** Status register bits: transmit data register empty, receive complete. */
  const UART_DREG_MT: bv8 := 0x20
  const UART_RX_CPT: bv8 := 0x80
  /** What getch_timeout returns when nothing arrives: the char (-1). */
  const NO_CHAR: bv8 := 0xFF

  // ---------------------------------------------------------------------------
  // The hardware as the driver sees it
  // ---------------------------------------------------------------------------

  /** The pins and registers the driver reads, as a function of a poll clock
      that every read of the CTS port or of the status register advances by
      one: `cts(c)` and `status(c)` are what poll number `c` sees, `data(c)` is
      the receive data register read when the clock stands at `c`. */
  datatype Line = Line(cts: nat -> bv8, status: nat -> bv8, data: nat -> bv8)

  /** The two conditions putchar waits out. */
  datatype Gate = CtsHigh(mask: bv8) | BufferFull

  /** Whether poll `c` finds the gate still closed: the CTS pin high, or the
      data register not yet empty. */
  predicate Busy(line: Line, g: Gate, c: nat)
  {
    match g
    case CtsHigh(mask) => line.cts(c) & mask != 0
    case BufferFull => line.status(c) & UART_DREG_MT == 0
  }

  /** How a wait ended (false: timed out) and the poll clock after it. */
  datatype WaitEnd = WaitEnd(ok: bool, clock: nat)

  /** One of putchar's counting waits, from poll `t` with the counter at
      `count`: poll; if the gate is open, done; if the counter has passed
      UART_TX_TOUT, fail; otherwise count and poll again. */
  function Wait(line: Line, g: Gate, t: nat, count: nat): (w: WaitEnd)
    requires count <= UART_TX_TOUT + 1
    decreases UART_TX_TOUT + 1 - count
  {
    if !Busy(line, g, t) then WaitEnd(true, t + 1)
    else if count > UART_TX_TOUT then WaitEnd(false, t + 1)
    else Wait(line, g, t + 1, count + 1)
  }

  /** A wait ends at the first open poll, or fails after exactly
      UART_TX_TOUT + 2 - count closed polls. */
  lemma {:induction false} WaitSpec(line: Line, g: Gate, t: nat, count: nat)
    requires count <= UART_TX_TOUT + 1
    ensures var w := Wait(line, g, t, count);
      t < w.clock <= t + UART_TX_TOUT + 2 - count &&
      (forall c :: t <= c < w.clock - 1 ==> Busy(line, g, c)) &&
      (w.ok <==> !Busy(line, g, w.clock - 1)) &&
      (!w.ok ==> w.clock == t + UART_TX_TOUT + 2 - count)
    decreases UART_TX_TOUT + 1 - count
  {
    if Busy(line, g, t) && count <= UART_TX_TOUT {
      WaitSpec(line, g, t + 1, count + 1);
    }
  }

  /** A wait takes at least one poll, and succeeds exactly when its last poll
      found the gate open. */
  lemma WaitEnds(line: Line, g: Gate, t: nat, count: nat)
    requires count <= UART_TX_TOUT + 1
    ensures var w := Wait(line, g, t, count);
      t < w.clock && (w.ok <==> !Busy(line, g, w.clock - 1))
  {
    WaitSpec(line, g, t, count);
  }

  /** A gate that stays closed for UART_TX_TOUT + 2 - count polls makes the
      wait fail at the end of them. */
  lemma WaitTimesOut(line: Line, g: Gate, t: nat, count: nat)
    requires count <= UART_TX_TOUT + 1
    requires forall c :: t <= c <= t + UART_TX_TOUT + 1 - count ==> Busy(line, g, c)
    ensures Wait(line, g, t, count) == WaitEnd(false, t + UART_TX_TOUT + 2 - count)
  {
    WaitSpec(line, g, t, count);
  }

  // ---------------------------------------------------------------------------
  // ready_to_send and putchar
  // ---------------------------------------------------------------------------

  /** putchar's waits from poll `t`: for CTS low when a mask is in use, then
      for the data register to be empty. `ok` says the character was written.
      Both waits are bounded, so putchar gives up after at most
      2 * (UART_TX_TOUT + 2) polls. */
  function PutcharWait(line: Line, mask: bv8, t: nat): (w: WaitEnd)
    ensures t < w.clock <= t + 2 * (UART_TX_TOUT + 2)
    ensures mask == 0 ==> w.clock <= t + UART_TX_TOUT + 2
  {
    WaitSpec(line, CtsHigh(mask), t, 0);
    var cts := if mask != 0 then Wait(line, CtsHigh(mask), t, 0) else WaitEnd(true, t);
    WaitSpec(line, BufferFull, cts.clock, 0);
    if !cts.ok then cts else Wait(line, BufferFull, cts.clock, 0)
  }

  /** With CTS low (or unused) and the data register empty, putchar writes the
      character after one poll of each. */
  lemma PutcharSends(line: Line, mask: bv8, t: nat)
    requires mask == 0 || line.cts(t) & mask == 0
    requires line.status(if mask != 0 then t + 1 else t) & UART_DREG_MT != 0
    ensures PutcharWait(line, mask, t) == WaitEnd(true, if mask != 0 then t + 2 else t + 1)
  {
  }

  /** A CTS pin held high through UART_TX_TOUT + 2 polls makes putchar give up
      without writing, right after the last of them. */
  lemma PutcharCtsTimeout(line: Line, mask: bv8, t: nat)
    requires mask != 0
    requires forall c :: t <= c <= t + UART_TX_TOUT + 1 ==> line.cts(c) & mask != 0
    ensures PutcharWait(line, mask, t) == WaitEnd(false, t + UART_TX_TOUT + 2)
  {
    assert forall c :: t <= c <= t + UART_TX_TOUT + 1 ==> Busy(line, CtsHigh(mask), c);
    WaitTimesOut(line, CtsHigh(mask), t, 0);
  }

  /** A data register that never empties makes putchar give up, whatever CTS
      does. */
  lemma PutcharBufferTimeout(line: Line, mask: bv8, t: nat)
    requires forall c :: t <= c ==> line.status(c) & UART_DREG_MT == 0
    ensures !PutcharWait(line, mask, t).ok
  {
    var cts := if mask != 0 then Wait(line, CtsHigh(mask), t, 0) else WaitEnd(true, t);
    if mask != 0 {
      WaitSpec(line, CtsHigh(mask), t, 0);
    }
    if cts.ok {
      var t1 := cts.clock;
      assert forall c :: t1 <= c <= t1 + UART_TX_TOUT + 1 ==> Busy(line, BufferFull, c);
      WaitTimesOut(line, BufferFull, t1, 0);
    }
  }

  /** When putchar writes, its last poll found the data register empty, and,
      with CTS in use, an earlier poll found CTS low. */
  lemma PutcharOkMeansReady(line: Line, mask: bv8, t: nat)
    ensures var w := PutcharWait(line, mask, t);
      t < w.clock &&
      (w.ok ==> !Busy(line, BufferFull, w.clock - 1) &&
                (mask != 0 ==> exists c :: t <= c < w.clock - 1 && !Busy(line, CtsHigh(mask), c)))
  {
    var w := PutcharWait(line, mask, t);
    if mask != 0 {
      var cts := Wait(line, CtsHigh(mask), t, 0);
      WaitEnds(line, CtsHigh(mask), t, 0);
      if cts.ok {
        assert w == Wait(line, BufferFull, cts.clock, 0);
        WaitEnds(line, BufferFull, cts.clock, 0);
        assert !Busy(line, CtsHigh(mask), cts.clock - 1);
      } else {
        assert w == cts;
      }
    } else {
      assert w == Wait(line, BufferFull, t, 0);
      WaitEnds(line, BufferFull, t, 0);
    }
  }

  /** ready_to_send as written: not ready when CTS is in use and high; then
      not ready when the status register's UART_DREG_MT bit is set. */
  function Ready(line: Line, mask: bv8, t: nat): (w: WaitEnd)
    ensures w.clock == t + 1 || w.clock == t + 2
    ensures mask != 0 && line.cts(t) & mask != 0 ==> !w.ok
    ensures !(mask != 0 && line.cts(t) & mask != 0) ==>
      (w.ok <==> line.status(if mask != 0 then t + 1 else t) & UART_DREG_MT == 0)
  {
    if mask != 0 && line.cts(t) & mask != 0 then WaitEnd(false, t + 1)
    else
      var s := if mask != 0 then t + 1 else t;
      WaitEnd(line.status(s) & UART_DREG_MT == 0, s + 1)
  }

  /** ready_to_send and putchar read the UART_DREG_MT bit with opposite
      meanings: with CTS clear, ready_to_send reports ready exactly when
      putchar could NOT write right away. */
  lemma ReadyDisagreesWithPutchar(line: Line, mask: bv8, t: nat)
    requires mask == 0 || line.cts(t) & mask == 0
    ensures var s := if mask != 0 then t + 1 else t;
      Ready(line, mask, t).ok <==> PutcharWait(line, mask, t) != WaitEnd(true, s + 1)
  {
    var s := if mask != 0 then t + 1 else t;
    PutcharCtsClear(line, mask, t);
    if line.status(s) & UART_DREG_MT == 0 {
      assert Wait(line, BufferFull, s, 0) == Wait(line, BufferFull, s + 1, 1);
      WaitEnds(line, BufferFull, s + 1, 1);
    }
  }

  /** With CTS clear at the first poll, putchar goes straight to the data
      register wait. */
  lemma PutcharCtsClear(line: Line, mask: bv8, t: nat)
    requires mask == 0 || line.cts(t) & mask == 0
    ensures PutcharWait(line, mask, t) == Wait(line, BufferFull, if mask != 0 then t + 1 else t, 0)
  {
    if mask != 0 {
      assert !Busy(line, CtsHigh(mask), t);
    }
  }

  // ---------------------------------------------------------------------------
  // Sequences of putchar calls and puts
  // ---------------------------------------------------------------------------

  /** The characters written to the data register, and the poll clock after. */
  datatype Sent = Sent(chars: seq<char>, clock: nat)

  /** putchar's outcome for every starting clock. */
  function PutOutcomes(line: Line, mask: bv8): nat -> WaitEnd
  {
    (t: nat) => PutcharWait(line, mask, t)
  }

  /** Calling putchar on each character of `cs` in turn, ignoring its result,
      where `put(t)` is how a putchar started at clock `t` ends: the characters
      that got through, in order. */
  function Emit(put: nat -> WaitEnd, t: nat, cs: seq<char>): (e: Sent)
    ensures |e.chars| <= |cs|
    decreases |cs|
  {
    if cs == [] then Sent([], t)
    else
      var w := put(t);
      var rest := Emit(put, w.clock, cs[1..]);
      Sent((if w.ok then [cs[0]] else []) + rest.chars, rest.clock)
  }

  /** The first putchar of a sequence, split off. */
  lemma EmitCons(put: nat -> WaitEnd, t: nat, c: char, cs: seq<char>)
    ensures var rest := Emit(put, put(t).clock, cs);
      Emit(put, t, [c] + cs) == Sent((if put(t).ok then [c] else []) + rest.chars, rest.clock)
  {
    assert ([c] + cs)[0] == c && ([c] + cs)[1..] == cs;
  }

  /** Sending `a` and then `b` is sending `a + b`. */
  lemma {:induction false} EmitAppend(put: nat -> WaitEnd, t: nat, a: seq<char>, b: seq<char>)
    ensures var ea := Emit(put, t, a);
      var eb := Emit(put, ea.clock, b);
      Emit(put, t, a + b) == Sent(ea.chars + eb.chars, eb.clock)
    decreases |a|
  {
    if a == [] {
      assert a + b == b;
    } else {
      assert (a + b)[0] == a[0] && (a + b)[1..] == a[1..] + b;
      EmitAppend(put, put(t).clock, a[1..], b);
    }
  }

  /** When every putchar succeeds after `k` polls, every character gets
      through, `k` polls apart. */
  lemma {:induction false} EmitDeliversAll(put: nat -> WaitEnd, k: nat, t: nat, cs: seq<char>)
    requires forall u: nat :: put(u) == WaitEnd(true, u + k)
    ensures Emit(put, t, cs) == Sent(cs, t + k * |cs|)
    decreases |cs|
  {
    if cs != [] {
      EmitDeliversAll(put, k, t + k, cs[1..]);
      assert [cs[0]] + cs[1..] == cs;
      assert t + k + k * (|cs| - 1) == t + k * |cs|;
    }
  }

  /** A line whose CTS pin is always low and whose data register always reads
      as empty. */
  ghost predicate AlwaysClear(line: Line, mask: bv8)
  {
    (forall c :: line.cts(c) & mask == 0) && (forall c :: line.status(c) & UART_DREG_MT != 0)
  }

  /** On a clear line every character gets through, one poll per character
      (two with CTS in use). */
  lemma ClearLineDeliversAll(line: Line, mask: bv8, t: nat, cs: seq<char>)
    requires AlwaysClear(line, mask)
    ensures var k := if mask != 0 then 2 else 1;
      Emit(PutOutcomes(line, mask), t, cs) == Sent(cs, t + k * |cs|)
  {
    var k := if mask != 0 then 2 else 1;
    forall u: nat
      ensures PutOutcomes(line, mask)(u) == WaitEnd(true, u + k)
    {
      PutcharSends(line, mask, u);
    }
    EmitDeliversAll(PutOutcomes(line, mask), k, t, cs);
  }

  /** The characters of a C string before its terminating NUL. */
  function CString(s: seq<char>): (r: seq<char>)
    ensures |r| <= |s|
    ensures '\0' !in r
    decreases |s|
  {
    if s == [] || s[0] == '\0' then [] else [s[0]] + CString(s[1..])
  }

  /** In a NUL-terminated string, the C string is the prefix up to the first
      NUL. */
  lemma {:induction false} CStringPrefix(s: seq<char>)
    requires '\0' in s
    ensures var r := CString(s); |r| < |s| && r == s[..|r|] && s[|r|] == '\0'
    decreases |s|
  {
    if s[0] != '\0' {
      assert '\0' in s[1..] by {
        var j :| 0 <= j < |s| && s[j] == '\0';
        assert s[1..][j - 1] == '\0';
      }
      CStringPrefix(s[1..]);
    }
  }

  // ---------------------------------------------------------------------------
  // getch_timeout
  // ---------------------------------------------------------------------------

  /** A received value and the poll clock after it. */
  datatype Received = Received(value: bv8, clock: nat)

  /** getch_timeout with `retries` polls left from poll `t`: the data register
      on the first poll that sees RX complete, else NO_CHAR. */
  function Getch(line: Line, t: nat, retries: nat): (r: Received)
    ensures t <= r.clock <= t + retries
    decreases retries
  {
    if retries == 0 then Received(NO_CHAR, t)
    else if line.status(t) & UART_RX_CPT != 0 then Received(line.data(t + 1), t + 1)
    else Getch(line, t + 1, retries - 1)
  }

  /** No character in `retries` polls: NO_CHAR after exactly `retries` polls
      (so none at all when `retries` is 0). */
  lemma {:induction false} GetchNothing(line: Line, t: nat, retries: nat)
    requires forall c :: t <= c < t + retries ==> line.status(c) & UART_RX_CPT == 0
    ensures Getch(line, t, retries) == Received(NO_CHAR, t + retries)
    decreases retries
  {
    if retries > 0 {
      GetchNothing(line, t + 1, retries - 1);
    }
  }

  /** The first poll `k` that sees RX complete decides: the data register is
      returned right after it. */
  lemma {:induction false} GetchFirst(line: Line, t: nat, retries: nat, k: nat)
    requires k < retries
    requires forall c :: t <= c < t + k ==> line.status(c) & UART_RX_CPT == 0
    requires line.status(t + k) & UART_RX_CPT != 0
    ensures Getch(line, t, retries) == Received(line.data(t + k + 1), t + k + 1)
    decreases k
  {
    if k > 0 {
      GetchFirst(line, t + 1, retries - 1, k - 1);
    }
  }

  // ---------------------------------------------------------------------------
  // The text writers
  // ---------------------------------------------------------------------------

  /** write(bool): "T" or "F". */
  function BoolChar(value: bool): (c: char)
    ensures c in "TF"
    ensures c == 'T' <==> value
  {
    if value then 'T' else 'F'
  }

  /** The characters the writers emit as digits. */
  predicate IsBinaryDigit(c: char) { c == '0' || c == '1' }
  predicate IsHexDigit(c: char) { '0' <= c <= '9' || 'A' <= c <= 'F' }

  /** One binary digit. */
  function BitChar(on: bool): (c: char)
  {
    if on then '1' else '0'
  }

  /** write_bin's loop over `mask` shifting right to 0: one digit per mask
      value, '1' where `num & mask` is nonzero. */
  function BitsFrom8(num: bv8, mask: bv8): (s: seq<char>)
    ensures forall i :: 0 <= i < |s| ==> IsBinaryDigit(s[i])
    decreases mask
  {
    if mask == 0 then [] else [BitChar(num & mask != 0)] + BitsFrom8(num, mask >> 1)
  }

  function BitsFrom16(num: bv16, mask: bv16): (s: seq<char>)
    ensures forall i :: 0 <= i < |s| ==> IsBinaryDigit(s[i])
    decreases mask
  {
    if mask == 0 then [] else [BitChar(num & mask != 0)] + BitsFrom16(num, mask >> 1)
  }

  /** What write_bin emits: one binary digit per bit of the argument. */
  function BinaryText8(num: bv8): (s: seq<char>)
    ensures |s| == 8
  {
    MsbFirst8_8(num);
    BitsFrom8(num, 0x80)
  }

  function BinaryText16(num: bv16): (s: seq<char>)
    ensures |s| == 16
  {
    MsbFirst16_16(num);
    BitsFrom16(num, 0x8000)
  }

  /** Bit `i` of `x`, counting from the least significant. */
  predicate Bit8(x: bv8, i: nat) requires i < 8 { (x >> i) & 1 == 1 }
  predicate Bit16(x: bv16, i: nat) requires i < 16 { (x >> i) & 1 == 1 }

  /** Reference definition: the low `n` bits of `x`, most significant first. */
  function MsbBits8(x: bv8, n: nat): (s: seq<char>)
    requires n <= 8
    ensures |s| == n
    ensures forall i :: 0 <= i < n ==> s[i] == BitChar(Bit8(x, n - 1 - i))
  {
    if n == 0 then [] else [BitChar(Bit8(x, n - 1))] + MsbBits8(x, n - 1)
  }

  function MsbBits16(x: bv16, n: nat): (s: seq<char>)
    requires n <= 16
    ensures |s| == n
    ensures forall i :: 0 <= i < n ==> s[i] == BitChar(Bit16(x, n - 1 - i))
  {
    if n == 0 then [] else [BitChar(Bit16(x, n - 1))] + MsbBits16(x, n - 1)
  }

  /** Each mask value of the loop is the bit below the previous one, so the
      loop's digits are the reference's; one step per mask value. The steps
      are written out because one lemma over a symbolic bit index needs a
      shift by a converted integer, which costs the solver far more than the
      literal masks below. */
  lemma MsbFirst8_0(x: bv8) ensures BitsFrom8(x, 0) == MsbBits8(x, 0) {}
  lemma MsbFirst8_1(x: bv8) ensures BitsFrom8(x, 0x1) == MsbBits8(x, 1) { MsbFirst8_0(x); }
  lemma MsbFirst8_2(x: bv8) ensures BitsFrom8(x, 0x2) == MsbBits8(x, 2) { MsbFirst8_1(x); }
  lemma MsbFirst8_3(x: bv8) ensures BitsFrom8(x, 0x4) == MsbBits8(x, 3) { MsbFirst8_2(x); }
  lemma MsbFirst8_4(x: bv8) ensures BitsFrom8(x, 0x8) == MsbBits8(x, 4) { MsbFirst8_3(x); }
  lemma MsbFirst8_5(x: bv8) ensures BitsFrom8(x, 0x10) == MsbBits8(x, 5) { MsbFirst8_4(x); }
  lemma MsbFirst8_6(x: bv8) ensures BitsFrom8(x, 0x20) == MsbBits8(x, 6) { MsbFirst8_5(x); }
  lemma MsbFirst8_7(x: bv8) ensures BitsFrom8(x, 0x40) == MsbBits8(x, 7) { MsbFirst8_6(x); }
  lemma MsbFirst8_8(x: bv8) ensures BitsFrom8(x, 0x80) == MsbBits8(x, 8) { MsbFirst8_7(x); }
  lemma MsbFirst16_0(x: bv16) ensures BitsFrom16(x, 0) == MsbBits16(x, 0) {}
  lemma MsbFirst16_1(x: bv16) ensures BitsFrom16(x, 0x1) == MsbBits16(x, 1) { MsbFirst16_0(x); }
  lemma MsbFirst16_2(x: bv16) ensures BitsFrom16(x, 0x2) == MsbBits16(x, 2) { MsbFirst16_1(x); }
  lemma MsbFirst16_3(x: bv16) ensures BitsFrom16(x, 0x4) == MsbBits16(x, 3) { MsbFirst16_2(x); }
  lemma MsbFirst16_4(x: bv16) ensures BitsFrom16(x, 0x8) == MsbBits16(x, 4) { MsbFirst16_3(x); }
  lemma MsbFirst16_5(x: bv16) ensures BitsFrom16(x, 0x10) == MsbBits16(x, 5) { MsbFirst16_4(x); }
  lemma MsbFirst16_6(x: bv16) ensures BitsFrom16(x, 0x20) == MsbBits16(x, 6) { MsbFirst16_5(x); }
  lemma MsbFirst16_7(x: bv16) ensures BitsFrom16(x, 0x40) == MsbBits16(x, 7) { MsbFirst16_6(x); }
  lemma MsbFirst16_8(x: bv16) ensures BitsFrom16(x, 0x80) == MsbBits16(x, 8) { MsbFirst16_7(x); }
  lemma MsbFirst16_9(x: bv16) ensures BitsFrom16(x, 0x100) == MsbBits16(x, 9) { MsbFirst16_8(x); }
  lemma MsbFirst16_10(x: bv16) ensures BitsFrom16(x, 0x200) == MsbBits16(x, 10) { MsbFirst16_9(x); }
  lemma MsbFirst16_11(x: bv16) ensures BitsFrom16(x, 0x400) == MsbBits16(x, 11) { MsbFirst16_10(x); }
  lemma MsbFirst16_12(x: bv16) ensures BitsFrom16(x, 0x800) == MsbBits16(x, 12) { MsbFirst16_11(x); }
  lemma MsbFirst16_13(x: bv16) ensures BitsFrom16(x, 0x1000) == MsbBits16(x, 13) { MsbFirst16_12(x); }
  lemma MsbFirst16_14(x: bv16) ensures BitsFrom16(x, 0x2000) == MsbBits16(x, 14) { MsbFirst16_13(x); }
  lemma MsbFirst16_15(x: bv16) ensures BitsFrom16(x, 0x4000) == MsbBits16(x, 15) { MsbFirst16_14(x); }
  lemma MsbFirst16_16(x: bv16) ensures BitsFrom16(x, 0x8000) == MsbBits16(x, 16) { MsbFirst16_15(x); }
  /** write_bin(unsigned char) emits eight digits, most significant bit first:
      digit `i` is '1' exactly when bit 7 - i is set. */
  lemma BinaryBits8(num: bv8)
    ensures |BinaryText8(num)| == 8
    ensures forall i :: 0 <= i < 8 ==> (BinaryText8(num)[i] == '1' <==> Bit8(num, 7 - i))
    ensures forall i :: 0 <= i < 8 ==> IsBinaryDigit(BinaryText8(num)[i])
  {
    MsbFirst8_8(num);
  }

  /** write_bin(unsigned int) emits sixteen digits, most significant bit
      first: digit `i` is '1' exactly when bit 15 - i is set. */
  lemma BinaryBits16(num: bv16)
    ensures |BinaryText16(num)| == 16
    ensures forall i :: 0 <= i < 16 ==> (BinaryText16(num)[i] == '1' <==> Bit16(num, 15 - i))
    ensures forall i :: 0 <= i < 16 ==> IsBinaryDigit(BinaryText16(num)[i])
  {
    MsbFirst16_16(num);
  }

  /** One hexadecimal digit as write_hex computes it: `digit + ('A' - 10)`
      above 9, `digit + '0'` otherwise. */
  function DigitChar(v: bv8): (c: char)
    requires v < 16
    ensures IsHexDigit(c)
  {
    if v > 9 then (v as int + ('A' as int - 10)) as char else (v as int + '0' as int) as char
  }

  lemma DigitRoundTrip(v: bv8)
    requires v < 16
    ensures DigitValue(DigitChar(v)) == v
  {}

  /** Reading a hexadecimal digit back. */
  function DigitValue(c: char): (v: bv8)
    ensures v < 16
  {
    if '0' <= c <= '9' then (c as int - '0' as int) as bv8
    else if 'A' <= c <= 'F' then (c as int - 'A' as int + 10) as bv8
    else 0
  }

  /** `(num & 0xF0) >> 4` and `(unsigned char)((num & 0xF000) >> 12)`: the top
      nibble. */
  function Top8(n: bv8): (d: bv8)
    ensures d < 16
  {
    (n & 0xF0) >> 4
  }

  function Top16(n: bv16): (d: bv8)
    ensures d < 16
  {
    ((n & 0xF000) >> 12) as bv8
  }

  /** write_hex's loop: `k` times, write the top nibble and shift `num` left
      by four within its width. */
  function HexDigits8(n: bv8, k: nat): (s: seq<char>)
    ensures |s| == k
    ensures forall i :: 0 <= i < k ==> IsHexDigit(s[i])
    decreases k
  {
    if k == 0 then [] else [DigitChar(Top8(n))] + HexDigits8(n << 4, k - 1)
  }

  function HexDigits16(n: bv16, k: nat): (s: seq<char>)
    ensures |s| == k
    ensures forall i :: 0 <= i < k ==> IsHexDigit(s[i])
    decreases k
  {
    if k == 0 then [] else [DigitChar(Top16(n))] + HexDigits16(n << 4, k - 1)
  }

  /** What the four write_hex overloads emit. unsigned long goes as its
      upper and then its lower 16 bits; unsigned long long as the bytes of
      its little-endian representation from byte 7 down to byte 0. */
  function HexText8(num: bv8): (s: seq<char>)
    ensures |s| == 2 && forall i :: 0 <= i < 2 ==> IsHexDigit(s[i])
  {
    HexDigits8(num, 2)
  }

  function HexText16(num: bv16): (s: seq<char>)
    ensures |s| == 4 && forall i :: 0 <= i < 4 ==> IsHexDigit(s[i])
  {
    HexDigits16(num, 4)
  }

  function HexText32(num: bv32): (s: seq<char>)
    ensures |s| == 8 && forall i :: 0 <= i < 8 ==> IsHexDigit(s[i])
  {
    HexText16((num >> 16) as bv16) + HexText16((num & 0xFFFF) as bv16)
  }

  function HexText64(num: bv64): (s: seq<char>)
    ensures |s| == 16
  {
    HexBytes(UnionBytes(num), 8)
  }

  /** Byte `k` of the 64-bit number in memory, least significant first. */
  function UnionByte(num: bv64, k: nat): bv8
    requires k < 8
  {
    (if k == 0 then num & 0xFF else if k == 1 then (num >> 8) & 0xFF
     else if k == 2 then (num >> 16) & 0xFF else if k == 3 then (num >> 24) & 0xFF
     else if k == 4 then (num >> 32) & 0xFF else if k == 5 then (num >> 40) & 0xFF
     else if k == 6 then (num >> 48) & 0xFF else (num >> 56) & 0xFF) as bv8
  }

  /** The union's byte array. */
  function UnionBytes(num: bv64): (b: seq<bv8>)
    ensures |b| == 8 && forall k :: 0 <= k < 8 ==> b[k] == UnionByte(num, k)
  {
    [UnionByte(num, 0), UnionByte(num, 1), UnionByte(num, 2), UnionByte(num, 3),
     UnionByte(num, 4), UnionByte(num, 5), UnionByte(num, 6), UnionByte(num, 7)]
  }

  /** The hex digits of `bytes[n - 1]` down to `bytes[0]`. */
  function HexBytes(bytes: seq<bv8>, n: nat): (s: seq<char>)
    requires n <= |bytes|
    ensures |s| == 2 * n
  {
    if n == 0 then [] else HexText8(bytes[n - 1]) + HexBytes(bytes, n - 1)
  }

  /** Reading hexadecimal text back, most significant digit first, into
      `acc`. */
  function HexParse(acc: bv64, s: seq<char>): bv64
    decreases |s|
  {
    if s == [] then acc else HexParse((acc << 4) | DigitValue(s[0]) as bv64, s[1..])
  }

  lemma {:induction false} HexParseAppend(acc: bv64, a: seq<char>, b: seq<char>)
    ensures HexParse(acc, a + b) == HexParse(HexParse(acc, a), b)
    decreases |a|
  {
    if a == [] {
      assert a + b == b;
    } else {
      assert (a + b)[1..] == a[1..] + b;
      HexParseAppend((acc << 4) | DigitValue(a[0]) as bv64, a[1..], b);
    }
  }

  /** One digit of the shifting loop read back. */
  lemma ParseStep8(acc: bv64, n: bv8, k: nat)
    requires k > 0
    ensures HexParse(acc, HexDigits8(n, k)) == HexParse((acc << 4) | Top8(n) as bv64, HexDigits8(n << 4, k - 1))
  {
    var s := HexDigits8(n, k);
    assert s[0] == DigitChar(Top8(n)) && s[1..] == HexDigits8(n << 4, k - 1);
    DigitRoundTrip(Top8(n));
  }

  lemma ParseStep16(acc: bv64, n: bv16, k: nat)
    requires k > 0
    ensures HexParse(acc, HexDigits16(n, k)) == HexParse((acc << 4) | Top16(n) as bv64, HexDigits16(n << 4, k - 1))
  {
    var s := HexDigits16(n, k);
    assert s[0] == DigitChar(Top16(n)) && s[1..] == HexDigits16(n << 4, k - 1);
    DigitRoundTrip(Top16(n));
  }

  /** The nibbles taken off the top, put back together in order. */
  lemma Nibbles8(acc: bv64, x: bv8)
    ensures ((((acc << 4) | Top8(x) as bv64) << 4) | Top8(x << 4) as bv64) == (acc << 8) | x as bv64
  {
  }

  lemma Nibbles16(acc: bv64, x: bv16)
    ensures ((((((((acc << 4) | Top16(x) as bv64) << 4) | Top16(x << 4) as bv64) << 4) | Top16((x << 4) << 4) as bv64) << 4) | Top16(((x << 4) << 4) << 4) as bv64) == (acc << 16) | x as bv64
  {
  }

  lemma LastDigit8(acc: bv64, n: bv8)
    ensures HexParse(acc, HexDigits8(n, 1)) == (acc << 4) | Top8(n) as bv64
  {
    ParseStep8(acc, n, 1);
    assert HexDigits8(n << 4, 0) == [];
  }

  /** Reading write_hex(unsigned char)'s two digits back gives `num`. */
  lemma Hex8Parse(acc: bv64, x: bv8)
    ensures HexParse(acc, HexText8(x)) == (acc << 8) | x as bv64
  {
    var a1 := (acc << 4) | Top8(x) as bv64;
    ParseStep8(acc, x, 2);
    LastDigit8(a1, x << 4);
    Nibbles8(acc, x);
  }

  /** Reading write_hex(unsigned int)'s four digits back gives `num`. */
  lemma Hex16Parse(acc: bv64, x: bv16)
    ensures HexParse(acc, HexText16(x)) == (acc << 16) | x as bv64
  {
    var x1, x2, x3 := x << 4, (x << 4) << 4, ((x << 4) << 4) << 4;
    var a1 := (acc << 4) | Top16(x) as bv64;
    var a2 := (a1 << 4) | Top16(x1) as bv64;
    var a3 := (a2 << 4) | Top16(x2) as bv64;
    var a4 := (a3 << 4) | Top16(x3) as bv64;
    calc {
      HexParse(acc, HexDigits16(x, 4));
      { ParseStep16(acc, x, 4); }
      HexParse(a1, HexDigits16(x1, 3));
      { ParseStep16(a1, x1, 3); }
      HexParse(a2, HexDigits16(x2, 2));
      { ParseStep16(a2, x2, 2); }
      HexParse(a3, HexDigits16(x3, 1));
      { ParseStep16(a3, x3, 1); }
      HexParse(a4, HexDigits16(x3 << 4, 0));
      a4;
      { Nibbles16(acc, x); }
      (acc << 16) | x as bv64;
    }
  }

  /** write_hex(unsigned char) emits two digits, high nibble first, and
      reading them back gives `num`. */
  lemma HexRoundTrip8(num: bv8)
    ensures |HexText8(num)| == 2
    ensures HexText8(num)[0] == DigitChar(num >> 4) && HexText8(num)[1] == DigitChar(num & 0xF)
    ensures HexParse(0, HexText8(num)) == num as bv64
  {
    assert Top8(num) == num >> 4 && Top8(num << 4) == num & 0xF;
    Hex8Parse(0, num);
  }

  /** The four nibbles of a 16-bit number, from the most significant. */
  function Nibble16(x: bv16, j: nat): (v: bv8)
    requires j < 4
    ensures v < 16
  {
    (if j == 0 then (x >> 12) & 0xF else if j == 1 then (x >> 8) & 0xF
     else if j == 2 then (x >> 4) & 0xF else x & 0xF) as bv8
  }

  /** write_hex(unsigned int) emits four digits, most significant nibble
      first, and reading them back gives `num`. */
  lemma HexRoundTrip16(num: bv16)
    ensures |HexText16(num)| == 4
    ensures forall j :: 0 <= j < 4 ==> HexText16(num)[j] == DigitChar(Nibble16(num, j))
    ensures HexParse(0, HexText16(num)) == num as bv64
  {
    Hex16Tops(num);
    NibbleTops16(num);
    Hex16Parse(0, num);
    LeadingZeros16(num);
  }

  /** The four digits are those of the top nibble after zero to three
      shifts. */
  lemma Hex16Tops(num: bv16)
    ensures var x1, x2, x3 := num << 4, (num << 4) << 4, ((num << 4) << 4) << 4;
      HexText16(num) == [DigitChar(Top16(num)), DigitChar(Top16(x1)), DigitChar(Top16(x2)), DigitChar(Top16(x3))]
  {
    var s := HexText16(num);
    var x1, x2, x3 := num << 4, (num << 4) << 4, ((num << 4) << 4) << 4;
    assert s == [DigitChar(Top16(num))] + HexDigits16(x1, 3);
    assert s[1..] == [DigitChar(Top16(x1))] + HexDigits16(x2, 2);
    assert s[2..] == [DigitChar(Top16(x2))] + HexDigits16(x3, 1);
    assert s[3..] == [DigitChar(Top16(x3))] + HexDigits16(x3 << 4, 0);
  }

  lemma NibbleTops16(x: bv16)
    ensures Top16(x) == Nibble16(x, 0) && Top16(x << 4) == Nibble16(x, 1)
    ensures Top16((x << 4) << 4) == Nibble16(x, 2) && Top16(((x << 4) << 4) << 4) == Nibble16(x, 3)
  {
  }

  /** The two halves put back together. */
  lemma Halves32(num: bv32)
    ensures ((((num >> 16) as bv16) as bv64) << 16) | (((num & 0xFFFF) as bv16) as bv64) == num as bv64
  {
  }

  /** write_hex(unsigned long) emits the digits of the upper half, then those
      of the lower half, eight in all, and reading them back gives `num`. */
  lemma HexRoundTrip32(num: bv32)
    ensures |HexText32(num)| == 8
    ensures HexText32(num)[..4] == HexText16((num >> 16) as bv16)
    ensures HexText32(num)[4..] == HexText16((num & 0xFFFF) as bv16)
    ensures HexParse(0, HexText32(num)) == num as bv64
  {
    Hex32Parse(num);
  }

  lemma Hex32Parse(num: bv32)
    ensures HexParse(0, HexText32(num)) == num as bv64
  {
    var hi, lo := (num >> 16) as bv16, (num & 0xFFFF) as bv16;
    HexPairParse(hi, lo);
    Halves32(num);
  }

  /** Two 16-bit numbers written one after the other read back as one. */
  lemma HexPairParse(hi: bv16, lo: bv16)
    ensures HexParse(0, HexText16(hi) + HexText16(lo)) == ((hi as bv64) << 16) | lo as bv64
  {
    calc {
      HexParse(0, HexText16(hi) + HexText16(lo));
      { HexParseAppend(0, HexText16(hi), HexText16(lo)); }
      HexParse(HexParse(0, HexText16(hi)), HexText16(lo));
      { Hex16Parse(0, hi); LeadingZeros16(hi); }
      HexParse(hi as bv64, HexText16(lo));
      { Hex16Parse(hi as bv64, lo); }
      ((hi as bv64) << 16) | lo as bv64;
    }
  }

  lemma LeadingZeros16(x: bv16)
    ensures ((0 as bv64) << 16) | x as bv64 == x as bv64
  {
  }

  /** Two more digits read back append one byte. */
  lemma HexBytesStep(acc: bv64, bytes: seq<bv8>, n: nat)
    requires 0 < n <= |bytes|
    ensures HexParse(acc, HexBytes(bytes, n)) == HexParse((acc << 8) | bytes[n - 1] as bv64, HexBytes(bytes, n - 1))
  {
    HexParseAppend(acc, HexText8(bytes[n - 1]), HexBytes(bytes, n - 1));
    Hex8Parse(acc, bytes[n - 1]);
  }

  /** Byte `k` appended below the bytes above it gives the number shifted
      down to byte `k`; one lemma per byte, since a single lemma over a
      symbolic byte index, or all eight steps in one proof, is more 64-bit
      work than the solver finishes within its limit. */
  lemma Join7(num: bv64) ensures ((0 as bv64) << 8) | UnionByte(num, 7) as bv64 == num >> 56 {}
  lemma Join6(num: bv64) ensures ((num >> 56) << 8) | UnionByte(num, 6) as bv64 == num >> 48 {}
  lemma Join5(num: bv64) ensures ((num >> 48) << 8) | UnionByte(num, 5) as bv64 == num >> 40 {}
  lemma Join4(num: bv64) ensures ((num >> 40) << 8) | UnionByte(num, 4) as bv64 == num >> 32 {}
  lemma Join3(num: bv64) ensures ((num >> 32) << 8) | UnionByte(num, 3) as bv64 == num >> 24 {}
  lemma Join2(num: bv64) ensures ((num >> 24) << 8) | UnionByte(num, 2) as bv64 == num >> 16 {}
  lemma Join1(num: bv64) ensures ((num >> 16) << 8) | UnionByte(num, 1) as bv64 == num >> 8 {}
  lemma Join0(num: bv64) ensures ((num >> 8) << 8) | UnionByte(num, 0) as bv64 == num {}

  /** The digits of byte n - 1 - j sit at positions 2j and 2j + 1. */
  lemma {:induction false} HexBytesOrder(bytes: seq<bv8>, n: nat, j: nat)
    requires j < n <= |bytes|
    ensures HexBytes(bytes, n)[2 * j..2 * j + 2] == HexText8(bytes[n - 1 - j])
    decreases n
  {
    var a, r := HexText8(bytes[n - 1]), HexBytes(bytes, n - 1);
    assert HexBytes(bytes, n) == a + r;
    if j == 0 {
      assert (a + r)[0..2] == a;
    } else {
      assert (a + r)[2 * j..2 * j + 2] == r[2 * (j - 1)..2 * (j - 1) + 2];
      HexBytesOrder(bytes, n - 1, j - 1);
    }
  }

  /** write_hex(unsigned long long) emits sixteen digits, two per byte from
      byte 7 down to byte 0, and reading them back gives `num`. */
  lemma HexRoundTrip64(num: bv64)
    ensures |HexText64(num)| == 16
    ensures forall j :: 0 <= j < 8 ==> HexText64(num)[2 * j..2 * j + 2] == HexText8(UnionByte(num, 7 - j))
    ensures HexParse(0, HexText64(num)) == num
  {
    Hex64Order(num);
    Hex64Parse(num);
  }

  lemma Hex64Order(num: bv64)
    ensures forall j :: 0 <= j < 8 ==> HexText64(num)[2 * j..2 * j + 2] == HexText8(UnionByte(num, 7 - j))
  {
    forall j | 0 <= j < 8
      ensures HexText64(num)[2 * j..2 * j + 2] == HexText8(UnionByte(num, 7 - j))
    {
      HexBytesOrder(UnionBytes(num), 8, j);
    }
  }

  lemma Hex64Parse(num: bv64)
    ensures HexParse(0, HexText64(num)) == num
  {
    var bytes := UnionBytes(num);
    calc {
      HexParse(0, HexBytes(bytes, 8));
      { Hex64Step7(num); }
      HexParse(num >> 56, HexBytes(bytes, 7));
      { Hex64Step6(num); }
      HexParse(num >> 48, HexBytes(bytes, 6));
      { Hex64Step5(num); }
      HexParse(num >> 40, HexBytes(bytes, 5));
      { Hex64Step4(num); }
      HexParse(num >> 32, HexBytes(bytes, 4));
      { Hex64Step3(num); }
      HexParse(num >> 24, HexBytes(bytes, 3));
      { Hex64Step2(num); }
      HexParse(num >> 16, HexBytes(bytes, 2));
      { Hex64Step1(num); }
      HexParse(num >> 8, HexBytes(bytes, 1));
      { Hex64Step0(num); }
      HexParse(num, HexBytes(bytes, 0));
      num;
    }
  }

  /** Reading byte `k`'s two digits back after the bytes above it; one lemma
      per byte, for the same reason as Join0 to Join7. */
  lemma Hex64Step7(num: bv64)
    ensures HexParse(0, HexBytes(UnionBytes(num), 8)) == HexParse(num >> 56, HexBytes(UnionBytes(num), 7))
  {
    HexBytesStep(0, UnionBytes(num), 8);
    Join7(num);
  }
  lemma Hex64Step6(num: bv64)
    ensures HexParse(num >> 56, HexBytes(UnionBytes(num), 7)) == HexParse(num >> 48, HexBytes(UnionBytes(num), 6))
  {
    HexBytesStep(num >> 56, UnionBytes(num), 7);
    Join6(num);
  }
  lemma Hex64Step5(num: bv64)
    ensures HexParse(num >> 48, HexBytes(UnionBytes(num), 6)) == HexParse(num >> 40, HexBytes(UnionBytes(num), 5))
  {
    HexBytesStep(num >> 48, UnionBytes(num), 6);
    Join5(num);
  }
  lemma Hex64Step4(num: bv64)
    ensures HexParse(num >> 40, HexBytes(UnionBytes(num), 5)) == HexParse(num >> 32, HexBytes(UnionBytes(num), 4))
  {
    HexBytesStep(num >> 40, UnionBytes(num), 5);
    Join4(num);
  }
  lemma Hex64Step3(num: bv64)
    ensures HexParse(num >> 32, HexBytes(UnionBytes(num), 4)) == HexParse(num >> 24, HexBytes(UnionBytes(num), 3))
  {
    HexBytesStep(num >> 32, UnionBytes(num), 4);
    Join3(num);
  }
  lemma Hex64Step2(num: bv64)
    ensures HexParse(num >> 24, HexBytes(UnionBytes(num), 3)) == HexParse(num >> 16, HexBytes(UnionBytes(num), 2))
  {
    HexBytesStep(num >> 24, UnionBytes(num), 3);
    Join2(num);
  }
  lemma Hex64Step1(num: bv64)
    ensures HexParse(num >> 16, HexBytes(UnionBytes(num), 2)) == HexParse(num >> 8, HexBytes(UnionBytes(num), 1))
  {
    HexBytesStep(num >> 16, UnionBytes(num), 2);
    Join1(num);
  }
  lemma Hex64Step0(num: bv64)
    ensures HexParse(num >> 8, HexBytes(UnionBytes(num), 1)) == HexParse(num, HexBytes(UnionBytes(num), 0))
  {
    HexBytesStep(num >> 8, UnionBytes(num), 1);
    Join0(num);
  }

  // ---------------------------------------------------------------------------
  // The driver
  // ---------------------------------------------------------------------------

  /** The UART: its CTS mask (0 when CTS is not used), the line it polls, the
      poll clock and every character written to the data register so far. */
  class Uart {
    const ctsMask: bv8
    const line: Line
    /** How a putchar started at each clock ends on this line. */
    ghost const put: nat -> WaitEnd
    var clock: nat
    var sent: seq<char>

    /** `put` is putchar's outcome on `line`. The writers reason about `put`
        alone; only putchar itself looks at the waits behind it. */
    ghost predicate Valid()
    {
      forall t: nat {:trigger PutcharWait(line, ctsMask, t)} :: put(t) == PutcharWait(line, ctsMask, t)
    }

    constructor (line: Line, ctsMask: bv8)
      ensures this.line == line && this.ctsMask == ctsMask && Valid()
      ensures clock == 0 && sent == []
    {
      this.line := line;
      this.ctsMask := ctsMask;
      put := PutOutcomes(line, ctsMask);
      clock := 0;
      sent := [];
    }

    /** The characters `cs` sent by successive putchar calls from now on. */
    ghost function Sending(cs: seq<char>): Sent
      reads this
    {
      Emit(put, clock, cs)
    }

    /** ready_to_send. */
    method ReadyToSend() returns (ready: bool)
      modifies this`clock
      ensures var w := Ready(line, ctsMask, old(clock)); ready == w.ok && clock == w.clock
    {
      if ctsMask != 0 {
        var port := line.cts(clock);
        clock := clock + 1;
        if port & ctsMask != 0 {
          return false;
        }
      }
      var status := line.status(clock);
      clock := clock + 1;
      if status & UART_DREG_MT != 0 {
        return false;
      }
      return true;
    }

    /** One of putchar's counting waits: `for (count = 0; busy; count++)
        if (count > UART_TX_TOUT) return false;`. */
    method WaitGate(g: Gate) returns (ok: bool)
      modifies this`clock
      ensures var w := Wait(line, g, old(clock), 0); ok == w.ok && clock == w.clock
    {
      ghost var t0 := clock;
      var count: nat := 0;
      var busy := Busy(line, g, clock);
      clock := clock + 1;
      while busy
        invariant count <= UART_TX_TOUT + 1 && t0 < clock
        invariant Wait(line, g, t0, 0) == Wait(line, g, clock - 1, count)
        invariant busy == Busy(line, g, clock - 1)
        decreases UART_TX_TOUT + 1 - count
      {
        if count > UART_TX_TOUT {
          assert Wait(line, g, clock - 1, count) == WaitEnd(false, clock);
          return false;
        }
        assert Wait(line, g, clock - 1, count) == Wait(line, g, clock, count + 1);
        count := count + 1;
        busy := Busy(line, g, clock);
        clock := clock + 1;
      }
      assert Wait(line, g, clock - 1, count) == WaitEnd(true, clock);
      return true;
    }

    /** putchar: wait for CTS low (if used), then for the data register to be
        empty; then write `ch`. */
    method Putchar(ch: char) returns (ok: bool)
      requires Valid()
      modifies this
      ensures var w := put(old(clock)); ok == w.ok && clock == w.clock
      ensures sent == old(sent) + (if ok then [ch] else [])
    {
      assert put(clock) == PutcharWait(line, ctsMask, clock);
      if ctsMask != 0 {
        ok := WaitGate(CtsHigh(ctsMask));
        if !ok {
          return false;
        }
      }
      ok := WaitGate(BufferFull);
      if !ok {
        return false;
      }
      sent := sent + [ch];
    }

    /** puts: putchar each character up to the terminating NUL. */
    method Puts(s: seq<char>)
      requires Valid()
      requires '\0' in s
      modifies this
      ensures var e := old(Sending(CString(s))); sent == old(sent) + e.chars && clock == e.clock
    {
      ghost var goal := Sending(CString(s));
      var i := 0;
      while s[i] != '\0'
        invariant 0 <= i < |s| && '\0' in s[i..]
        invariant old(sent) + goal.chars == sent + Sending(CString(s[i..])).chars
        invariant goal.clock == Sending(CString(s[i..])).clock
        decreases |s| - i
      {
        assert s[i..] == [s[i]] + s[i + 1..];
        PutNext(s[i], CString(s[i + 1..]), goal, old(sent));
        i := i + 1;
      }
    }

    /** getch_timeout: poll for RX complete up to `retries` times. */
    method GetchTimeout(retries: nat) returns (c: bv8)
      requires retries <= 0xFFFF
      modifies this`clock
      ensures var r := Getch(line, old(clock), retries); c == r.value && clock == r.clock
    {
      ghost var goal := Getch(line, clock, retries);
      var timeout: nat := 0;
      while timeout < retries
        invariant timeout <= retries
        invariant goal == Getch(line, clock, retries - timeout)
        decreases retries - timeout
      {
        var status := line.status(clock);
        clock := clock + 1;
        if status & UART_RX_CPT != 0 {
          return line.data(clock);
        }
        timeout := timeout + 1;
      }
      return NO_CHAR;
    }

    /** write(bool). */
    method WriteBool(value: bool)
      requires Valid()
      modifies this
      ensures var e := old(Sending([BoolChar(value)])); sent == old(sent) + e.chars && clock == e.clock
    {
      EmitCons(put, clock, BoolChar(value), []);
      if value {
        var _ := Putchar('T');
      } else {
        var _ := Putchar('F');
      }
    }

    /** One step of a writer's loop: the first of the characters still to go
        goes out through putchar. */
    method PutNext(c: char, rest: seq<char>, ghost goal: Sent, ghost start: seq<char>)
      requires Valid()
      requires start + goal.chars == sent + Sending([c] + rest).chars
      requires goal.clock == Sending([c] + rest).clock
      modifies this
      ensures start + goal.chars == sent + Sending(rest).chars
      ensures goal.clock == Sending(rest).clock
    {
      EmitCons(put, clock, c, rest);
      ghost var before := sent;
      var _ := Putchar(c);
      assert before + (sent[|before|..] + Sending(rest).chars) == sent + Sending(rest).chars;
    }

    /** write_bin(unsigned char). */
    method WriteBin8(num: bv8)
      requires Valid()
      modifies this
      ensures var e := old(Sending(BinaryText8(num))); sent == old(sent) + e.chars && clock == e.clock
    {
      ghost var goal := Sending(BinaryText8(num));
      assert BinaryText8(num) == BitsFrom8(num, 0x80);
      var bmask: bv8 := 0x80;
      while bmask != 0
        invariant old(sent) + goal.chars == sent + Sending(BitsFrom8(num, bmask)).chars
        invariant goal.clock == Sending(BitsFrom8(num, bmask)).clock
        decreases bmask
      {
        if num & bmask != 0 {
          PutNext('1', BitsFrom8(num, bmask >> 1), goal, old(sent));
        } else {
          PutNext('0', BitsFrom8(num, bmask >> 1), goal, old(sent));
        }
        bmask := bmask >> 1;
      }
    }

    /** write_bin(unsigned int). */
    method WriteBin16(num: bv16)
      requires Valid()
      modifies this
      ensures var e := old(Sending(BinaryText16(num))); sent == old(sent) + e.chars && clock == e.clock
    {
      ghost var goal := Sending(BinaryText16(num));
      assert BinaryText16(num) == BitsFrom16(num, 0x8000);
      var bmask: bv16 := 0x8000;
      while bmask != 0
        invariant old(sent) + goal.chars == sent + Sending(BitsFrom16(num, bmask)).chars
        invariant goal.clock == Sending(BitsFrom16(num, bmask)).clock
        decreases bmask
      {
        if num & bmask != 0 {
          PutNext('1', BitsFrom16(num, bmask >> 1), goal, old(sent));
        } else {
          PutNext('0', BitsFrom16(num, bmask >> 1), goal, old(sent));
        }
        bmask := bmask >> 1;
      }
    }

    /** write_hex(unsigned char). */
    method WriteHex8(num: bv8)
      requires Valid()
      modifies this
      ensures var e := old(Sending(HexText8(num))); sent == old(sent) + e.chars && clock == e.clock
    {
      ghost var goal := Sending(HexText8(num));
      var n := num;
      var dcnt: nat := 0;
      while dcnt < 2
        invariant dcnt <= 2
        invariant old(sent) + goal.chars == sent + Sending(HexDigits8(n, 2 - dcnt)).chars
        invariant goal.clock == Sending(HexDigits8(n, 2 - dcnt)).clock
      {
        var digit := (n & 0xF0) >> 4;
        var ch := if digit > 9 then (digit as int + ('A' as int - 10)) as char else (digit as int + '0' as int) as char;
        assert ch == DigitChar(Top8(n));
        PutNext(ch, HexDigits8(n << 4, 2 - dcnt - 1), goal, old(sent));
        n := n << 4;
        dcnt := dcnt + 1;
      }
    }

    /** write_hex(unsigned int). */
    method WriteHex16(num: bv16)
      requires Valid()
      modifies this
      ensures var e := old(Sending(HexText16(num))); sent == old(sent) + e.chars && clock == e.clock
    {
      ghost var goal := Sending(HexText16(num));
      var n := num;
      var dcnt: nat := 0;
      while dcnt < 4
        invariant dcnt <= 4
        invariant old(sent) + goal.chars == sent + Sending(HexDigits16(n, 4 - dcnt)).chars
        invariant goal.clock == Sending(HexDigits16(n, 4 - dcnt)).clock
      {
        var digit := ((n & 0xF000) >> 12) as bv8;
        var ch := if digit > 9 then (digit as int + ('A' as int - 10)) as char else (digit as int + '0' as int) as char;
        assert ch == DigitChar(Top16(n));
        PutNext(ch, HexDigits16(n << 4, 4 - dcnt - 1), goal, old(sent));
        n := n << 4;
        dcnt := dcnt + 1;
      }
    }

    /** write_hex(unsigned long): the upper half, then the lower half. */
    method WriteHex32(num: bv32)
      requires Valid()
      modifies this
      ensures var e := old(Sending(HexText32(num))); sent == old(sent) + e.chars && clock == e.clock
    {
      var half := (num >> 16) as bv16;
      EmitAppend(put, clock, HexText16(half), HexText16((num & 0xFFFF) as bv16));
      WriteHex16(half);
      half := (num & 0xFFFF) as bv16;
      WriteHex16(half);
    }

    /** write_hex(unsigned char) as one step of a longer text. */
    method WriteHex8Then(b: bv8, rest: seq<char>, ghost goal: Sent, ghost start: seq<char>)
      requires Valid()
      requires start + goal.chars == sent + Sending(HexText8(b) + rest).chars
      requires goal.clock == Sending(HexText8(b) + rest).clock
      modifies this
      ensures start + goal.chars == sent + Sending(rest).chars
      ensures goal.clock == Sending(rest).clock
    {
      EmitAppend(put, clock, HexText8(b), rest);
      ghost var before := sent;
      WriteHex8(b);
      assert before + (sent[|before|..] + Sending(rest).chars) == sent + Sending(rest).chars;
    }

    /** write_hex(unsigned long long): the union's bytes from index 7 down,
        with a signed char counter that stops the loop at -1. */
    method WriteHex64(num: bv64)
      requires Valid()
      modifies this
      ensures var e := old(Sending(HexText64(num))); sent == old(sent) + e.chars && clock == e.clock
    {
      ghost var goal := Sending(HexText64(num));
      var bytes := UnionBytes(num);
      var dcnt: int := 7;
      var more := true;
      while more
        invariant -1 <= dcnt <= 7 && (more <==> dcnt >= 0)
        invariant old(sent) + goal.chars == sent + Sending(HexBytes(bytes, dcnt + 1)).chars
        invariant goal.clock == Sending(HexBytes(bytes, dcnt + 1)).clock
        decreases dcnt + 1
      {
        assert HexBytes(bytes, dcnt + 1) == HexText8(bytes[dcnt]) + HexBytes(bytes, dcnt);
        WriteHex8Then(bytes[dcnt], HexBytes(bytes, dcnt), goal, old(sent));
        dcnt := dcnt - 1;
        more := dcnt >= 0;
      }
    }
  }
}
