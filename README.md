# mirasky: time stamps, sensor and actuator tasks, A/D converter and UART driver

This project models the low-level core of the mirasky flight-computer firmware
(C++ for an AVR microcontroller) and proves properties of the model. It covers
five pieces:

- **UsTimer** (`timer.dfy`). The 32-bit microsecond time stamp `time_stamp` is
  held in the union `time_data_32`: one `long`, two `int` halves or four `char`
  quarters. The model gives it set/get, `+=`, `-=`, `==` and `>=`. The
  `task_timer` builds the time from a 16-bit hardware counter and a 16-bit
  overflow count.
- **AvrAdc** (`adc.dfy`). The A/D converter driver over the registers ADMUX,
  ADCSRA, ADCL and ADCH: the constructor, `startConversion`, `convertDone`,
  `getValue` and the polling `read_once`.
- **TaskSensors** (`sensors.dfy`). The sensor task's `run` switch. It starts
  conversions on the shared converter and stores readings into the slots of
  its data table.
- **TaskActuator** (`actuator.dfy`). The INT4 interrupt handler flags a PWM
  edge and records its level. The two-state `run` stamps rising and falling
  edges and computes the pulse width.
- **AvrSerial** (`serial.dfy`). The UART driver:
  - `ready_to_send`
  - `putchar`, with its bounded CTS wait and its bounded wait for an empty data
    register
  - `puts` and `getch_timeout`
  - the text writers `write(bool)`, `write_bin` and `write_hex`

How the model represents the hardware:

- **Registers are fields.** Each class field stands for a register, a global
  or a data member that the source updates in place. The methods update them
  the way the source does: `&=`, `|=`, counting loops and shifting masks.
- **Values that change under the program are parameters.** The UART's CTS
  pin, status register and data register are functions of a *poll clock*:
  `Line.cts`, `Line.status` and `Line.data`. Every read of the CTS port or
  of the status register takes one tick of that clock; the data register is
  read at the tick of the status poll that found RX complete. The ADSC bit the converter loop polls, and the result
  it leaves, are parameters of `AvrAdc.Adc.ReadOnce`.
- **The hardware acts between steps.** `AvrAdc.Adc.HardwareComplete`
  finishes a conversion. `UsTimer.TaskTimer.Tick` counts the hardware
  counter. `TaskActuator.EdgeGlobals.Isr` is the edge interrupt. Each is an
  atomic event that happens between task steps.
- **The output is the sequence of characters written to the data register**
  (`AvrSerial.Uart.sent`).
- **Each writer's text is defined by a function, and the writer method is
  proved to send exactly that text.** `AvrSerial.Emit` says which of those
  characters get through the waits.

Modelling choices where the source is incomplete or does not compile:

- **`time_stamp` bodies.** The header declares `time_stamp` but the bodies are
  not in the repository. The stamp is a 32-bit pattern with arithmetic modulo
  2^32.
- **`>=` is signed.** It compares the `long whole` member, which is signed. It
  therefore orders stamps correctly only below 2^31 counts
  (`UsTimer.LaterOrEqualAcrossSignBit`), although the union's comment
  (stl_us_timer.h:74) speaks of a 32-bit time count. The model follows the
  declared type.
- **The direction of `>=`.** Its header comment says it "tests if a time stamp
  is greater (later) than this", which could be read either way. The model
  reads `a >= b` as "this stamp `a` is at least the other stamp `b`"
  (`UsTimer.TimeStamp.AtLeast`).
- **`task_timer::set_time` returns true.** Its body is not in the repository,
  so the model sets both counters from the stamp and returns true.
- **The AVR is little-endian.** `half[0]` is therefore the hardware count and
  `quarters[0]` the least significant byte.
- **Sensor channels.** The channel constants in `task_sensors.cc` have empty
  initialisers, so the assignment is a parameter (`TaskSensors.ChannelMap`),
  each channel in 0..7.
- **`dataArray`** is declared as a scalar but indexed like an array. The model
  makes it a map from slot to reading.
- **One six-DOF state.** The case label `SIX_DOF_1` and the returned
  `SIXDOF_1` are taken to name one state, `SixDof1`.
- **task_actuator typos.** The state macros `#define X = 0` and the
  lower-case flag names are read as the evident two states and the two
  globals `pinStatus` and `pinStatusFlag`.
- **The timer the actuator task reads.** `timer.get_time_now()` is read as the
  current value of the task timer.
- **The sensor task's converter.** The constructor (task_sensors.cc:65-73)
  takes `avr_adc p_` by value and never assigns `p_adc`, and it never
  initialises `dataArray`. The model's task holds the converter it is given
  and starts from an empty table.
- **`timeUP`** is declared nowhere, so it is a parameter of
  `TaskSensors.SensorTask.Run`.
- **Syntax slips in task_sensors.cc.** Lines 106, 117 and 141 end
  `return (...)` with `:` instead of `;`, and line 161 has no `;`. They are
  read as the evident returns.
- **`fallingedge_time - risingedge_time`** (task_actuator.cc:96) uses a
  binary `-` that `time_stamp` does not declare. It is read as the modular
  difference that `-=` computes.
- **`get_time(&pwm_width_value)`** (task_actuator.cc:97) passes a pointer
  where `get_time` takes a `long&`. It is read as storing the width's `long`
  into `pwm_width_value`.
- **task_actuator's `run` switch has no `default`.** The model's state type
  has only the two states, so no other state code can reach it.

Source behaviour kept exactly as written:

- **`convertDone`** returns true while ADSC is still set, that is, while the
  conversion is still running. In the sensor task every check comes straight
  after `startConversion` has set ADSC, so every check reports "done". The
  six-DOF state is then absorbing: `TaskSensors.SixDofAbsorbs` and
  `TaskSensors.StuckAfterLinearActuators`.
- **`getValue`** joins the result registers as `ADCH * 0xFF + ADCL`. The
  multiplier is 255, not 256, so different register pairs give the same
  reading (`AvrAdc.CombineCollides`).
- **`ready_to_send`** reports "not ready" when `UART_DREG_MT` is set.
  `putchar` instead waits for that bit to be set before it writes. With CTS
  clear, the two therefore disagree on every poll
  (`AvrSerial.ReadyDisagreesWithPutchar`).

The sensor task's `run` also does less than its declarations suggest.
task_sensors.h declares a `long timeArray` beside the data table, but `run`
stores no time stamp with a reading. A check that is not done does not put
the task into a waiting state either, and there is no timeout value for a
conversion that never finishes: LINACT_1 reports no transition, LINACT_2
moves on, and the six-DOF state goes to SIXDOF_2. The model follows the code.

## Model

| member | source | states |
|---|---|---|
| UsTimer.MicrosFor | stl_us_timer.h:36-70 | a count lasts at least one microsecond, and exactly one with the 8 MHz crystal |
| UsTimer.CountLength | stl_us_timer.h:30-70 | with SUT_CLOCK_8MHZ defined one count is 1 µs; a 4 MHz crystal would make it 2 µs |
| UsTimer.WrapAfterAboutAnHour | stl_us_timer.h:145-149 | the 32-bit count wraps after more than one and less than two hours |
| UsTimer.TimeData32.Whole | stl_us_timer.h:81-86 | the `long` view is non-negative exactly below 2^31 and is congruent to the bit pattern modulo 2^32 |
| UsTimer.FromWhole | stl_us_timer.h:112-113 | storing a `long` into the union and reading the `long` back gives it unchanged |
| UsTimer.FromHalves | stl_us_timer.h:90-96 | the cell built from the hardware count and the overflow count has them as half[0] and half[1] |
| UsTimer.HalvesDetermine | stl_us_timer.h:74-86 | every cell is the overflow count times 2^16 plus the hardware count, and is rebuilt from its halves |
| UsTimer.QuartersMakeHalves | stl_us_timer.h:81-86 | the byte view agrees with the half view in little-endian order |
| UsTimer.Sum | stl_us_timer.h:121-122 | `+=` is the sum, less 2^32 when it overflows |
| UsTimer.Difference | stl_us_timer.h:124-125 | `-=` is the difference, plus 2^32 when it is negative |
| UsTimer.SumDifferenceInverse | stl_us_timer.h:121-125 | subtracting what was added restores the stamp, and adding what was subtracted restores it too |
| UsTimer.ElapsedAcrossWrap | stl_us_timer.h:146-149 | `later -= earlier` is the true number of counts whenever it is below 2^32, across any wrap |
| UsTimer.ElapsedExample | stl_us_timer.h:124-125 | 0x10 minus 0xFFFFFFF0 is 32 |
| UsTimer.Equal | stl_us_timer.h:127-128 | `==` compares both halves, which holds exactly when the two cells are equal |
| UsTimer.EqualIffSameValue | stl_us_timer.h:127-128 | `==` (both halves equal) holds exactly when the cells, and their `long` values, are equal |
| UsTimer.LaterOrEqual | stl_us_timer.h:130-131 | on the 32-bit counts, `a >= b` holds when both lie on the same side of 2^31 and a is at least b, or a lies below 2^31 and b at or above it |
| UsTimer.LaterOrEqualIsTotalOrder | stl_us_timer.h:130-131 | `>=` is reflexive, total, antisymmetric and transitive |
| UsTimer.LaterOrEqualBeforeSignBit | stl_us_timer.h:130-131 | below 2^31, `>=` is the unsigned order on counts |
| UsTimer.LaterOrEqualAcrossSignBit | stl_us_timer.h:83 | the signed `>=` calls the stamp at 2^31 earlier than the one at 2^31 - 1 |
| UsTimer.TimeStamp.constructor | stl_us_timer.h:103-104 | the empty stamp is zero |
| UsTimer.TimeStamp.FromLong | stl_us_timer.h:106-107 | the stamp made from a `long` holds that `long` |
| UsTimer.TimeStamp.SetTime | stl_us_timer.h:112-113 | set_time stores the `long` into the union |
| UsTimer.TimeStamp.GetTime | stl_us_timer.h:118-119 | get_time reads out the `long`, from which the stamp is rebuilt |
| UsTimer.TimeStamp.Add | stl_us_timer.h:121-122 | `+=` replaces the stamp by the modular sum |
| UsTimer.TimeStamp.Subtract | stl_us_timer.h:124-125 | `-=` replaces the stamp by the modular difference |
| UsTimer.TimeStamp.Equals | stl_us_timer.h:127-128 | `==` on two stamps holds exactly when they hold the same time |
| UsTimer.TimeStamp.AtLeast | stl_us_timer.h:130-131 | `this >= other` compares the `long` members, and below 2^31 it is the unsigned order on the counts |
| UsTimer.SetThenGet | stl_us_timer.h:112-119 | set_time(v) then get_time yields v |
| UsTimer.AddThenSubtract | stl_us_timer.h:121-125 | (t += d) -= d leaves t unchanged |
| UsTimer.TaskTimer.constructor | stl_us_timer.h:157-158 | a new timer has both counts at zero and an empty stamp |
| UsTimer.TaskTimer.Now | stl_us_timer.h:90-96 | the current time has the hardware count as half[0] and the overflow count as half[1] |
| UsTimer.TaskTimer.Tick | stl_us_timer.h:90-96 | one hardware count, with the overflow count stepping when the counter wraps, advances the joined time by one modulo 2^32 |
| UsTimer.TaskTimer.SaveTimeStamp | stl_us_timer.h:159-160 | save_time_stamp copies the current time into the given stamp |
| UsTimer.TaskTimer.GetTimeNow | stl_us_timer.h:161-162 | get_time_now refreshes now_time from the counters and hands it out |
| UsTimer.TaskTimer.SetTime | stl_us_timer.h:163-165 | set_time makes the counters, and now_time, show the given stamp, and reports success |
| UsTimer.TickMany | stl_us_timer.h:145-149 | n counts move the time on by n modulo 2^32 |
| AvrAdc.SelectChannel | avr_adc.cc:46-47 | channel selection keeps the upper five ADMUX bits and takes the low three from the channel |
| AvrAdc.ChannelModEight | avr_adc.cc:70 | the low three bits of the selected ADMUX are the channel number modulo 8 |
| AvrAdc.SelectChannelBits | avr_adc.cc:69-70 | bit by bit: bits 0-2 come from the channel, bits 3-7 from the old ADMUX |
| AvrAdc.WithStart | avr_adc.cc:73 | starting sets ADSC and leaves every other ADCSRA bit unchanged |
| AvrAdc.Combine | avr_adc.cc:95-98 | the joined reading is at most 255*255+255 and below the 0xFFFF sentinel |
| AvrAdc.CombineCollides | avr_adc.cc:98 | the multiplier 255 makes (1, 0) and (0, 255) read the same |
| AvrAdc.ReadingIsNeverSentinel | avr_adc.cc:56-61 | no register pair joins to 0xFFFF; the largest reading is 65280 |
| AvrAdc.Adc.constructor | avr_adc.cc:28-32 | ADMUX is 0, ADCSRA is ADEN with prescaler 4, no conversion running |
| AvrAdc.Adc.StartConversion | avr_adc.cc:65-75 | startConversion selects the channel, sets ADSC, touches nothing else and returns true |
| AvrAdc.Adc.ConvertDone | avr_adc.cc:79-88 | convertDone is true exactly while ADSC is set |
| AvrAdc.Adc.GetValue | avr_adc.cc:91-98 | getValue reads ADCL, then ADCH, and returns ADCH*0xFF+ADCL |
| AvrAdc.Adc.HardwareComplete | avr_adc.cc:52 | a finished conversion clears ADSC and leaves the result in ADCH:ADCL |
| AvrAdc.Adc.ReadOnce | avr_adc.cc:41-61 | read_once selects and starts; if ADSC is still set once the counter passes ADC_RETRIES it returns 0xFFFF without reading, otherwise it reads ADCL then ADCH and returns their join |
| AvrAdc.Adc.PollAndRead | avr_adc.cc:52-61 | the polling loop times out exactly when ADSC stays set through ADC_RETRIES + 2 polls |
| AvrAdc.DoneRightAfterStart | avr_adc.cc:65-88 | convertDone straight after startConversion always reports true |
| AvrAdc.NotDoneAfterCompletion | avr_adc.cc:79-88 | once the hardware has finished, convertDone reports false |
| TaskSensors.StoreSlots | task_sensors.cc:104-139 | storing writes exactly the listed slots and leaves every other slot as it was |
| TaskSensors.SelectAll | task_sensors.cc:125-136 | after several startConversion calls the channel bits are the last channel's and the upper bits are unchanged |
| TaskSensors.ReadsOf | avr_adc.cc:95-96 | n getValue calls read ADCL and ADCH alternately, low first |
| TaskSensors.Next | task_sensors.cc:84-182 | run's switch: no transition exactly for WAIT without the timer and LINACT_1 not done; no state returns to INIT; only an unknown state goes to ALL_ON |
| TaskSensors.InitAndWait | task_sensors.cc:89-98 | INIT always goes to WAIT; WAIT goes to LINACT_1 exactly when timeUP, else no transition; neither touches converter or table |
| TaskSensors.LinAct1Step | task_sensors.cc:100-109 | LINACT_1 always starts linAct_1; it stores into Actuator1 and goes to LINACT_2 exactly when done, otherwise no transition and no write |
| TaskSensors.LinAct2Step | task_sensors.cc:111-121 | LINACT_2 goes to SIXDOF_1 either way and writes Actuator2 only when done |
| TaskSensors.SixDofStep | task_sensors.cc:125-149 | the six-DOF state stays only when all three checks are done, otherwise goes to SIXDOF_2; the third value lands in Actuator2 |
| TaskSensors.TailChain | task_sensors.cc:152-170 | SIXDOF_2 → PITOT → STATICM → LOADCELL_1 → LOADCELL_2 → WAIT, unconditionally and with no converter or table access |
| TaskSensors.UnknownGoesToAllOn | task_sensors.cc:173-177 | an unknown state goes to ALL_ON and changes nothing |
| TaskSensors.SixDofAbsorbs | task_sensors.cc:125-149 | with every check done, the six-DOF state is never left |
| TaskSensors.StuckAfterLinearActuators | task_sensors.cc:100-149 | from LINACT_1, two passes with every check done reach the six-DOF state for good |
| TaskSensors.TailReturnsToWait | task_sensors.cc:152-170 | from SIXDOF_2 five passes return to WAIT, whatever the timer says and whatever the checks report |
| TaskSensors.SixDofEffects | task_sensors.cc:125-149 | with all checks done the six-DOF state selects A1, A2, A3 in turn, writes DOF_A1, DOF_A2, Actuator2 and reads the result registers three times |
| TaskSensors.SingleEffects | task_sensors.cc:100-121 | a linear-actuator state selects its one channel, writes its one slot and reads the result registers once |
| TaskSensors.SensorTask.constructor | task_sensors.cc:65-73 | a new task holds its converter and an empty table |
| TaskSensors.SensorTask.Sample | task_sensors.cc:100-109 | start, check and read: the check reports done and the reading goes into the slot |
| TaskSensors.SensorTask.SampleSixDof | task_sensors.cc:125-149 | the three nested samples of the six-DOF state and their effect on ADMUX, the table and the reads |
| TaskSensors.SensorTask.Run | task_sensors.cc:84-182 | run returns the switch's state for all-done checks, writes exactly its slots, selects exactly its channels and reads the registers once per write |
| TaskActuator.IsrStep | task_actuator.cc:42-57 | the handler always flags an edge, records high exactly when PINE bit 4 is set, and leaves the stamps alone |
| TaskActuator.IsrOverwrites | task_actuator.cc:42-57 | a second edge before run consumes the first overwrites it |
| TaskActuator.RunStep | task_actuator.cc:84-110 | run alternates between the two states, never changes the recorded level, never raises the edge flag and never lowers the delay counter |
| TaskActuator.ConsumeRisingEdge | task_actuator.cc:88-93 | a pending rising edge: its time is taken, the flag cleared, nothing else changes |
| TaskActuator.ConsumeFallingEdge | task_actuator.cc:94-102 | a pending falling edge: its time is taken, the width is falling minus rising modulo 2^32, the position is zeroed and both flags are cleared |
| TaskActuator.UpdateWithoutEdgeIsIdle | task_actuator.cc:87-89 | without the update flag or a pending edge the update state changes nothing |
| TaskActuator.DelayCounts | task_actuator.cc:106-110 | the delay state counts every visit, never resets, and sets the update flag once the count before the visit exceeds 1000 |
| TaskActuator.PulseWidthIsElapsed | task_actuator.cc:94-97 | a falling edge d counts after the rising one (d < 2^31) gives width d even across a counter wrap |
| TaskActuator.PulseScenario | task_actuator.cc:42-110 | rising at 100 and falling at 135 leave width 35, which survives a later rising edge |
| TaskActuator.EdgeGlobals.constructor | task_actuator.cc:34-40 | both flags false and the three stamps empty at start-up |
| TaskActuator.EdgeGlobals.Isr | task_actuator.cc:42-57 | the handler's effect on the globals is IsrStep |
| TaskActuator.ActuatorTask.constructor | task_actuator.cc:64-76 | the constructor zeroes pwm_width_value, stickupdate_dummy and stick_position |
| TaskActuator.ActuatorTask.Run | task_actuator.cc:84-110 | one run call updates the globals, the fields and the next state as RunStep does, with now = the task timer's time; the timer's now_time is refreshed to that time exactly on the two edge-consuming paths and is unchanged otherwise |
| AvrSerial.Wait | avr_serial.cc:105-117 | one counting wait: poll, stop if the gate is open, fail once the counter has passed UART_TX_TOUT; its bounds are stated by WaitSpec |
| AvrSerial.WaitSpec | avr_serial.cc:105-117 | a counting wait ends after the first open poll, or fails after exactly UART_TX_TOUT + 2 closed polls |
| AvrSerial.WaitEnds | avr_serial.cc:105-117 | a wait takes at least one poll and succeeds exactly when its last poll found the gate open |
| AvrSerial.WaitTimesOut | avr_serial.h:242 | a gate closed for UART_TX_TOUT + 2 = 20002 polls makes the wait fail right after them |
| AvrSerial.PutcharWait | avr_serial.cc:99-123 | putchar's CTS wait (only with a mask) then its data-register wait take at least one and at most 2 * (UART_TX_TOUT + 2) polls, at most UART_TX_TOUT + 2 without CTS |
| AvrSerial.PutcharSends | avr_serial.cc:99-123 | CTS low (or unused) and an empty data register: putchar writes after one poll of each |
| AvrSerial.PutcharCtsTimeout | avr_serial.cc:103-110 | CTS high through UART_TX_TOUT + 2 polls: putchar returns false without writing |
| AvrSerial.PutcharBufferTimeout | avr_serial.cc:112-117 | a data register that never empties: putchar returns false, whatever CTS does |
| AvrSerial.PutcharOkMeansReady | avr_serial.cc:99-123 | putchar takes at least one poll; when it returns true its last poll found the register empty and, with CTS in use, an earlier poll found CTS low |
| AvrSerial.PutcharCtsClear | avr_serial.cc:103-117 | with CTS clear at once, putchar goes straight to the data register wait |
| AvrSerial.Ready | avr_serial.cc:72-83 | ready_to_send takes one or two polls; it is false when CTS is in use and high, and otherwise true exactly when the status poll finds UART_DREG_MT clear |
| AvrSerial.ReadyDisagreesWithPutchar | avr_serial.cc:72-117 | with CTS clear, ready_to_send says ready exactly when putchar could not write at once |
| AvrSerial.Emit | avr_serial.cc:132-135 | a sequence of putchar calls writes no more characters than it was given |
| AvrSerial.EmitCons | avr_serial.cc:134 | the first putchar of a sequence is split off |
| AvrSerial.EmitAppend | avr_serial.cc:384-389 | sending a then b is sending a + b |
| AvrSerial.EmitDeliversAll | avr_serial.cc:99-135 | when every putchar succeeds after k polls, every character is written, in order, k polls apart |
| AvrSerial.ClearLineDeliversAll | avr_serial.cc:99-135 | on a line with CTS always low and the register always empty, every character is written |
| AvrSerial.CString | avr_serial.cc:132-135 | the characters before the NUL contain no NUL and are no more than the string |
| AvrSerial.CStringPrefix | avr_serial.cc:134 | in a NUL-terminated string they are exactly the prefix up to the first NUL |
| AvrSerial.Getch | avr_serial.cc:166-174 | getch_timeout takes at most `retries` status polls |
| AvrSerial.GetchNothing | avr_serial.cc:166-174 | with no RX complete in `retries` polls it returns 0xFF after exactly `retries` polls, so at once for 0 |
| AvrSerial.GetchFirst | avr_serial.cc:166-174 | the first poll that sees RX complete decides: the data register is returned right after it |
| AvrSerial.BoolChar | avr_serial.cc:198-204 | write(bool) emits 'T' exactly for true and 'F' otherwise |
| AvrSerial.BitsFrom8 | avr_serial.cc:217-221 | the mask loop emits only binary digits |
| AvrSerial.BinaryText8 | avr_serial.cc:213-222 | write_bin(unsigned char) emits eight characters |
| AvrSerial.BinaryText16 | avr_serial.cc:283-292 | write_bin(unsigned int) emits sixteen characters |
| AvrSerial.MsbBits8 | avr_serial.cc:213-222 | reference: n digits, digit i is bit n-1-i |
| AvrSerial.MsbFirst8_8 | avr_serial.cc:217-221 | the 8-bit mask loop emits the reference digits |
| AvrSerial.MsbFirst16_16 | avr_serial.cc:286-290 | the 16-bit mask loop emits the reference digits |
| AvrSerial.BinaryBits8 | avr_serial.cc:213-222 | write_bin(unsigned char) emits 8 binary digits, digit i is '1' exactly when bit 7-i is set |
| AvrSerial.BinaryBits16 | avr_serial.cc:283-292 | write_bin(unsigned int) emits 16 binary digits, digit i is '1' exactly when bit 15-i is set |
| AvrSerial.DigitChar | avr_serial.cc:239-242 | each computed digit is one of 0-9 A-F |
| AvrSerial.DigitRoundTrip | avr_serial.cc:239-242 | reading a computed digit back gives its value |
| AvrSerial.HexDigits8 | avr_serial.cc:236-245 | the shifting loop emits k hexadecimal digits |
| AvrSerial.HexDigits16 | avr_serial.cc:305-315 | the shifting loop emits k hexadecimal digits |
| AvrSerial.HexText8 | avr_serial.cc:231-246 | write_hex(unsigned char) emits two hexadecimal digits |
| AvrSerial.HexText16 | avr_serial.cc:301-316 | write_hex(unsigned int) emits four hexadecimal digits |
| AvrSerial.HexText32 | avr_serial.cc:382-390 | write_hex(unsigned long) emits eight hexadecimal digits |
| AvrSerial.HexText64 | avr_serial.cc:399-412 | write_hex(unsigned long long) emits sixteen characters |
| AvrSerial.HexRoundTrip8 | avr_serial.cc:231-246 | write_hex(unsigned char) emits two digits, high nibble first, that read back as num |
| AvrSerial.HexRoundTrip16 | avr_serial.cc:301-316 | write_hex(unsigned int) emits four digits, most significant nibble first, that read back as num |
| AvrSerial.HexRoundTrip32 | avr_serial.cc:382-390 | write_hex(unsigned long) emits the four digits of the upper half, then of the lower half, that read back as num |
| AvrSerial.HexRoundTrip64 | avr_serial.cc:399-412 | write_hex(unsigned long long) emits sixteen digits, two per byte from byte 7 down to byte 0, that read back as num |
| AvrSerial.UnionBytes | avr_serial.cc:401-406 | the union's eight bytes, least significant first |
| AvrSerial.HexBytes | avr_serial.cc:408-411 | the do-while over the bytes emits two digits per byte |
| AvrSerial.HexBytesOrder | avr_serial.cc:408-411 | the digits of byte n-1-j sit at positions 2j and 2j+1 |
| AvrSerial.Uart.constructor | avr_serial.cc:40-42 | the port keeps its CTS mask, has sent nothing yet and starts its poll clock at zero |
| AvrSerial.Uart.ReadyToSend | avr_serial.cc:72-83 | ready_to_send polls CTS (if used) and the status register and answers as Ready |
| AvrSerial.Uart.WaitGate | avr_serial.cc:105-117 | a counting wait loop ends as Wait says |
| AvrSerial.Uart.Putchar | avr_serial.cc:99-123 | putchar returns the waits' outcome and, exactly when it returns true, writes chout and nothing else |
| AvrSerial.Uart.Puts | avr_serial.cc:132-135 | puts sends the characters before the NUL, in order, through putchar |
| AvrSerial.Uart.GetchTimeout | avr_serial.cc:166-174 | getch_timeout returns and polls as Getch |
| AvrSerial.Uart.WriteBool | avr_serial.cc:198-204 | write(bool) sends BoolChar(value) |
| AvrSerial.Uart.WriteBin8 | avr_serial.cc:213-222 | write_bin(unsigned char) sends BinaryText8(num) |
| AvrSerial.Uart.WriteBin16 | avr_serial.cc:283-292 | write_bin(unsigned int) sends BinaryText16(num) |
| AvrSerial.Uart.WriteHex8 | avr_serial.cc:231-246 | write_hex(unsigned char) sends HexText8(num) |
| AvrSerial.Uart.WriteHex16 | avr_serial.cc:301-316 | write_hex(unsigned int) sends HexText16(num) |
| AvrSerial.Uart.WriteHex32 | avr_serial.cc:382-390 | write_hex(unsigned long) sends HexText32(num) |
| AvrSerial.Uart.WriteHex64 | avr_serial.cc:399-412 | write_hex(unsigned long long) sends HexText64(num) |

## Left out

- mirasky.cc is not part of this model. It is bootstrap and wiring, and the
  scheduler it calls lives in a header that is not in the repository.
- avr_9xtend.cc and avr_9xtend.h are not part of this model. They are
  radio-modem setup and pure device I/O.
- sensor_control.h and task_sensors.h are not part of this model beyond the
  field names they declare. They are stale duplicate declarations.
- avr_serial.h is not part of this model beyond UART_TX_TOUT and the class
  shape. The rest is per-device register-name macros.
- The decimal `write` overloads (avr_serial.cc:255-372) are left out. They
  delegate to `utoa`, `itoa`, `ltoa` and `ultoa`, whose bodies are not
  available.
- `getchar` is left out because it is an unbounded busy-wait.
- `check_for_char` is left out because it is one register test with no
  contract beyond it.
- The constructors' hardware setup is left out: UART mode, baud rate,
  interrupt enables, EICRB and EIMSK. The same goes for the debug messages
  (`STL_DEBUG_*`, `*debug_port <<`, each constructor's greeting) and the
  unimplemented `print*` methods and duty-cycle conversion.
- The time_stamp(int, long) constructor, set_time(int, long) and to_string
  are left out. Their bodies are not in the repository and the
  seconds-and-microseconds encoding is not documented.
- True interrupt preemption, `sei()`, and tearing of multi-byte shared values
  are left out. The edge interrupt, the counter overflow and a finishing
  conversion are atomic events between steps.
- UsTimer.TaskTimer.Tick: the hardware counter's own clocking is not
  modelled. Only its effect, one count, is.
- TaskSensors.SensorTask.Run: every convertDone is proved to report true, so
  the not-done paths of the six-DOF state and LINACT_1 are read only through
  the switch lemmas over `Next`. The `int` width of dataArray's values is not
  modelled; a reading is a natural number below 65536.
- TaskSensors.SensorTask.constructor: the source never stores its converter
  argument in `p_adc` and never initialises `dataArray`, so as written `run`
  would use an unset pointer and an unset table. The model gives the task the
  converter it is passed and an empty table; it does not model the unset
  values.
- TaskActuator.ActuatorTask.constructor: it promises nothing about
  time_to_update_stick_position_value, which the source never initialises.
  `stickupdate_dummy` is an unbounded counter because its declared type is
  not in the repository.
- AvrSerial.Uart.WriteHex64 assumes `char` is signed, as on avr-gcc. With an
  unsigned `char` the source's loop would never end.
- AvrSerial.Uart.GetchTimeout requires retries <= 0xFFFF, the range of the
  AVR's 16-bit `unsigned int` parameter.
- AvrSerial.Uart.Putchar: a write to UART_DATA is modelled as appending the
  character to `sent`. The line's CTS, status and data registers are
  functions of the poll clock rather than live hardware.
