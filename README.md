# A bit-banged SMBus master for a Smart Battery, in Dafny

Two small C programs for a Raspberry Pi talk to a Smart Battery over two GPIO
pins used as an open-drain SMBus (clock and data), at device address 0x0B:
write address 0x16, read address 0x17. Both carry the same engine: `go_z`,
`go_0` and `read_pin` on a pin, and on top of them `startbus`, `send8`,
`sendrptstart`, `read16` and `stopbus`. A register read is an SMBus Read
Word: start, 0x16, the command code, repeated start, 0x17, two data bytes
(low byte first, each most significant bit first), then stop. A nack of any
byte the master sends sets the global `error` flag.

- `read_battery` reads BatteryStatus. If the value is not 0xFFFF it goes on to
  print voltage, current, temperature, relative state of charge, and the
  average times to empty and to full. It then prints the status flags by
  name. Otherwise it prints "The battery did not respond". Each register is
  read a second time when the first value is implausible or a byte was
  nacked, and the second value is then taken whatever it is.
- `monitor_battery` polls once a minute. It reads BatteryStatus and, if the
  discharging bit (0x0040) is set, the relative state of charge. It then
  shuts the Pi down (5% or less), blinks the display (7% or less), or lights
  a warning LED (10% or less), or it puts the LED out when the charger is
  connected. `led_on` is the only state carried between polls.

The model:

- `lines.dfy` (`Lines`): the two lines and what the master does to them. A
  line is either released (`Floating`) or pulled `Low`; nothing can drive
  it high. A `Log` records every step. `Run` gives the line settings a log
  leads to, and `Observed` gives what a receiver on the bus sees: clock
  edges with the data level, the master's samples, start and stop
  conditions.
- `bits.dfy` (`Bits`): bit order as arithmetic on naturals. It provides
  `send8`'s MSB-first bits, the receiver's shift register, the sixteen ORs
  of `read16`, and the round trips between them.
- `engine.dfy` (`Engine`): one function per engine routine, extending the
  log, with lemmas that give exactly what each routine shows on the bus.
  The battery is a function from the index of a sample to the level the
  master reads. The class `Bus` holds the line settings, the battery, the
  count of samples taken and `error`; its methods are the engine's
  routines, proved to produce those logs.
- `registers.dfy` (`Registers`): command codes, conversions and
  plausibility checks. `Read` specifies one register read with its retry;
  `ReadRegister` runs it on a `Bus`.
- `reporter.dfy` (`Reporter`): `read_battery`'s `main` as the report
  `ReportOf(battery)` and the method `Dump` that produces it.
- `monitor.dfy` (`Monitor`): `monitor_battery`'s threshold chain `Decide`,
  one poll `CycleOf`, a run of polls `Poll`, and the class `Monitor` whose
  `PollOnce` and `Run` carry `led_on` across polls.

The engine in `monitor_battery.c` (lines 33-416) is the same as the one in
`read_battery.c` (lines 29-412), so the engine rows below cite
`read_battery.c` only.

One behaviour follows the code rather than what one might expect from the
monitor's description:

- An unresponsive battery reads BatteryStatus as 0xFFFF, and 0xFFFF has
  the discharging bit set. So the monitor does not treat an absent battery
  as "not discharging". It goes on to read the state of charge, which also
  reads 0xFFFF, and then issues nothing (`Monitor.DeadBattery`).

## Model

| member | source | states |
|---|---|---|
| Bits.MsbBits | read_battery.c:64-177 | the i-th bit `send8` puts on the wire is bit 7 - i of the byte (mask 0x80 first) |
| Bits.BitSet | read_battery.c:67-165 | `(sendbits & mask) == mask` for the i-th mask from 0x80 down to 0x01: bit 7 - i of the byte; stated by `Bits.MsbBits` |
| Bits.ByteRoundTrip | read_battery.c:64-177 | a receiver shifting in the eight bits in wire order recovers the byte sent |
| Bits.ByteOfPrefix | read_battery.c:64-177 | after k bits the receiver holds the top k bits of the byte (`b >> (8 - k)`) |
| Bits.WordRoundTrip | read_battery.c:206-403 | the word made of the two received bytes, low first, is the word presented |
| Bits.SetBit | read_battery.c:213-216 | `readval` ORed with a mask has the mask's bit set |
| Bits.ReadBitIndex | read_battery.c:213-388 | the bit the i-th OR of `read16` sets: 0x0080 down to 0x0001 for the low byte, then 0x8000 down to 0x0100 |
| Bits.Accumulated | read_battery.c:206-403 | `readval` after k samples: the masks of the high samples ORed in; stated by `Bits.AccumulatedLow`, `Bits.AccumulatedHigh` and `Bits.AccumulatedIsWord` |
| Bits.StillClear | read_battery.c:206-403 | each OR of `read16` lands on a bit that is still clear, so it adds its mask |
| Bits.AccumulatedLow | read_battery.c:209-296 | after k of the first eight samples `readval` is the received prefix times 2^(8-k) |
| Bits.AccumulatedHigh | read_battery.c:306-393 | after k samples (k from 8 to 16), `readval` is the low byte plus the received high prefix times 2^(24-k) |
| Bits.HighStep | read_battery.c:306-393 | one sample of the high byte keeps that relation |
| Bits.OneMoreBit | read_battery.c:306-393 | setting bit n, still clear, below the received high prefix doubles the prefix and adds the bit |
| Bits.AccumulatedIsWord | read_battery.c:206-403 | the sixteen ORs yield low byte + 0x100 * high byte of what was sampled |
| Bits.ByteOfOnes | read_battery.c:40-44 | eight samples of a released line shift in 0xFF |
| Bits.Pow2Table | read_battery.c:612-650 | the masks 0x0010 to 0x8000 are the powers of two of the flag bits |
| Engine.StartLog | read_battery.c:55-62 | `startbus`'s line steps: data low, then clock low; its meaning is stated by `Engine.StartObserved` |
| Engine.BitSlotLog | read_battery.c:66-79 | one data bit of `send8`: data set, clock released, clock low; see `Engine.BitSlotObserved` |
| Engine.SendBitsLog | read_battery.c:64-177 | the first k bit slots of `send8`, mask 0x80 first; see `Engine.SendBitsObserved` |
| Engine.AckCheckLog | read_battery.c:178-191 | the ack clock of `send8`, with the level sampled; see `Engine.AckObserved` |
| Engine.Send8Log | read_battery.c:64-192 | the eight bit slots, then the ack clock; see `Engine.Send8Observed` |
| Engine.RepeatedStartLog | read_battery.c:194-204 | `sendrptstart`'s four line steps; see `Engine.RepeatedStartObserved` |
| Engine.ReadSlotLog | read_battery.c:209-219 | one data bit of `read16`: data released, sampled, clock pulse; see `Engine.ReadSlotObserved` |
| Engine.AnswerLog | read_battery.c:297-305 | the master's ack or nack clock; see `Engine.AnswerObserved` |
| Engine.ReadStepLog | read_battery.c:209-305 | one bit of `read16`, with the ack after the eighth; see `Engine.ReadStepObserved` |
| Engine.ReadBitsLog | read_battery.c:209-393 | the first k bits of `read16`; see `Engine.ReadBitsObserved` |
| Engine.Read16Log | read_battery.c:206-404 | sixteen bits with the ack after the low byte and the nack after the high byte; see `Engine.Read16Observed` |
| Engine.StopLog | read_battery.c:406-412 | `stopbus`: clock released, then data; see `Engine.StopObserved` |
| Engine.CommandLog | read_battery.c:420-422 | start, 0x16, the command code; see `Engine.Bus.SendCommand` |
| Engine.AddressingLog | read_battery.c:420-424 | then repeated start and 0x17; see `Engine.Bus.Address` |
| Engine.TransactionLog | read_battery.c:420-426 | the whole Read Word; see `Engine.TransactionObserved` and `Engine.Bus.ReadWord` |
| Engine.StartObserved | read_battery.c:55-62 | `startbus` from an idle bus shows one start condition and leaves both lines low |
| Engine.BitSlotObserved | read_battery.c:66-79 | one data bit of `send8` gives exactly one clock edge, with data released iff the bit is 1 |
| Engine.SendBitsObserved | read_battery.c:64-177 | the first k bits of `send8` give k clock edges carrying the top k bits, and no start or stop |
| Engine.AckObserved | read_battery.c:178-191 | the ack clock gives one edge with data released and a sample while the clock is released, then both lines low |
| Engine.Send8Observed | read_battery.c:64-192 | `send8` shows the eight bit edges, the ack edge and its sample, and leaves both lines low |
| Engine.ByteEdgesLatched | read_battery.c:64-177 | a receiver latching data on `send8`'s bit edges gets the byte MSB first |
| Engine.NoSamples | read_battery.c:64-177 | clock edges alone make no sample |
| Engine.Send8Received | read_battery.c:64-192 | a battery on the bus receives exactly the byte sent, then the released ack bit; the master samples once, in the ack clock |
| Engine.RepeatedStartObserved | read_battery.c:194-204 | `sendrptstart` shows a clock edge with data released, then a start condition, and leaves both lines low |
| Engine.SampleObserved | read_battery.c:209-213 | releasing data and sampling it with the clock low shows one sample and leaves data released |
| Engine.ReadSlotObserved | read_battery.c:209-219 | one data bit of `read16` shows a sample taken with the clock low, then a clock edge with data released |
| Engine.AnswerObserved | read_battery.c:297-305 | the master's ack (and at 394-402 its nack) is one clock edge with no sample: data low for the ack, released for the nack |
| Engine.ReadStepObserved | read_battery.c:209-305 | one bit of `read16`, with the ack after the eighth, shows its sample, its edge and the ack edge |
| Engine.ReadBitsObserved | read_battery.c:209-393 | the first k bits of `read16` show `ReadBitsSeen` and leave the clock low |
| Engine.Read16Observed | read_battery.c:206-404 | `read16` shows sixteen samples with their edges and the two ack edges, and leaves both lines low |
| Engine.ReadBitsExchange | read_battery.c:209-393 | the first k bits of `read16` sample exactly the first k levels, and the battery latches the ack pattern |
| Engine.Read16Exchange | read_battery.c:206-404 | `read16` samples exactly the sixteen levels in order; the battery sees ack on edge 9 and nack on edge 18 |
| Engine.StopObserved | read_battery.c:406-412 | `stopbus` from both lines low shows a clock edge, then a stop condition (clock released before data), and leaves the bus idle |
| Engine.TransactionObserved | read_battery.c:419-426 | a whole Read Word from an idle bus shows start, the three bytes with acks, repeated start, the word and stop, and ends idle |
| Engine.AnsweringRead | read_battery.c:419-426 | against a battery that acknowledges and presents `w`, the master reads exactly `w` and sees no nack |
| Engine.AbsentRead | read_battery.c:3-11 | with no battery every byte is nacked and the word reads 0xFFFF |
| Engine.Nacked | read_battery.c:178-191 | `error` from one Read Word: one of its three ack samples (write address, code, read address) read high |
| Engine.WordRead | read_battery.c:206-403 | the word `read16` assembles from the transaction's sixteen data samples; stated by `Engine.Bus.Read16` and `Engine.AnsweringRead` |
| Engine.ServingAnswers | read_battery.c:419-426 | a battery answering one word per transaction acknowledges the t-th Read Word and presents its t-th word |
| Engine.ServingGone | read_battery.c:3-11 | past its last answer such a battery reads like an absent one |
| Engine.Bus.Setup | read_battery.c:46-53 | `setupbus` leaves both lines released, `error` clear, no sample taken |
| Engine.Bus.GoZ | read_battery.c:29-32 | `go_z` releases the line and nothing else changes |
| Engine.Bus.Go0 | read_battery.c:34-38 | `go_0` pulls the line low and nothing else changes |
| Engine.Bus.ReadPin | read_battery.c:40-44 | `read_pin` releases data and returns the next level of the battery |
| Engine.Bus.StartBus | read_battery.c:55-62 | data low, then clock low: the start condition's log, both lines low |
| Engine.Bus.SendBit | read_battery.c:66-79 | one data bit, data set before the clock pulse, clock low after |
| Engine.Bus.AckCheck | read_battery.c:178-191 | a high ack sample sets `error`, a low one leaves it unchanged; both lines low after |
| Engine.Bus.Send8 | read_battery.c:64-192 | `send8`: the log of eight bits MSB first and the ack clock; `error` becomes `error` or a nack; one sample taken |
| Engine.Bus.SendRptStart | read_battery.c:194-204 | `sendrptstart`'s log, both lines low after |
| Engine.Bus.ReadBit | read_battery.c:209-219 | samples the next level with the clock low, then pulses the clock |
| Engine.Bus.Answer | read_battery.c:297-305 | the ack or nack clock, sampling nothing, both lines low after |
| Engine.Bus.Read16 | read_battery.c:206-404 | `read16` returns the word the next sixteen levels spell, low byte first, and leaves `error` unchanged |
| Engine.Bus.StopBus | read_battery.c:406-412 | `stopbus` leaves the bus idle |
| Engine.Bus.ReadWord | read_battery.c:420-426 | one Read Word: the word and the nacks of the next nineteen samples, `error` set by any nack, bus idle after, log `TransactionLog` |
| Engine.Bus.Address | read_battery.c:420-424 | start, 0x16, the code, repeated start, 0x17; `error` set iff one of the three bytes is nacked |
| Engine.Bus.SendCommand | read_battery.c:420-422 | start, 0x16, the code: `error` set by a nack of either byte |
| Registers.Code | read_battery.c:418-607 | the command codes of BatteryStatus, Voltage, Current, Temperature, RelativeStateOfCharge and the two times |
| Registers.CodeInjective | read_battery.c:418-607 | distinct registers are read with distinct command codes |
| Registers.Signed16 | read_battery.c:475 | `(short)` of the word: in -32768..32767, congruent to it mod 65536, negative iff the word is 0x8000 or more |
| Registers.Volts | read_battery.c:448-459 | `(float)read16()/1000`: millivolts to volts, in exact arithmetic |
| Registers.Celsius | read_battery.c:502-512 | `(float)read16()/10-273.15`: tenths of a kelvin to degrees C, in exact arithmetic |
| Registers.TimeToEmptyShown | read_battery.c:556-570 | a time to empty is printed when it is at most 1000 minutes |
| Registers.TimeToFullShown | read_battery.c:587-603 | a time to full is printed when it is 1 to 1000 minutes |
| Registers.Suspect | read_battery.c:427-587 | when a first value is asked for again: BatteryStatus 0xFFFF (427), voltage, current, temperature, charge (451, 478, 504, 530), a time out of range (556, 587; the same checks at monitor_battery.c:438, 461); stated by the three `...Plausible` lemmas and `Registers.AllOnesSuspect` |
| Registers.Has | read_battery.c:612-650 | `(bat_stat & mask) == mask`: the one bit of the flag's mask is set |
| Registers.VoltagePlausible | read_battery.c:451 | a voltage is kept on the first try iff 6000 < raw < 22000 mV |
| Registers.CurrentPlausible | read_battery.c:478 | a current is retried iff raw is 3000..0x7FFF or 0xFFFF (-1 signed) |
| Registers.TemperaturePlausible | read_battery.c:502-504 | a temperature is retried iff raw is 3132 tenths of a kelvin or more |
| Registers.AllOnesSuspect | read_battery.c:427-587 | the all-ones word fails every register's check |
| Registers.Read | read_battery.c:418-437 | the second Read Word runs iff the first value is suspect or a byte was nacked; without it the first value is taken and `error` is clear; with it the second value is taken and `error` reflects its nacks (and the first's, when not cleared) |
| Registers.ReadLog | read_battery.c:418-437 | the line log of one register read: a Read Word sending `Code(r)`, and a second sending it again iff `Read` retries |
| Registers.PlausibleRead | read_battery.c:427-437 | an answering battery with a plausible value is read once and that value is taken |
| Registers.RetriedRead | read_battery.c:427-437 | an implausible first answer is asked again and the second answer is taken however it looks |
| Registers.AbsentRegister | read_battery.c:427-437 | with no battery every register is read twice, settles on 0xFFFF and leaves `error` set |
| Registers.ReadRegister | read_battery.c:418-437 | on a ready bus, one register read returns `Read`'s value and leaves its `error` and sample count: one or two Read Words of 19 samples each, never more; its line log is `ReadLog`, so both Read Words send `Code(r)` |
| Registers.Transaction | read_battery.c:419-426 | `error = 0` (when asked), then one Read Word: its word, `error` from its nacks, 19 samples, and the line log of a Read Word sending `code` after 0x16 |
| Registers.FlagBit | read_battery.c:612-650 | every flag is one of the sixteen status bits |
| Registers.Mask | read_battery.c:612-650 | each mask a flag is tested with (by the report, and at monitor_battery.c:450 the discharging mask) is 2 to the power of its flag's bit |
| Reporter.FlagOrderComplete | read_battery.c:612-650 | every flag is tested, masks from high to low |
| Reporter.Select | read_battery.c:612-650 | the flags of an order that are set in the status, and only those, kept in order |
| Reporter.Flags | read_battery.c:609-651 | a flag is named iff its bit is set in the status, from the highest mask down |
| Reporter.FlagLines | read_battery.c:612-650 | one line per flag named, in order |
| Reporter.Shown | read_battery.c:461-651 | one line per measurement (461-465 and the like), nothing only for a time out of its range (556-573, 587-606), the heading and the flags for the status (610-651) |
| Reporter.Step | read_battery.c:440-607 | one register section keeps what was printed and takes one or two Read Words |
| Reporter.Electrical | read_battery.c:440-519 | the voltage, current and temperature sections, in that order |
| Reporter.Charge | read_battery.c:521-607 | the state of charge, time to empty and time to full sections, in that order |
| Reporter.ReportOf | read_battery.c:417-686 | a silent battery costs two Read Words of BatteryStatus and nothing more; otherwise seven to fourteen Read Words |
| Reporter.ElectricalLog | read_battery.c:440-519 | the line log of the voltage, current and temperature reads, each at the samples `Electrical` reaches it |
| Reporter.ChargeLog | read_battery.c:521-607 | the line log of the charge and time reads, each at the samples `Charge` reaches it |
| Reporter.ReportLog | read_battery.c:417-607 | the program's line log: `setupbus`, the BatteryStatus read, and the six measurement reads only when it answered |
| Reporter.Dump | read_battery.c:415-688 | the program prints exactly the lines of `ReportOf`, its bus takes exactly `ReportOf`'s samples, and its line log is `ReportLog` |
| Reporter.ReadElectrical | read_battery.c:440-519 | reads and prints voltage, current and temperature as `Electrical` says, with the line log `ElectricalLog` and `error` from the temperature read |
| Reporter.ReadCharge | read_battery.c:521-607 | reads and prints state of charge and both times as `Charge` says, with the line log `ChargeLog` and `error` from the time-to-full read |
| Reporter.ReadAndShow | read_battery.c:440-466 | one register section: the read with its retry (line log `ReadLog` with `Code(r)`, `error` from `Read`), then the line for the value it settled on |
| Reporter.MeasuredStep | read_battery.c:440-607 | a measurement section prints no flag, heading or "did not respond", and a time only inside its range |
| Reporter.MeasuredAll | read_battery.c:440-607 | the same for all six measurement sections |
| Reporter.AnsweredReport | read_battery.c:439-651 | when BatteryStatus answered, the report is the measurement lines, then the heading and the flags of the status |
| Reporter.NoResponseIff | read_battery.c:439-686 | "did not respond" is printed iff BatteryStatus still reads 0xFFFF after its retry; it is then the only line, after at most two Read Words |
| Reporter.AbsentReport | read_battery.c:683-686 | with no battery the report is "did not respond" alone, after two Read Words |
| Reporter.TimesBounded | read_battery.c:547-607 | a time to empty is printed only if at most 1000 minutes, a time to full only if 1 to 1000 |
| Reporter.TimesShown | read_battery.c:547-607 | when the battery answered, a time to empty of m minutes is printed iff its read settled on m and m <= 1000; a time to full iff its read settled on m and 1 <= m <= 1000 |
| Reporter.UntimedStep | read_battery.c:440-544 | a section other than the two times prints no time line |
| Reporter.TimeLinesIn | read_battery.c:547-607 | among untimed lines around the two time sections, a time line is there iff those sections printed it |
| Reporter.FlagsReported | read_battery.c:609-651 | when the battery answered, flag f is printed iff its bit is set in the settled status |
| Reporter.FlagLineIn | read_battery.c:609-651 | a flag line among measurements, heading and flag lines is there iff the flag is |
| Reporter.ServingInTurn | read_battery.c:418-607 | the serving battery answers each Read Word in turn |
| Reporter.HonestReport | read_battery.c:415-651 | an honest battery with plausible values is read once per register and the report shows exactly those values, then the flags of its status |
| Reporter.FaceValueLines | read_battery.c:440-651 | the lines of the seven registers, in program order |
| Reporter.HonestElectrical | read_battery.c:440-519 | voltage, current and temperature of an honest battery are read once each and printed as answered |
| Reporter.HonestCharge | read_battery.c:521-607 | state of charge and both times of an honest battery are read once each and printed |
| Reporter.HonestRead | read_battery.c:418-437 | a plausible answer is taken on the first try |
| Reporter.HonestStep | read_battery.c:440-607 | one section against an honest battery adds that register's lines and one Read Word |
| Monitor.Decide | monitor_battery.c:475-496 | shutdown iff discharging at 5% or less, blink iff at 6-7%; afterwards the LED is on iff discharging and it was on or the charge is 8-10%; the LED commands are issued exactly when `led_on` changes |
| Monitor.WarningOnce | monitor_battery.c:486-490 | after the LED has been switched on, the same charge issues nothing and keeps it on |
| Monitor.CycleOf | monitor_battery.c:428-497 | not discharging: no charge read, LED put out if on; discharging: the thresholds see the charge read; one to four Read Words |
| Monitor.CycleLog | monitor_battery.c:428-474 | a cycle's line log: the BatteryStatus read, then the state of charge read (without clearing `error` before its retry) iff the discharging bit is set |
| Monitor.LastRead | monitor_battery.c:428-474 | the cycle's last register read, whose `error` the cycle leaves |
| Monitor.AllOnesDischarging | monitor_battery.c:450 | 0xFFFF has the discharging bit |
| Monitor.DeadBattery | monitor_battery.c:428-497 | with no battery a poll makes four Read Words, issues nothing, and keeps `led_on` |
| Monitor.DischargingCycle | monitor_battery.c:428-490 | a discharging battery with a charge below 150 is read once for each register and its charge drives the thresholds |
| Monitor.ChargingCycle | monitor_battery.c:428-496 | a battery on charge is read once, its charge is not read, and the LED is put out if on |
| Monitor.Poll | monitor_battery.c:427-498 | n polls issue n actions (possibly none), in order |
| Monitor.PollLog | monitor_battery.c:427-498 | the line logs of n cycles, in order, each from where the one before left off |
| Monitor.Warnings | monitor_battery.c:486-496 | the LED commands among the actions, and only those |
| Monitor.WarningsAlternate | monitor_battery.c:424-498 | the LED commands alternate, starting with "on" from an LED that is off; the LED is on at the end iff their number is odd (from off) |
| Monitor.CycleToggles | monitor_battery.c:475-496 | a poll issues an LED command exactly when it changes `led_on` |
| Monitor.WarningsStep | monitor_battery.c:475-496 | one more poll keeps the commands alternating |
| Monitor.Monitor.Start | monitor_battery.c:422-424 | `setupbus()` and `led_on = 0` |
| Monitor.Monitor.PollOnce | monitor_battery.c:428-496 | one pass of the loop issues `CycleOf`'s action and leaves its `led_on` and sample count; its line log is `CycleLog` and its `error` that of `LastRead` |
| Monitor.Monitor.Run | monitor_battery.c:427-498 | n passes issue exactly `Poll`'s actions, leave its `led_on`, and write the line log `PollLog` |

## Left out

- The busy waits (`delayMicroseconds`, `delay`) are left out: the model has no time, and relies on order alone.
- The wiringPi calls (`wiringPiSetupGpio`, `piHiPri`, `pinMode`, `digitalWrite`, `digitalRead`) are not modelled. They are foreign code. The pins become the `Bus` line settings, and what `digitalRead` returns becomes the `Battery` function.
- The battery can hold the data line but not the clock: the engine never reads the clock, so clock stretching is outside the model.
- The `printf` number formats (`%6.3f`, `%5.2f`, `%d`) are not modelled. The report holds the values themselves. The retry branches print with one more space after "=" than the first-try branches (read_battery.c:461 against 465, and likewise at 488, 514, 540, 572 and 605), so the real output shows whether a register was read twice; a `ReportLine` does not record this.
- The `float` arithmetic of the voltage and temperature checks is not modelled. The model uses exact reals, and single-precision rounding near the thresholds is not captured.
- The monitor's startup `printf`, which shows no register value, is left out.
- The `system(...)` commands become `Action` values. Their effects, such as the shutdown and the controller commands, are outside the model.
- The `while(1)` loop appears as `Monitor.Monitor.Run` over n passes and as `Monitor.Poll`. The model does not cover an infinite run.
- The commented-out parts of `read_battery.c` are not modelled: the "unknown bits" check, the generic register read and the register write.
- Monitor.Monitor.Run: it does not state `error` after the n passes. Each pass clears `error` before its first read, so no pass depends on the one before, and `Monitor.Monitor.PollOnce` states the `error` a pass leaves. Carrying it through the loop invariant as well ran the loop's proof over its resource bound.
