/** One register read as both programs spell it out: a Read Word, and a
    second one if the value fails the register's plausibility check or a
    byte was not acknowledged; the second value is taken whatever it is. */
module Registers {
  import opened Lines
  import opened Bits
  import opened Engine

  /** The Smart Battery registers the programs read. */
  datatype Register =
    | Temperature
    | Voltage
    | Current
    | RelativeStateOfCharge
    | AverageTimeToEmpty
    | AverageTimeToFull
    | BatteryStatus

  /** The command code sent after the write address. */
  function Code(r: Register): (code: byte)
    ensures code in {0x08, 0x09, 0x0A, 0x0D, 0x12, 0x13, 0x16}
  {
    match r
    case Temperature => 0x08
    case Voltage => 0x09
    case Current => 0x0A
    case RelativeStateOfCharge => 0x0D
    case AverageTimeToEmpty => 0x12
    case AverageTimeToFull => 0x13
    case BatteryStatus => 0x16
  }

  /** Distinct registers are addressed by distinct command codes. */
  lemma CodeInjective(r: Register, s: Register)
    ensures Code(r) == Code(s) <==> r == s
  {
  }

  // ---------------------------------------------------------------------
  // The BatteryStatus bits both programs test.

  datatype StatusFlag =
    | OverchargeAlarm
    | TerminateChargeAlarm
    | OverTempAlarm
    | TerminateDischargeAlarm
    | RemainingCapacityAlarm
    | RemainingTimeAlarm
    | Initialized
    | Discharging
    | FullyCharged
    | FullyDischarged

  /** The bit of BatteryStatus a flag occupies. */
  function FlagBit(f: StatusFlag): (n: nat)
    ensures n < 16
  {
    match f
    case OverchargeAlarm => 15
    case TerminateChargeAlarm => 14
    case OverTempAlarm => 12
    case TerminateDischargeAlarm => 11
    case RemainingCapacityAlarm => 9
    case RemainingTimeAlarm => 8
    case Initialized => 7
    case Discharging => 6
    case FullyCharged => 5
    case FullyDischarged => 4
  }

  /** The mask a flag is tested with. */
  function Mask(f: StatusFlag): (m: nat)
    ensures m == Pow2(FlagBit(f))
  {
    Pow2Table();
    match f
    case OverchargeAlarm => 0x8000
    case TerminateChargeAlarm => 0x4000
    case OverTempAlarm => 0x1000
    case TerminateDischargeAlarm => 0x0800
    case RemainingCapacityAlarm => 0x0200
    case RemainingTimeAlarm => 0x0100
    case Initialized => 0x0080
    case Discharging => 0x0040
    case FullyCharged => 0x0020
    case FullyDischarged => 0x0010
  }

  /** `(bat_stat & Mask(f)) == Mask(f)`: the one bit of the mask is set. */
  predicate Has(status: word, f: StatusFlag)
  {
    (status / Mask(f)) % 2 == 1
  }

  // ---------------------------------------------------------------------
  // The conversions and plausibility checks of the reporter.

  /** `(short)read16()`: the word as a two's-complement 16-bit value. */
  function Signed16(raw: word): (v: int)
    ensures -0x8000 <= v < 0x8000
    ensures (v - raw) % 0x1_0000 == 0
    ensures v < 0 <==> raw >= 0x8000
  {
    if raw >= 0x8000 then raw - 0x1_0000 else raw
  }

  /** `(float)read16() / 1000`: millivolts to volts, in exact arithmetic. */
  function Volts(raw: word): real
  {
    raw as real / 1000.0
  }

  /** `(float)read16() / 10 - 273.15`: tenths of a kelvin to degrees Celsius,
      in exact arithmetic. */
  function Celsius(raw: word): real
  {
    raw as real / 10.0 - 273.15
  }

  /** The time-to-empty value is shown: at most 1000 minutes. */
  predicate TimeToEmptyShown(raw: word)
  {
    raw <= 1000
  }

  /** The time-to-full value is shown: between 1 and 1000 minutes. */
  predicate TimeToFullShown(raw: word)
  {
    raw <= 1000 && raw != 0
  }

  /** The value read on the first try calls for a second try, even when every
      byte was acknowledged. */
  predicate Suspect(r: Register, raw: word)
  {
    match r
    case BatteryStatus => raw == 0xFFFF
    case Voltage => Volts(raw) >= 22.0 || Volts(raw) <= 6.0
    case Current => Signed16(raw) >= 3000 || Signed16(raw) == -1
    case Temperature => Celsius(raw) >= 40.0
    case RelativeStateOfCharge => raw >= 150
    case AverageTimeToEmpty => !TimeToEmptyShown(raw)
    case AverageTimeToFull => !TimeToFullShown(raw)
  }

  /** A voltage passes iff it lies strictly between 6000 and 22000 mV. */
  lemma VoltagePlausible(raw: word)
    ensures !Suspect(Voltage, raw) <==> 6000 < raw < 22000
  {
    assert Volts(raw) >= 22.0 <==> raw >= 22000;
    assert Volts(raw) <= 6.0 <==> raw <= 6000;
  }

  /** A current passes iff, read as signed, it is below 3000 mA and is not -1:
      raw values 3000 to 0x7FFF and 0xFFFF are retried. */
  lemma CurrentPlausible(raw: word)
    ensures Suspect(Current, raw) <==> (3000 <= raw < 0x8000 || raw == 0xFFFF)
  {
  }

  /** A temperature is retried iff it is 40 degrees C or more, that is, iff
      the raw value is at least 3132 tenths of a kelvin. */
  lemma TemperaturePlausible(raw: word)
    ensures Suspect(Temperature, raw) <==> raw >= 3132
  {
    assert Celsius(raw) >= 40.0 <==> raw as real >= 3131.5;
    if raw as real >= 3131.5 {
      assert raw >= 3132;
    }
  }

  /** The all-ones word of an absent battery is suspect for every register,
      the temperature included: 0xFFFF tenths of a kelvin is 6280.35
      degrees C. */
  lemma AllOnesSuspect(r: Register)
    ensures Suspect(r, 0xFFFF)
  {
    if r == Temperature {
      TemperaturePlausible(0xFFFF);
    }
    if r == Voltage {
      VoltagePlausible(0xFFFF);
    }
  }

  // ---------------------------------------------------------------------
  // A register read against the battery's samples.

  /** What a register read does: the value it settles on, whether it ran a
      second Read Word, and the `error` flag it leaves. */
  datatype Outcome = Outcome(value: word, retried: bool, error: bool)

  /** When the samples following a read begin. */
  function After(at: nat, o: Outcome): nat
  {
    at + (if o.retried then 2 * TransactionLevels else TransactionLevels)
  }

  /** The read of `r` from the at-th sample on. `error` is cleared before the
      first transaction, and before the second too when `clearBeforeRetry`
      (every read but the monitor's state-of-charge retry). The second
      transaction runs iff the first value is suspect or a byte was nacked,
      and its value is then taken whatever it is. */
  function Read(r: Register, battery: Battery, at: nat, clearBeforeRetry: bool): (o: Outcome)
    ensures o.retried <==> Suspect(r, WordRead(battery, at)) || Nacked(battery, at)
    ensures !o.retried ==> o.value == WordRead(battery, at) && !o.error
    ensures o.retried ==> o.value == WordRead(battery, at + TransactionLevels)
    ensures o.retried ==> (o.error <==> (Nacked(battery, at) && !clearBeforeRetry) || Nacked(battery, at + TransactionLevels))
  {
    var first := WordRead(battery, at);
    var nacked := Nacked(battery, at);
    if Suspect(r, first) || nacked then
      var second := at + TransactionLevels;
      Outcome(WordRead(battery, second), true, (nacked && !clearBeforeRetry) || Nacked(battery, second))
    else
      Outcome(first, false, false)
  }

  /** A battery that acknowledges and answers a plausible value is read once
      and its value is taken. */
  lemma PlausibleRead(r: Register, battery: Battery, at: nat, w: word, clearBeforeRetry: bool)
    requires Answers(battery, at, w) && !Suspect(r, w)
    ensures Read(r, battery, at, clearBeforeRetry) == Outcome(w, false, false)
  {
    AnsweringRead(battery, at, w);
  }

  /** A battery whose first answer is implausible is asked again, and the
      second answer is taken whatever it is. */
  lemma RetriedRead(r: Register, battery: Battery, at: nat, w: word, w2: word, clearBeforeRetry: bool)
    requires Answers(battery, at, w) && Suspect(r, w)
    requires Answers(battery, at + TransactionLevels, w2)
    ensures Read(r, battery, at, clearBeforeRetry) == Outcome(w2, true, false)
  {
    AnsweringRead(battery, at, w);
    AnsweringRead(battery, at + TransactionLevels, w2);
  }

  /** With no battery every register is read twice, settles on 0xFFFF, and
      leaves `error` set. */
  lemma AbsentRegister(r: Register, at: nat, clearBeforeRetry: bool)
    ensures Read(r, Absent(), at, clearBeforeRetry) == Outcome(0xFFFF, true, true)
  {
    AbsentRead(at);
    AbsentRead(at + TransactionLevels);
  }

  /** A bus the register reads run on. */
  ghost predicate Ready(bus: Bus)
    reads bus
  {
    bus.Valid() && bus.wire == Idle
  }

  /** The line log of the read of `r` from the at-th sample on: a Read Word
      sending `Code(r)`, and a second one sending it again when the read is
      retried. */
  function ReadLog(l: Log, r: Register, battery: Battery, at: nat, clearBeforeRetry: bool): Log
  {
    var first := TransactionLog(l, Code(r), battery, at);
    if Read(r, battery, at, clearBeforeRetry).retried then TransactionLog(first, Code(r), battery, at + TransactionLevels)
    else first
  }

  /** One register read on the bus: a Read Word, and if its value is suspect
      or `error` is set, a second one whose value is taken. */
  method ReadRegister(bus: Bus, r: Register, clearBeforeRetry: bool) returns (value: word)
    requires Ready(bus)
    modifies bus
    ensures Ready(bus)
    ensures var o := Read(r, bus.battery, old(bus.taken), clearBeforeRetry);
      && value == o.value
      && bus.error == o.error
      && bus.taken == After(old(bus.taken), o)
    // never more than two Read Words, each of TransactionLevels samples
    ensures bus.taken - old(bus.taken) in {TransactionLevels, 2 * TransactionLevels}
    // both Read Words send the register's own command code
    ensures bus.log == ReadLog(old(bus.log), r, bus.battery, old(bus.taken), clearBeforeRetry)
  {
    value := Transaction(bus, Code(r), true);
    if Suspect(r, value) || bus.error {
      value := Transaction(bus, Code(r), clearBeforeRetry);
    }
  }

  /** `error = 0` (when `clear`), then the Read Word of register `code`:
      start, write address, command code, repeated start, read address,
      the word, stop. */
  method Transaction(bus: Bus, code: byte, clear: bool) returns (value: word)
    requires Ready(bus)
    modifies bus
    ensures Ready(bus)
    ensures value == WordRead(bus.battery, old(bus.taken))
    ensures bus.error == ((old(bus.error) && !clear) || Nacked(bus.battery, old(bus.taken)))
    ensures bus.taken == old(bus.taken) + TransactionLevels
    // the Read Word sends `code` after the write address
    ensures bus.log == TransactionLog(old(bus.log), code, bus.battery, old(bus.taken))
  {
    if clear {
      bus.error := false;
    }
    value := bus.ReadWord(code);
  }
}
