/** The one-shot battery report: BatteryStatus first; if the battery
    answered, six measurement registers, each printed (or, for the two
    times, suppressed) after its read, and then the status flags by name. */
module Reporter {
  import opened Lines
  import opened Bits
  import opened Engine
  import opened Registers

  // ---------------------------------------------------------------------
  // The BatteryStatus flags the report names.

  /** The order the report tests the flags in: masks from high to low. */
  const FlagOrder: seq<StatusFlag> := [
    OverchargeAlarm, TerminateChargeAlarm, OverTempAlarm, TerminateDischargeAlarm,
    RemainingCapacityAlarm, RemainingTimeAlarm, Initialized, Discharging,
    FullyCharged, FullyDischarged]

  predicate Descending(flags: seq<StatusFlag>)
  {
    forall i, j :: 0 <= i < j < |flags| ==> FlagBit(flags[i]) > FlagBit(flags[j])
  }

  lemma FlagOrderComplete(f: StatusFlag)
    ensures f in FlagOrder
    ensures Descending(FlagOrder)
  {
  }

  /** The flags of `order` that are set in `status`, in the order given. */
  function Select(status: word, order: seq<StatusFlag>): (flags: seq<StatusFlag>)
    requires Descending(order)
    ensures forall f :: f in flags <==> f in order && Has(status, f)
    ensures Descending(flags)
  {
    if order == [] then []
    else
      var rest := Select(status, order[1..]);
      if Has(status, order[0]) then HeadAbove(order); DescendingCons(order[0], rest); [order[0]] + rest
      else rest
  }

  /** In a descending order every later flag has a lower bit than the first. */
  lemma HeadAbove(order: seq<StatusFlag>)
    requires Descending(order) && |order| > 0
    ensures forall g :: g in order[1..] ==> FlagBit(g) < FlagBit(order[0])
  {
    forall g | g in order[1..]
      ensures FlagBit(g) < FlagBit(order[0])
    {
      var k :| 0 <= k < |order[1..]| && order[1..][k] == g;
      assert order[k + 1] == g;
    }
  }

  lemma DescendingCons(x: StatusFlag, rest: seq<StatusFlag>)
    requires Descending(rest)
    requires forall g :: g in rest ==> FlagBit(g) < FlagBit(x)
    ensures Descending([x] + rest)
  {
    forall i, j | 0 <= i < j < |[x] + rest|
      ensures FlagBit(([x] + rest)[i]) > FlagBit(([x] + rest)[j])
    {
      assert ([x] + rest)[j] == rest[j - 1];
      if i > 0 {
        assert ([x] + rest)[i] == rest[i - 1];
      } else {
        assert rest[j - 1] in rest;
      }
    }
  }

  /** The flags the report names for `status`: exactly those set, from the
      highest mask down. */
  function Flags(status: word): (flags: seq<StatusFlag>)
    ensures forall f :: f in flags <==> Has(status, f)
    ensures Descending(flags)
  {
    FlagOrderComplete(OverchargeAlarm);
    Select(status, FlagOrder)
  }

  // ---------------------------------------------------------------------
  // The report.

  /** A line of the report, with the value it shows. The number formats of
      the print statements are not modelled. */
  datatype ReportLine =
    | VoltageLine(volts: real)
    | CurrentLine(milliamps: int)
    | TemperatureLine(celsius: real)
    | ChargeLine(percent: nat)
    | TimeToEmptyLine(minutes: nat)
    | TimeToFullLine(minutes: nat)
    | StatusHeading
    | FlagLine(flag: StatusFlag)
    | NoResponse

  function FlagLines(flags: seq<StatusFlag>): (lines: seq<ReportLine>)
    ensures |lines| == |flags|
    ensures forall i :: 0 <= i < |flags| ==> lines[i] == FlagLine(flags[i])
  {
    seq(|flags|, i requires 0 <= i < |flags| => FlagLine(flags[i]))
  }

  /** The lines printed for the value a register read settled on: one line
      for each measurement, none for a time outside its range, the heading
      and the flags for the status. */
  function Shown(r: Register, raw: word): (lines: seq<ReportLine>)
    ensures lines == [] <==> Suspect(r, raw) && (r == AverageTimeToEmpty || r == AverageTimeToFull)
    ensures r != BatteryStatus ==> |lines| <= 1
  {
    match r
    case Voltage => [VoltageLine(Volts(raw))]
    case Current => [CurrentLine(Signed16(raw))]
    case Temperature => [TemperatureLine(Celsius(raw))]
    case RelativeStateOfCharge => [ChargeLine(raw)]
    case AverageTimeToEmpty => if TimeToEmptyShown(raw) then [TimeToEmptyLine(raw)] else []
    case AverageTimeToFull => if TimeToFullShown(raw) then [TimeToFullLine(raw)] else []
    case BatteryStatus => [StatusHeading] + FlagLines(Flags(raw))
  }

  /** What has been printed so far, and where the next read begins. */
  datatype Report = Report(lines: seq<ReportLine>, samples: nat)

  /** Read register `r` (clearing `error` before both of its transactions)
      and print what it settles on. */
  function Step(r: Register, battery: Battery, rep: Report): (next: Report)
    // what is printed stays printed
    ensures rep.lines <= next.lines
    // one or two Read Words
    ensures next.samples - rep.samples in {TransactionLevels, 2 * TransactionLevels}
  {
    var o := Read(r, battery, rep.samples, true);
    Report(rep.lines + Shown(r, o.value), After(rep.samples, o))
  }

  /** Voltage, current, temperature. */
  function Electrical(battery: Battery, rep: Report): Report
  {
    Step(Temperature, battery, Step(Current, battery, Step(Voltage, battery, rep)))
  }

  /** State of charge, time to empty, time to full. */
  function Charge(battery: Battery, rep: Report): Report
  {
    Step(AverageTimeToFull, battery, Step(AverageTimeToEmpty, battery, Step(RelativeStateOfCharge, battery, rep)))
  }

  /** The whole report: if BatteryStatus still reads 0xFFFF after its retry,
      only "did not respond"; otherwise the six measurements in order, then
      the status heading and the flags. */
  function ReportOf(battery: Battery): (rep: Report)
    // a silent battery costs two Read Words of BatteryStatus and nothing
    // more; otherwise each of the seven registers is read once or twice
    ensures rep.lines == [NoResponse] ==> rep.samples == 2 * TransactionLevels
    ensures rep.lines != [NoResponse] ==> 7 * TransactionLevels <= rep.samples <= 14 * TransactionLevels
  {
    var status := Read(BatteryStatus, battery, 0, true);
    if status.value == 0xFFFF then
      Report([NoResponse], After(0, status))
    else
      var m := Charge(battery, Electrical(battery, Report([], After(0, status))));
      Report(m.lines + Shown(BatteryStatus, status.value), m.samples)
  }

  /** The line log of voltage, current and temperature, read in turn from
      `rep.samples` on. */
  function ElectricalLog(battery: Battery, rep: Report, l: Log): Log
  {
    var v := Step(Voltage, battery, rep);
    var c := Step(Current, battery, v);
    ReadLog(ReadLog(ReadLog(l, Voltage, battery, rep.samples, true), Current, battery, v.samples, true),
      Temperature, battery, c.samples, true)
  }

  /** The line log of state of charge and the two times, read in turn from
      `rep.samples` on. */
  function ChargeLog(battery: Battery, rep: Report, l: Log): Log
  {
    var s := Step(RelativeStateOfCharge, battery, rep);
    var e := Step(AverageTimeToEmpty, battery, s);
    ReadLog(ReadLog(ReadLog(l, RelativeStateOfCharge, battery, rep.samples, true), AverageTimeToEmpty, battery, s.samples, true),
      AverageTimeToFull, battery, e.samples, true)
  }

  /** The line log of the whole program: `setupbus`, the BatteryStatus read,
      and, when it answered, the six measurement reads in program order. */
  function ReportLog(battery: Battery): Log
  {
    var status := Read(BatteryStatus, battery, 0, true);
    var afterStatus := ReadLog(Then(Then(Boot, Float(Clock)), Float(Data)), BatteryStatus, battery, 0, true);
    if status.value == 0xFFFF then afterStatus
    else
      var r0 := Report([], After(0, status));
      ChargeLog(battery, Electrical(battery, r0), ElectricalLog(battery, r0, afterStatus))
  }

  /** The program: set up the bus, then read and print as `ReportOf` says;
      `taken` is the number of samples the bus took, `log` its line log. */
  method Dump(battery: Battery) returns (lines: seq<ReportLine>, taken: nat, ghost log: Log)
    ensures Report(lines, taken) == ReportOf(battery)
    ensures log == ReportLog(battery)
  {
    var bus := new Bus.Setup(battery);
    var status := ReadRegister(bus, BatteryStatus, true);
    if status != 0xFFFF {
      lines := ReadElectrical(bus, []);
      lines := ReadCharge(bus, lines);
      lines := lines + Shown(BatteryStatus, status);
    } else {
      lines := [NoResponse];
    }
    taken := bus.taken;
    log := bus.log;
  }

  method ReadElectrical(bus: Bus, printed: seq<ReportLine>) returns (lines: seq<ReportLine>)
    requires Ready(bus)
    modifies bus
    ensures Ready(bus)
    ensures Report(lines, bus.taken) == Electrical(bus.battery, Report(printed, old(bus.taken)))
    ensures bus.log == ElectricalLog(bus.battery, Report(printed, old(bus.taken)), old(bus.log))
    ensures var c := Step(Current, bus.battery, Step(Voltage, bus.battery, Report(printed, old(bus.taken))));
      bus.error == Read(Temperature, bus.battery, c.samples, true).error
  {
    lines := ReadAndShow(bus, Voltage, printed);
    lines := ReadAndShow(bus, Current, lines);
    lines := ReadAndShow(bus, Temperature, lines);
  }

  method ReadCharge(bus: Bus, printed: seq<ReportLine>) returns (lines: seq<ReportLine>)
    requires Ready(bus)
    modifies bus
    ensures Ready(bus)
    ensures Report(lines, bus.taken) == Charge(bus.battery, Report(printed, old(bus.taken)))
    ensures bus.log == ChargeLog(bus.battery, Report(printed, old(bus.taken)), old(bus.log))
    ensures var e := Step(AverageTimeToEmpty, bus.battery, Step(RelativeStateOfCharge, bus.battery, Report(printed, old(bus.taken))));
      bus.error == Read(AverageTimeToFull, bus.battery, e.samples, true).error
  {
    lines := ReadAndShow(bus, RelativeStateOfCharge, printed);
    lines := ReadAndShow(bus, AverageTimeToEmpty, lines);
    lines := ReadAndShow(bus, AverageTimeToFull, lines);
  }

  /** Read one register and print (or suppress) its value. */
  method ReadAndShow(bus: Bus, r: Register, printed: seq<ReportLine>) returns (lines: seq<ReportLine>)
    requires Ready(bus)
    modifies bus
    ensures Ready(bus)
    ensures Report(lines, bus.taken) == Step(r, bus.battery, Report(printed, old(bus.taken)))
    ensures bus.log == ReadLog(old(bus.log), r, bus.battery, old(bus.taken), true)
    ensures bus.error == Read(r, bus.battery, old(bus.taken), true).error
  {
    var value := ReadRegister(bus, r, true);
    lines := printed + Shown(r, value);
  }

  // ---------------------------------------------------------------------
  // What the report promises.

  /** A register other than BatteryStatus prints no flag, no heading and no
      "did not respond", and a time only within its shown range. */
  predicate Measured(lines: seq<ReportLine>)
  {
    forall line :: line in lines ==>
      && !line.FlagLine? && !line.StatusHeading? && !line.NoResponse?
      && (line.TimeToEmptyLine? ==> line.minutes <= 1000)
      && (line.TimeToFullLine? ==> 1 <= line.minutes <= 1000)
  }

  lemma MeasuredStep(r: Register, battery: Battery, rep: Report)
    requires r != BatteryStatus && Measured(rep.lines)
    ensures Measured(Step(r, battery, rep).lines)
  {
  }

  lemma MeasuredAll(battery: Battery, rep: Report)
    requires Measured(rep.lines)
    ensures Measured(Charge(battery, Electrical(battery, rep)).lines)
  {
    MeasuredStep(Voltage, battery, rep);
    var v := Step(Voltage, battery, rep);
    MeasuredStep(Current, battery, v);
    var c := Step(Current, battery, v);
    MeasuredStep(Temperature, battery, c);
    var e := Electrical(battery, rep);
    MeasuredStep(RelativeStateOfCharge, battery, e);
    var s := Step(RelativeStateOfCharge, battery, e);
    MeasuredStep(AverageTimeToEmpty, battery, s);
    MeasuredStep(AverageTimeToFull, battery, Step(AverageTimeToEmpty, battery, s));
  }

  /** When the battery answered, the report is the measurement lines
      followed by the heading and the flags of the status. */
  lemma AnsweredReport(battery: Battery) returns (m: seq<ReportLine>)
    requires Read(BatteryStatus, battery, 0, true).value != 0xFFFF
    ensures ReportOf(battery).lines == m + ([StatusHeading] + FlagLines(Flags(Read(BatteryStatus, battery, 0, true).value)))
    ensures Measured(m)
  {
    var status := Read(BatteryStatus, battery, 0, true);
    MeasuredAll(battery, Report([], After(0, status)));
    m := Charge(battery, Electrical(battery, Report([], After(0, status)))).lines;
  }

  /** "Did not respond" is printed iff BatteryStatus still reads 0xFFFF
      after its retry; it is then the only line and no other register is
      read: two Read Words at most. */
  lemma NoResponseIff(battery: Battery)
    ensures var rep := ReportOf(battery);
      (NoResponse in rep.lines <==> Read(BatteryStatus, battery, 0, true).value == 0xFFFF)
      && (NoResponse in rep.lines ==> rep.lines == [NoResponse] && rep.samples <= 2 * TransactionLevels)
  {
    if Read(BatteryStatus, battery, 0, true).value != 0xFFFF {
      var m := AnsweredReport(battery);
      assert NoResponse !in m;
    }
  }

  /** No time line among the lines. */
  predicate Untimed(lines: seq<ReportLine>)
  {
    forall line :: line in lines ==> !line.TimeToEmptyLine? && !line.TimeToFullLine?
  }

  /** A section other than the two times prints no time line. */
  lemma UntimedStep(r: Register, battery: Battery, rep: Report)
    requires r != AverageTimeToEmpty && r != AverageTimeToFull && Untimed(rep.lines)
    ensures Untimed(Step(r, battery, rep).lines)
  {
    var o := Read(r, battery, rep.samples, true);
    if r == BatteryStatus {
      assert Untimed(FlagLines(Flags(o.value)));
    }
  }

  /** A time line among untimed lines around the two time sections is the
      one those sections printed. */
  lemma TimeLinesIn(a: seq<ReportLine>, empty: word, full: word, b: seq<ReportLine>, minutes: nat)
    requires Untimed(a) && Untimed(b)
    ensures var lines := a + Shown(AverageTimeToEmpty, empty) + Shown(AverageTimeToFull, full) + b;
      && (TimeToEmptyLine(minutes) in lines <==> minutes == empty && TimeToEmptyShown(empty))
      && (TimeToFullLine(minutes) in lines <==> minutes == full && TimeToFullShown(full))
  {
    var lines := a + Shown(AverageTimeToEmpty, empty) + Shown(AverageTimeToFull, full) + b;
    assert forall line :: line in lines <==>
      line in a || line in Shown(AverageTimeToEmpty, empty) || line in Shown(AverageTimeToFull, full) || line in b;
  }

  /** When the battery answered, the report shows a time to empty of m
      minutes iff the time to empty read settled on m and m is at most 1000,
      and a time to full of m minutes iff that read settled on m and m is 1
      to 1000. */
  lemma TimesShown(battery: Battery, minutes: nat)
    requires Read(BatteryStatus, battery, 0, true).value != 0xFFFF
    ensures var status := Read(BatteryStatus, battery, 0, true);
      var s := Step(RelativeStateOfCharge, battery, Electrical(battery, Report([], After(0, status))));
      var empty := Read(AverageTimeToEmpty, battery, s.samples, true);
      var full := Read(AverageTimeToFull, battery, After(s.samples, empty), true);
      && (TimeToEmptyLine(minutes) in ReportOf(battery).lines <==> minutes == empty.value && empty.value <= 1000)
      && (TimeToFullLine(minutes) in ReportOf(battery).lines <==> minutes == full.value && 1 <= full.value <= 1000)
  {
    var status := Read(BatteryStatus, battery, 0, true);
    var r0 := Report([], After(0, status));
    UntimedStep(Voltage, battery, r0);
    var v := Step(Voltage, battery, r0);
    UntimedStep(Current, battery, v);
    var c := Step(Current, battery, v);
    UntimedStep(Temperature, battery, c);
    var e := Electrical(battery, r0);
    UntimedStep(RelativeStateOfCharge, battery, e);
    var s := Step(RelativeStateOfCharge, battery, e);
    var empty := Read(AverageTimeToEmpty, battery, s.samples, true);
    var full := Read(AverageTimeToFull, battery, After(s.samples, empty), true);
    var flags := Shown(BatteryStatus, status.value);
    assert Untimed(FlagLines(Flags(status.value)));
    assert ReportOf(battery).lines
      == s.lines + Shown(AverageTimeToEmpty, empty.value) + Shown(AverageTimeToFull, full.value) + flags;
    TimeLinesIn(s.lines, empty.value, full.value, flags, minutes);
  }

  /** With no battery on the bus the report is "did not respond" alone,
      after two Read Words of BatteryStatus. */
  lemma AbsentReport()
    ensures ReportOf(Absent()) == Report([NoResponse], 2 * TransactionLevels)
  {
    AbsentRegister(BatteryStatus, 0, true);
  }

  /** The time to empty is shown only when it is at most 1000 minutes, and
      the time to full only when it is 1 to 1000 minutes, whatever the
      battery answers on either try. */
  lemma TimesBounded(battery: Battery, line: ReportLine)
    requires line in ReportOf(battery).lines
    ensures line.TimeToEmptyLine? ==> line.minutes <= 1000
    ensures line.TimeToFullLine? ==> 1 <= line.minutes <= 1000
  {
    if Read(BatteryStatus, battery, 0, true).value != 0xFFFF {
      var m := AnsweredReport(battery);
      if line !in m {
        var status := Read(BatteryStatus, battery, 0, true).value;
        assert line in [StatusHeading] + FlagLines(Flags(status));
      }
    }
  }

  /** When the battery answered, the report names flag f iff f is set in the
      BatteryStatus value it settled on. */
  lemma FlagsReported(battery: Battery, f: StatusFlag)
    requires Read(BatteryStatus, battery, 0, true).value != 0xFFFF
    ensures FlagLine(f) in ReportOf(battery).lines <==> Has(Read(BatteryStatus, battery, 0, true).value, f)
  {
    var m := AnsweredReport(battery);
    var flags := Flags(Read(BatteryStatus, battery, 0, true).value);
    FlagLineIn(m, flags, f);
  }

  lemma FlagLineIn(m: seq<ReportLine>, flags: seq<StatusFlag>, f: StatusFlag)
    requires Measured(m)
    ensures FlagLine(f) in m + ([StatusHeading] + FlagLines(flags)) <==> f in flags
  {
    if f in flags {
      var i :| 0 <= i < |flags| && flags[i] == f;
      assert FlagLines(flags)[i] == FlagLine(f);
    }
  }

  /** The battery acknowledges every byte of the first |answers| Read Words
      and answers the t-th with answers[t]. */
  predicate AnswersInTurn(battery: Battery, answers: seq<word>)
  {
    forall t :: 0 <= t < |answers| ==> Answers(battery, TransactionLevels * t, answers[t])
  }

  /** `Serving(answers)` is such a battery. */
  lemma ServingInTurn(answers: seq<word>)
    ensures AnswersInTurn(Serving(answers), answers)
  {
    forall t | 0 <= t < |answers|
      ensures Answers(Serving(answers), TransactionLevels * t, answers[t])
    {
      ServingAnswers(answers, t);
    }
  }

  /** Every answer is plausible for its register, in report order. */
  predicate Plausible(answers: seq<word>)
    requires |answers| == 7
  {
    && !Suspect(BatteryStatus, answers[0]) && !Suspect(Voltage, answers[1]) && !Suspect(Current, answers[2])
    && !Suspect(Temperature, answers[3]) && !Suspect(RelativeStateOfCharge, answers[4])
    && !Suspect(AverageTimeToEmpty, answers[5]) && !Suspect(AverageTimeToFull, answers[6])
  }

  /** The report for answers taken at face value: every measurement, both
      times, then the heading and the flags of the status. */
  function FaceValue(answers: seq<word>): seq<ReportLine>
    requires |answers| == 7
  {
    [VoltageLine(Volts(answers[1])), CurrentLine(Signed16(answers[2])), TemperatureLine(Celsius(answers[3])),
     ChargeLine(answers[4]), TimeToEmptyLine(answers[5]), TimeToFullLine(answers[6]), StatusHeading]
    + FlagLines(Flags(answers[0]))
  }

  /** A battery that answers every register once with a plausible value,
      BatteryStatus first and then the measurements in order: each register
      is read once and the report shows exactly those values. */
  lemma HonestReport(battery: Battery, answers: seq<word>)
    requires |answers| == 7 && AnswersInTurn(battery, answers) && Plausible(answers)
    ensures ReportOf(battery) == Report(FaceValue(answers), 7 * TransactionLevels)
  {
    HonestRead(battery, answers, 0, BatteryStatus);
    var e := HonestElectrical(battery, answers);
    var shown := HonestCharge(battery, answers, e);
    assert ReportOf(battery) == Report(shown + Shown(BatteryStatus, answers[0]), 7 * TransactionLevels);
    FaceValueLines(answers, e, shown);
  }

  lemma FaceValueLines(answers: seq<word>, e: seq<ReportLine>, shown: seq<ReportLine>)
    requires |answers| == 7
    requires e == [VoltageLine(Volts(answers[1])), CurrentLine(Signed16(answers[2])), TemperatureLine(Celsius(answers[3]))]
    requires shown == e + [ChargeLine(answers[4]), TimeToEmptyLine(answers[5]), TimeToFullLine(answers[6])]
    ensures shown + Shown(BatteryStatus, answers[0]) == FaceValue(answers)
  {
    assert shown + ([StatusHeading] + FlagLines(Flags(answers[0]))) == shown + [StatusHeading] + FlagLines(Flags(answers[0]));
  }

  /** The electrical measurements of an honest battery. */
  lemma HonestElectrical(battery: Battery, answers: seq<word>) returns (e: seq<ReportLine>)
    requires AnswersInTurn(battery, answers) && |answers| == 7
    requires !Suspect(Voltage, answers[1]) && !Suspect(Current, answers[2]) && !Suspect(Temperature, answers[3])
    ensures e == [VoltageLine(Volts(answers[1])), CurrentLine(Signed16(answers[2])), TemperatureLine(Celsius(answers[3]))]
    ensures Electrical(battery, Report([], TransactionLevels)) == Report(e, 4 * TransactionLevels)
  {
    var r0 := Report([], TransactionLevels);
    var r1 := HonestStep(battery, answers, 1, Voltage, r0);
    assert r1.lines == [VoltageLine(Volts(answers[1]))];
    var r2 := HonestStep(battery, answers, 2, Current, r1);
    assert r2.lines == [VoltageLine(Volts(answers[1])), CurrentLine(Signed16(answers[2]))];
    var r3 := HonestStep(battery, answers, 3, Temperature, r2);
    e := r3.lines;
  }

  /** The charge measurements of an honest battery, after the electrical ones. */
  lemma HonestCharge(battery: Battery, answers: seq<word>, e: seq<ReportLine>) returns (shown: seq<ReportLine>)
    requires AnswersInTurn(battery, answers) && |answers| == 7
    requires !Suspect(RelativeStateOfCharge, answers[4])
    requires !Suspect(AverageTimeToEmpty, answers[5]) && !Suspect(AverageTimeToFull, answers[6])
    ensures shown == e + [ChargeLine(answers[4]), TimeToEmptyLine(answers[5]), TimeToFullLine(answers[6])]
    ensures Charge(battery, Report(e, 4 * TransactionLevels)) == Report(shown, 7 * TransactionLevels)
  {
    var r3 := Report(e, 4 * TransactionLevels);
    var r4 := HonestStep(battery, answers, 4, RelativeStateOfCharge, r3);
    assert r4.lines == e + [ChargeLine(answers[4])];
    var r5 := HonestStep(battery, answers, 5, AverageTimeToEmpty, r4);
    assert r5.lines == e + [ChargeLine(answers[4]), TimeToEmptyLine(answers[5])];
    var r6 := HonestStep(battery, answers, 6, AverageTimeToFull, r5);
    shown := r6.lines;
  }

  /** The t-th answer, plausible for `r`, is taken on the first try. */
  lemma HonestRead(battery: Battery, answers: seq<word>, t: nat, r: Register)
    requires AnswersInTurn(battery, answers)
    requires t < |answers| && !Suspect(r, answers[t])
    ensures Read(r, battery, TransactionLevels * t, true) == Outcome(answers[t], false, false)
  {
    PlausibleRead(r, battery, TransactionLevels * t, answers[t], true);
  }

  /** The report step reading the t-th answer. */
  lemma HonestStep(battery: Battery, answers: seq<word>, t: nat, r: Register, rep: Report) returns (next: Report)
    requires AnswersInTurn(battery, answers)
    requires t < |answers| && !Suspect(r, answers[t])
    requires rep.samples == TransactionLevels * t
    ensures next == Step(r, battery, rep)
    ensures next == Report(rep.lines + Shown(r, answers[t]), TransactionLevels * (t + 1))
  {
    HonestRead(battery, answers, t, r);
    next := Step(r, battery, rep);
  }
}
