/** The state-of-charge monitor: once a minute it reads BatteryStatus and,
    while the battery is discharging, the relative state of charge, and then
    issues at most one action. The warning LED's state is the only thing it
    carries from one cycle to the next. */
module Monitor {
  import opened Lines
  import opened Bits
  import opened Engine
  import opened Registers

  /** The shell command a cycle issues, if any. */
  datatype Action =
    | NoAction
      /** `sudo shutdown -h now` */
    | Shutdown
      /** the display blink command to the power controller */
    | Blink
      /** the disk LED on command */
    | WarningOn
      /** the disk LED off command */
    | WarningOff

  /** What BatteryStatus said about the supply, and the state of charge read
      when it said "discharging". */
  datatype Supply = OnCharger | OnBattery(soc: nat)

  /** The action of one cycle and the new `led_on`. */
  datatype Decision = Decision(action: Action, ledOn: bool)

  /** The threshold chain: shutdown at 5% or less, blink at 7% or less, the
      LED on at 10% or less if it is off; on the charger, the LED off if it
      is on. */
  function Decide(supply: Supply, ledOn: bool): (d: Decision)
    // the priority of the thresholds while discharging
    ensures d.action == Shutdown <==> supply.OnBattery? && supply.soc <= 5
    ensures d.action == Blink <==> supply.OnBattery? && 5 < supply.soc <= 7
    // the LED is lit while discharging once the charge has been seen in
    // 8..10, and put out by the first cycle on the charger
    ensures d.ledOn <==> supply.OnBattery? && (ledOn || 7 < supply.soc <= 10)
    // the two LED commands are issued exactly when `led_on` changes
    ensures d.action == WarningOn <==> !ledOn && d.ledOn
    ensures d.action == WarningOff <==> ledOn && !d.ledOn
  {
    match supply
    case OnBattery(soc) =>
      if soc <= 5 then Decision(Shutdown, ledOn)
      else if soc <= 7 then Decision(Blink, ledOn)
      else if soc <= 10 && !ledOn then Decision(WarningOn, true)
      else Decision(NoAction, ledOn)
    case OnCharger =>
      if ledOn then Decision(WarningOff, false) else Decision(NoAction, ledOn)
  }

  /** A second cycle at the same charge issues no second LED command:
      switching the warning on is idempotent. */
  lemma WarningOnce(supply: Supply, ledOn: bool)
    requires Decide(supply, ledOn).action == WarningOn
    ensures Decide(supply, true) == Decision(NoAction, true)
  {
    assert supply.OnBattery? && 7 < supply.soc <= 10;
  }

  /** One poll cycle: the action, the new `led_on`, and where the next
      cycle's samples begin. */
  datatype Cycle = Cycle(action: Action, ledOn: bool, next: nat)

  /** The cycle beginning at the at-th sample. BatteryStatus is read with
      `error` cleared before both tries; the state of charge is read only if
      the status has the discharging bit (0x0040), with `error` cleared before
      the first try only. */
  function CycleOf(battery: Battery, at: nat, ledOn: bool): (c: Cycle)
    ensures var status := Read(BatteryStatus, battery, at, true);
      && (!Has(status.value, Discharging) ==>
            c == Cycle(if ledOn then WarningOff else NoAction, false, After(at, status)))
      && (Has(status.value, Discharging) ==>
            var soc := Read(RelativeStateOfCharge, battery, After(at, status), false);
            Decision(c.action, c.ledOn) == Decide(OnBattery(soc.value), ledOn)
            && c.next == After(After(at, status), soc))
    ensures at + TransactionLevels <= c.next <= at + 4 * TransactionLevels
  {
    var status := Read(BatteryStatus, battery, at, true);
    var afterStatus := After(at, status);
    if Has(status.value, Discharging) then
      var soc := Read(RelativeStateOfCharge, battery, afterStatus, false);
      var d := Decide(OnBattery(soc.value), ledOn);
      Cycle(d.action, d.ledOn, After(afterStatus, soc))
    else
      var d := Decide(OnCharger, ledOn);
      Cycle(d.action, d.ledOn, afterStatus)
  }

  /** The line log of the cycle beginning at the at-th sample: the
      BatteryStatus read, then, iff it has the discharging bit, the state of
      charge read without clearing `error` before its retry. */
  function CycleLog(battery: Battery, l: Log, at: nat): Log
  {
    var status := Read(BatteryStatus, battery, at, true);
    var afterStatus := ReadLog(l, BatteryStatus, battery, at, true);
    if Has(status.value, Discharging) then
      ReadLog(afterStatus, RelativeStateOfCharge, battery, After(at, status), false)
    else afterStatus
  }

  /** The last register read of the cycle beginning at the at-th sample:
      the state of charge when BatteryStatus has the discharging bit, the
      status otherwise. `error` after the cycle is that read's. */
  function LastRead(battery: Battery, at: nat): Outcome
  {
    var status := Read(BatteryStatus, battery, at, true);
    if Has(status.value, Discharging) then Read(RelativeStateOfCharge, battery, After(at, status), false)
    else status
  }

  /** 0xFFFF, what an absent battery reads as, has the discharging bit. */
  lemma AllOnesDischarging()
    ensures Has(0xFFFF, Discharging)
  {
  }

  /** With no battery on the bus a cycle reads BatteryStatus twice, takes
      0xFFFF for "discharging", reads the state of charge twice, and issues
      nothing: 0xFFFF is above every threshold, and `led_on` is kept. */
  lemma DeadBattery(at: nat, ledOn: bool)
    ensures CycleOf(Absent(), at, ledOn) == Cycle(NoAction, ledOn, at + 4 * TransactionLevels)
  {
    AbsentRegister(BatteryStatus, at, true);
    AllOnesDischarging();
    AbsentRegister(RelativeStateOfCharge, at + 2 * TransactionLevels, false);
  }

  /** A battery that acknowledges, reports a status with the discharging bit
      and then a state of charge below 150 is read once for each, and the
      thresholds see that charge. */
  lemma DischargingCycle(battery: Battery, at: nat, ledOn: bool, status: word, soc: word)
    requires Answers(battery, at, status) && status != 0xFFFF && Has(status, Discharging)
    requires Answers(battery, at + TransactionLevels, soc) && soc < 150
    ensures var d := Decide(OnBattery(soc), ledOn);
      CycleOf(battery, at, ledOn) == Cycle(d.action, d.ledOn, at + 2 * TransactionLevels)
  {
    PlausibleRead(BatteryStatus, battery, at, status, true);
    PlausibleRead(RelativeStateOfCharge, battery, at + TransactionLevels, soc, false);
  }

  /** A battery that acknowledges and reports a status without the
      discharging bit is read once, its charge is not read, and the LED is
      put out if it was on. */
  lemma ChargingCycle(battery: Battery, at: nat, ledOn: bool, status: word)
    requires Answers(battery, at, status) && status != 0xFFFF && !Has(status, Discharging)
    ensures CycleOf(battery, at, ledOn)
            == Cycle(if ledOn then WarningOff else NoAction, false, at + TransactionLevels)
  {
    PlausibleRead(BatteryStatus, battery, at, status, true);
  }

  /** What n cycles from the at-th sample issue, in order, and what they
      leave. */
  datatype Polled = Polled(actions: seq<Action>, ledOn: bool, next: nat)

  function Poll(battery: Battery, at: nat, ledOn: bool, n: nat): (p: Polled)
    ensures |p.actions| == n
  {
    if n == 0 then Polled([], ledOn, at)
    else
      var p := Poll(battery, at, ledOn, n - 1);
      var c := CycleOf(battery, p.next, p.ledOn);
      Polled(p.actions + [c.action], c.ledOn, c.next)
  }

  /** The line log of n cycles from the at-th sample on, in order. */
  function PollLog(battery: Battery, l: Log, at: nat, ledOn: bool, n: nat): Log
  {
    if n == 0 then l
    else CycleLog(battery, PollLog(battery, l, at, ledOn, n - 1), Poll(battery, at, ledOn, n - 1).next)
  }

  /** The LED commands among the actions, in order. */
  function Warnings(actions: seq<Action>): (w: seq<Action>)
    ensures forall a :: a in w <==> a in actions && (a == WarningOn || a == WarningOff)
  {
    if actions == [] then []
    else
      var last := actions[|actions| - 1];
      Warnings(actions[..|actions| - 1]) + (if last == WarningOn || last == WarningOff then [last] else [])
  }

  /** The monitor never repeats an LED command: from the LED's initial state
      the commands alternate, starting with "on" when it starts off, and the
      LED is on at the end iff an odd number of commands flipped it from its
      initial state. */
  lemma {:induction false} WarningsAlternate(battery: Battery, at: nat, ledOn: bool, n: nat)
    ensures var p := Poll(battery, at, ledOn, n);
      var w := Warnings(p.actions);
      && (p.ledOn <==> (ledOn != (|w| % 2 == 1)))
      && forall i :: 0 <= i < |w| ==> (w[i] == WarningOn <==> ((i % 2 == 0) != ledOn))
  {
    if n > 0 {
      WarningsAlternate(battery, at, ledOn, n - 1);
      var p := Poll(battery, at, ledOn, n - 1);
      CycleToggles(battery, p.next, p.ledOn);
      var c := CycleOf(battery, p.next, p.ledOn);
      WarningsStep(p.actions, c.action, ledOn, p.ledOn, c.ledOn);
    }
  }

  /** A cycle issues an LED command exactly when it changes `led_on`. */
  lemma CycleToggles(battery: Battery, at: nat, ledOn: bool)
    ensures var c := CycleOf(battery, at, ledOn);
      && (c.action == WarningOn <==> !ledOn && c.ledOn)
      && (c.action == WarningOff <==> ledOn && !c.ledOn)
  {
    var status := Read(BatteryStatus, battery, at, true);
    if Has(status.value, Discharging) {
      var soc := Read(RelativeStateOfCharge, battery, After(at, status), false);
      var d := Decide(OnBattery(soc.value), ledOn);
    }
  }

  /** One more action keeps the commands alternating. */
  lemma WarningsStep(actions: seq<Action>, a: Action, start: bool, before: bool, after: bool)
    requires var w := Warnings(actions);
      && (before <==> (start != (|w| % 2 == 1)))
      && forall i :: 0 <= i < |w| ==> (w[i] == WarningOn <==> ((i % 2 == 0) != start))
    requires a == WarningOn <==> !before && after
    requires a == WarningOff <==> before && !after
    ensures var w := Warnings(actions + [a]);
      && (after <==> (start != (|w| % 2 == 1)))
      && forall i :: 0 <= i < |w| ==> (w[i] == WarningOn <==> ((i % 2 == 0) != start))
  {
    var acts := actions + [a];
    assert acts[..|acts| - 1] == actions;
  }

  /** The poll loop of one monitor: the bus it reads, and `led_on`. */
  class Monitor {
    var ledOn: bool
    const bus: Bus

    ghost predicate Valid()
      reads this, bus
    {
      Ready(bus)
    }

    /** `setupbus()` and `led_on = 0`. */
    constructor Start(battery: Battery)
      ensures Valid() && fresh(bus) && !ledOn
      ensures bus.battery == battery && bus.taken == 0
    {
      ledOn := false;
      bus := new Bus.Setup(battery);
    }

    /** One pass of the `while(1)` body. */
    method PollOnce() returns (action: Action)
      requires Valid()
      modifies this, bus
      ensures Valid()
      ensures Cycle(action, ledOn, bus.taken) == CycleOf(bus.battery, old(bus.taken), old(ledOn))
      ensures bus.log == CycleLog(bus.battery, old(bus.log), old(bus.taken))
      ensures bus.error == LastRead(bus.battery, old(bus.taken)).error
    {
      var status := ReadRegister(bus, BatteryStatus, true);
      var supply := OnCharger;
      if Has(status, Discharging) {
        var soc := ReadRegister(bus, RelativeStateOfCharge, false);
        supply := OnBattery(soc);
      }
      var d := Decide(supply, ledOn);
      action := d.action;
      ledOn := d.ledOn;
    }

    /** The first n passes of the loop, with the actions they issue. */
    method Run(n: nat) returns (actions: seq<Action>)
      requires Valid()
      modifies this, bus
      ensures Valid()
      ensures Polled(actions, ledOn, bus.taken) == Poll(bus.battery, old(bus.taken), old(ledOn), n)
      ensures bus.log == PollLog(bus.battery, old(bus.log), old(bus.taken), old(ledOn), n)
    {
      ghost var start, startLed, startLog := bus.taken, ledOn, bus.log;
      actions := [];
      var i := 0;
      while i < n
        invariant 0 <= i <= n && Valid()
        invariant Polled(actions, ledOn, bus.taken) == Poll(bus.battery, start, startLed, i)
        invariant bus.log == PollLog(bus.battery, startLog, start, startLed, i)
      {
        ghost var at, logBefore := bus.taken, bus.log;
        var action := PollOnce();
        assert PollLog(bus.battery, startLog, start, startLed, i + 1) == CycleLog(bus.battery, logBefore, at);
        actions := actions + [action];
        i := i + 1;
      }
    }
  }
}
