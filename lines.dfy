/** The two open-drain lines of the bit-banged SMBus master and what an
    observer on the wire sees while the master works them.

    The master can only release a line (the pull-up resistor, or the battery,
    then decides its level) or pull it low. There is no driven-high state:
    neither `Level` nor `Event` has a constructor for one. */
module Lines {

  /** How the master leaves a line. */
  datatype Level = Floating | Low

  datatype Line = Clock | Data

  /** One step of the master: `go_z`, `go_0`, or the level `read_pin` returns. */
  datatype Event =
    | Float(line: Line)
    | DriveLow(line: Line)
    | Sample(line: Line, high: bool)

  /** The master's setting of both lines. */
  datatype Wire = Wire(clock: Level, data: Level)

  /** Both lines released: the bus between transactions. */
  const Idle := Wire(Floating, Floating)

  /** Everything the master has done on the lines, most recent step last. */
  datatype Log = Boot | Then(before: Log, event: Event)

  /** What a receiver or a logic analyser on the bus distinguishes. */
  datatype Observation =
      /** the clock is released from low; a receiver latches data (Floating reads as 1) */
    | ClockRise(data: Level)
      /** the master reads the data line while the clock has the given setting */
    | Sampled(clock: Level, high: bool)
      /** data is pulled low while the clock is released: start or repeated start */
    | StartCondition
      /** data is released while the clock is released: stop */
    | StopCondition

  function Set(w: Wire, line: Line, level: Level): Wire
  {
    match line
    case Clock => w.(clock := level)
    case Data => w.(data := level)
  }

  /** The line settings after one event. */
  function Next(w: Wire, e: Event): Wire
  {
    match e
    case Float(l) => Set(w, l, Floating)
    case DriveLow(l) => Set(w, l, Low)
    case Sample(_, _) => w
  }

  /** What one event, applied to the settings `w`, shows on the bus. */
  function Seen(w: Wire, e: Event): seq<Observation>
  {
    match e
    case Float(Clock) => if w.clock == Low then [ClockRise(w.data)] else []
    case Float(Data) => if w.clock == Floating && w.data == Low then [StopCondition] else []
    case DriveLow(Data) => if w.clock == Floating && w.data == Floating then [StartCondition] else []
    case DriveLow(Clock) => []
    case Sample(l, h) => if l == Data then [Sampled(w.clock, h)] else []
  }

  /** The line settings a log leads to; both lines start released. */
  function Run(l: Log): Wire
  {
    match l
    case Boot => Idle
    case Then(before, e) => Next(Run(before), e)
  }

  /** Everything a log shows on the bus, in order. */
  function Observed(l: Log): seq<Observation>
  {
    match l
    case Boot => []
    case Then(before, e) => Observed(before) + Seen(Run(before), e)
  }
}
