/** The bit-banged SMBus master: the line steps of the framing conditions,
    of sending a byte and of reading a word, what each of them shows on the
    bus, and the engine itself as a class. The busy waits between the steps
    are not part of the model. */
module Engine {
  import opened Lines
  import opened Bits

  /** 7-bit address 0x0B with the write bit clear, and with the read bit set. */
  const WriteAddress: byte := 0x16
  const ReadAddress: byte := 0x17

  // ---------------------------------------------------------------------
  // The battery as seen by the master: `battery(i)` is the level the i-th
  // sample of the data line returns. A battery that is absent leaves the
  // line at the level of its pull-up resistor, high, for every sample.

  type Battery = nat -> bool

  /** The n levels sampled from the at-th sample on. */
  function Levels(battery: Battery, at: nat, n: nat): (levels: seq<bool>)
    ensures |levels| == n
  {
    seq(n, i requires 0 <= i < n => battery(at + i))
  }

  // ---------------------------------------------------------------------
  // The line steps, one function per engine routine, each extending the log.

  /** `startbus`: data low, then clock low. */
  function StartLog(l: Log): Log
  {
    Then(Then(l, DriveLow(Data)), DriveLow(Clock))
  }

  /** One data bit of `send8`: set data, then a clock pulse. */
  function BitSlotLog(l: Log, high: bool): Log
  {
    Then(Then(Then(l, if high then Float(Data) else DriveLow(Data)), Float(Clock)), DriveLow(Clock))
  }

  /** The first k data bits of `send8`, most significant first. */
  function SendBitsLog(l: Log, b: byte, k: nat): Log
    requires k <= 8
  {
    if k == 0 then l else BitSlotLog(SendBitsLog(l, b, k - 1), BitSet(b, k - 1))
  }

  /** The acknowledge clock of `send8`: data released, clock released, data
      sampled (`nack` is the level read), both lines low again. */
  function AckCheckLog(l: Log, nack: bool): Log
  {
    Then(Then(Then(Then(Then(Then(l,
      Float(Data)), Float(Clock)), Float(Data)), Sample(Data, nack)), DriveLow(Clock)), DriveLow(Data))
  }

  function Send8Log(l: Log, b: byte, nack: bool): Log
  {
    AckCheckLog(SendBitsLog(l, b, 8), nack)
  }

  /** `sendrptstart`: data released, clock released, data low, clock low. */
  function RepeatedStartLog(l: Log): Log
  {
    Then(Then(Then(Then(l, Float(Data)), Float(Clock)), DriveLow(Data)), DriveLow(Clock))
  }

  /** One data bit of `read16`: data released, sampled while the clock is
      low, then a clock pulse. */
  function ReadSlotLog(l: Log, high: bool): Log
  {
    Then(Then(Then(Then(Then(l, Float(Data)), Float(Data)), Sample(Data, high)), Float(Clock)), DriveLow(Clock))
  }

  /** The acknowledge clock `read16` gives after a byte: data pulled low
      (ack) or released (nack) during a clock pulse, then both lines low. */
  function AnswerLog(l: Log, ack: bool): Log
  {
    Then(Then(Then(Then(l, if ack then DriveLow(Data) else Float(Data)), Float(Clock)), DriveLow(Clock)), DriveLow(Data))
  }

  /** One bit of `read16`, with the ack after the eighth. */
  function ReadStepLog(l: Log, high: bool, ackAfter: bool): Log
  {
    if ackAfter then AnswerLog(ReadSlotLog(l, high), true) else ReadSlotLog(l, high)
  }

  /** The first k bits of `read16`. */
  function ReadBitsLog(l: Log, levels: seq<bool>, k: nat): Log
    requires k <= |levels|
  {
    if k == 0 then l else ReadStepLog(ReadBitsLog(l, levels, k - 1), levels[k - 1], k == 8)
  }

  /** `read16`: sixteen data bits, ack after the low byte, nack after the high byte. */
  function Read16Log(l: Log, levels: seq<bool>): Log
    requires |levels| == 16
  {
    AnswerLog(ReadBitsLog(l, levels, 16), false)
  }

  /** `stopbus`: clock released first, then data. */
  function StopLog(l: Log): Log
  {
    Then(Then(l, Float(Clock)), Float(Data))
  }

  /** A whole SMBus Read Word of register `code`: start, write address,
      command code, repeated start, read address, the word, stop, with the
      battery's levels sampled from the at-th sample on. */
  function TransactionLog(l: Log, code: byte, battery: Battery, at: nat): Log
  {
    StopLog(Read16Log(AddressingLog(l, code, battery, at), Levels(battery, at + 3, 16)))
  }

  /** The part of a Read Word before the data: start, write address, command
      code, repeated start, read address. */
  function AddressingLog(l: Log, code: byte, battery: Battery, at: nat): Log
  {
    Send8Log(RepeatedStartLog(CommandLog(l, code, battery, at)), ReadAddress, battery(at + 2))
  }

  /** Start, write address, command code. */
  function CommandLog(l: Log, code: byte, battery: Battery, at: nat): Log
  {
    Send8Log(Send8Log(StartLog(l), WriteAddress, battery(at)), code, battery(at + 1))
  }

  // ---------------------------------------------------------------------
  // What each routine shows on the bus.

  function DataLevel(high: bool): Level
  {
    if high then Floating else Low
  }

  /** The clock edges that carry the bits of `b`, most significant first. */
  function ByteEdges(b: byte, k: nat): (obs: seq<Observation>)
    requires k <= 8
    ensures |obs| == k
    ensures forall i :: 0 <= i < k ==> obs[i] == ClockRise(DataLevel(BitSet(b, i)))
  {
    seq(k, i requires 0 <= i < k => ClockRise(DataLevel(BitSet(b, i))))
  }

  /** `send8` as seen on the bus: eight clock edges carrying the bits, then a
      ninth with data released, during which the master samples the ack. */
  function Send8Seen(b: byte, nack: bool): seq<Observation>
  {
    ByteEdges(b, 8) + [ClockRise(Floating), Sampled(Floating, nack)]
  }

  /** The first k bits of `read16` as seen on the bus: each sampled while the
      clock is low, then clocked with data released; after the eighth, one
      more clock edge with data held low (the master's ack). */
  function ReadBitsSeen(levels: seq<bool>, k: nat): seq<Observation>
    requires k <= |levels|
  {
    if k == 0 then [] else ReadBitsSeen(levels, k - 1) + ReadStepSeen(levels[k - 1], k == 8)
  }

  /** The bus events of one more bit of `read16`. */
  function ReadStepSeen(high: bool, ackAfter: bool): seq<Observation>
  {
    [Sampled(Low, high), ClockRise(Floating)] + (if ackAfter then [ClockRise(Low)] else [])
  }

  /** `read16` as seen on the bus: sixteen samples with their clock edges, the
      ack edge after the eighth, and a last edge with data released (nack). */
  function Read16Seen(levels: seq<bool>): seq<Observation>
    requires |levels| == 16
  {
    ReadBitsSeen(levels, 16) + [ClockRise(Floating)]
  }

  /** A receiver latching data on every clock edge, Floating read as 1. */
  function Latched(obs: seq<Observation>): seq<bool>
    decreases |obs|
  {
    if obs == [] then []
    else (if obs[0].ClockRise? then [obs[0].data == Floating] else []) + Latched(obs[1..])
  }

  /** The levels the master read, in order. */
  function Samples(obs: seq<Observation>): seq<bool>
    decreases |obs|
  {
    if obs == [] then []
    else (if obs[0].Sampled? then [obs[0].high] else []) + Samples(obs[1..])
  }

  lemma {:induction false} LatchedAppend(a: seq<Observation>, b: seq<Observation>)
    ensures Latched(a + b) == Latched(a) + Latched(b)
    ensures Samples(a + b) == Samples(a) + Samples(b)
    decreases |a|
  {
    SamplesAppend(a, b);
    if a == [] {
      assert a + b == b;
    } else {
      var h := if a[0].ClockRise? then [a[0].data == Floating] else [];
      assert (a + b)[0] == a[0] && (a + b)[1..] == a[1..] + b;
      assert Latched(a + b) == h + Latched(a[1..] + b);
      LatchedAppend(a[1..], b);
      assert h + (Latched(a[1..]) + Latched(b)) == (h + Latched(a[1..])) + Latched(b);
    }
  }

  lemma {:induction false} SamplesAppend(a: seq<Observation>, b: seq<Observation>)
    ensures Samples(a + b) == Samples(a) + Samples(b)
    decreases |a|
  {
    if a == [] {
      assert a + b == b;
    } else {
      var h := if a[0].Sampled? then [a[0].high] else [];
      assert (a + b)[0] == a[0] && (a + b)[1..] == a[1..] + b;
      assert Samples(a + b) == h + Samples(a[1..] + b);
      SamplesAppend(a[1..], b);
      assert h + (Samples(a[1..]) + Samples(b)) == (h + Samples(a[1..])) + Samples(b);
    }
  }

  /** What one observation alone latches and samples. */
  lemma LatchedOne(o: Observation)
    ensures Latched([o]) == if o.ClockRise? then [o.data == Floating] else []
    ensures Samples([o]) == if o.Sampled? then [o.high] else []
  {
    assert [o][1..] == [];
  }

  /** Two observations latch and sample what each does, in order. */
  lemma LatchedPair(o: Observation, p: Observation)
    ensures Latched([o, p]) == Latched([o]) + Latched([p])
    ensures Samples([o, p]) == Samples([o]) + Samples([p])
    ensures Latched([o]) == if o.ClockRise? then [o.data == Floating] else []
    ensures Samples([o]) == if o.Sampled? then [o.high] else []
  {
    LatchedAppend([o], [p]);
    assert [o] + [p] == [o, p];
    LatchedOne(o);
  }

  /** `startbus` from an idle bus: one start condition, both lines left low. */
  lemma StartObserved(l: Log)
    requires Run(l) == Idle
    ensures Observed(StartLog(l)) == Observed(l) + [StartCondition]
    ensures Run(StartLog(l)) == Wire(Low, Low)
  {
  }

  /** One data bit of `send8`, clock low beforehand: exactly one clock edge,
      with data released iff the bit is 1, and the clock low again after. */
  lemma BitSlotObserved(l: Log, high: bool)
    requires Run(l).clock == Low
    ensures Observed(BitSlotLog(l, high)) == Observed(l) + [ClockRise(DataLevel(high))]
    ensures Run(BitSlotLog(l, high)) == Wire(Low, DataLevel(high))
  {
    var l1 := Then(l, if high then Float(Data) else DriveLow(Data));
    assert Observed(l1) == Observed(l);
    var l2 := Then(l1, Float(Clock));
    assert Observed(l2) == Observed(l) + [ClockRise(DataLevel(high))];
  }

  /** The first k bits of `send8` give the clock edges of the first k bits of
      the byte, most significant first, and never a start or stop. */
  lemma {:induction false} SendBitsObserved(l: Log, b: byte, k: nat)
    requires Run(l).clock == Low && k <= 8
    ensures Observed(SendBitsLog(l, b, k)) == Observed(l) + ByteEdges(b, k)
    ensures Run(SendBitsLog(l, b, k)).clock == Low
  {
    if k > 0 {
      SendBitsObserved(l, b, k - 1);
      BitSlotObserved(SendBitsLog(l, b, k - 1), BitSet(b, k - 1));
      assert ByteEdges(b, k) == ByteEdges(b, k - 1) + [ClockRise(DataLevel(BitSet(b, k - 1)))];
    }
  }

  /** The acknowledge clock of `send8`: one edge with data released, the
      sample taken while the clock is released, both lines low after. */
  lemma AckObserved(l: Log, nack: bool)
    requires Run(l).clock == Low
    ensures Observed(AckCheckLog(l, nack)) == Observed(l) + [ClockRise(Floating), Sampled(Floating, nack)]
    ensures Run(AckCheckLog(l, nack)) == Wire(Low, Low)
  {
    var l2 := Then(Then(l, Float(Data)), Float(Clock));
    assert Observed(l2) == Observed(l) + [ClockRise(Floating)];
    var l4 := Then(Then(l2, Float(Data)), Sample(Data, nack));
    assert Observed(l4) == Observed(l) + [ClockRise(Floating), Sampled(Floating, nack)];
  }

  /** `send8` with the clock low beforehand: the eight bit edges, the ack
      edge and its sample; both lines low after. */
  lemma Send8Observed(l: Log, b: byte, nack: bool)
    requires Run(l).clock == Low
    ensures Observed(Send8Log(l, b, nack)) == Observed(l) + Send8Seen(b, nack)
    ensures Run(Send8Log(l, b, nack)) == Wire(Low, Low)
  {
    SendBitsObserved(l, b, 8);
    AckObserved(SendBitsLog(l, b, 8), nack);
  }

  /** A receiver latching data on the clock edges of `send8` gets the byte,
      most significant bit first. */
  lemma {:induction false} ByteEdgesLatched(b: byte, k: nat)
    requires k <= 8
    ensures Latched(ByteEdges(b, k)) == MsbBits(b)[..k]
  {
    if k > 0 {
      ByteEdgesLatched(b, k - 1);
      assert ByteEdges(b, k) == ByteEdges(b, k - 1) + [ClockRise(DataLevel(BitSet(b, k - 1)))];
      LatchedAppend(ByteEdges(b, k - 1), [ClockRise(DataLevel(BitSet(b, k - 1)))]);
      LatchedPair(ClockRise(DataLevel(BitSet(b, k - 1))), ClockRise(Low));
      assert MsbBits(b)[..k] == MsbBits(b)[..k - 1] + [MsbBits(b)[k - 1]];
    }
  }

  /** Clock edges alone carry no sample. */
  lemma {:induction false} NoSamples(obs: seq<Observation>)
    requires forall i :: 0 <= i < |obs| ==> obs[i].ClockRise?
    ensures Samples(obs) == []
    decreases |obs|
  {
    if obs != [] {
      NoSamples(obs[1..]);
    }
  }

  /** What the battery receives from `send8` is exactly the byte sent, then
      the released ack bit; the master samples once, during the ack clock. */
  lemma Send8Received(b: byte, nack: bool)
    ensures Latched(Send8Seen(b, nack)) == MsbBits(b) + [true]
    ensures ByteOf(Latched(Send8Seen(b, nack))[..8]) == b
    ensures Samples(Send8Seen(b, nack)) == [nack]
  {
    ByteEdgesLatched(b, 8);
    assert MsbBits(b)[..8] == MsbBits(b);
    LatchedAppend(ByteEdges(b, 8), [ClockRise(Floating), Sampled(Floating, nack)]);
    LatchedPair(ClockRise(Floating), Sampled(Floating, nack));
    LatchedOne(Sampled(Floating, nack));
    assert (MsbBits(b) + [true])[..8] == MsbBits(b);
    ByteRoundTrip(b);
    NoSamples(ByteEdges(b, 8));
  }

  /** `sendrptstart` with the clock low beforehand: a clock edge with data
      released, then a start condition; both lines low after. */
  lemma RepeatedStartObserved(l: Log)
    requires Run(l).clock == Low
    ensures Observed(RepeatedStartLog(l)) == Observed(l) + [ClockRise(Floating), StartCondition]
    ensures Run(RepeatedStartLog(l)) == Wire(Low, Low)
  {
    var l2 := Then(Then(l, Float(Data)), Float(Clock));
    assert Observed(l2) == Observed(l) + [ClockRise(Floating)];
  }

  /** One data bit of `read16`: sampled while the clock is low, then one clock
      edge with data released. */
  lemma ReadSlotObserved(l: Log, high: bool)
    requires Run(l).clock == Low
    ensures Observed(ReadSlotLog(l, high)) == Observed(l) + [Sampled(Low, high), ClockRise(Floating)]
    ensures Run(ReadSlotLog(l, high)) == Wire(Low, Floating)
  {
    var l3 := Then(Then(Then(l, Float(Data)), Float(Data)), Sample(Data, high));
    SampleObserved(l, high);
    assert ReadSlotLog(l, high) == Then(Then(l3, Float(Clock)), DriveLow(Clock));
    assert Observed(Then(l3, Float(Clock))) == Observed(l3) + [ClockRise(Floating)];
  }

  /** The first three steps of a bit of `read16`: data released twice, then
      sampled with the clock low. */
  lemma SampleObserved(l: Log, high: bool)
    requires Run(l).clock == Low
    ensures Observed(Then(Then(Then(l, Float(Data)), Float(Data)), Sample(Data, high)))
            == Observed(l) + [Sampled(Low, high)]
    ensures Run(Then(Then(Then(l, Float(Data)), Float(Data)), Sample(Data, high))) == Wire(Low, Floating)
  {
    var l2 := Then(Then(l, Float(Data)), Float(Data));
    assert Run(l2) == Wire(Low, Floating) && Observed(l2) == Observed(l);
  }

  /** The ack clocks of `read16`: one clock edge, data held low for an ack
      and released for a nack, no sample; both lines low after. */
  lemma AnswerObserved(l: Log, ack: bool)
    requires Run(l).clock == Low
    ensures Observed(AnswerLog(l, ack)) == Observed(l) + [ClockRise(if ack then Low else Floating)]
    ensures Run(AnswerLog(l, ack)) == Wire(Low, Low)
  {
    var l2 := Then(Then(l, if ack then DriveLow(Data) else Float(Data)), Float(Clock));
    assert Observed(l2) == Observed(l) + [ClockRise(if ack then Low else Floating)];
  }

  /** One bit of `read16` with its ack. */
  lemma ReadStepObserved(l: Log, high: bool, ackAfter: bool)
    requires Run(l).clock == Low
    ensures Observed(ReadStepLog(l, high, ackAfter)) == Observed(l) + ReadStepSeen(high, ackAfter)
    ensures Run(ReadStepLog(l, high, ackAfter)).clock == Low
  {
    ReadSlotObserved(l, high);
    if ackAfter {
      AnswerObserved(ReadSlotLog(l, high), true);
    }
  }

  /** The first k bits of `read16`, clock low beforehand. */
  lemma {:induction false} ReadBitsObserved(l: Log, levels: seq<bool>, k: nat)
    requires Run(l).clock == Low && k <= |levels|
    ensures Observed(ReadBitsLog(l, levels, k)) == Observed(l) + ReadBitsSeen(levels, k)
    ensures Run(ReadBitsLog(l, levels, k)).clock == Low
  {
    if k > 0 {
      ReadBitsObserved(l, levels, k - 1);
      ReadStepObserved(ReadBitsLog(l, levels, k - 1), levels[k - 1], k == 8);
      assert Observed(l) + ReadBitsSeen(levels, k - 1) + ReadStepSeen(levels[k - 1], k == 8)
             == Observed(l) + ReadBitsSeen(levels, k);
    }
  }

  /** `read16`, clock low beforehand: what it shows, and both lines low after. */
  lemma Read16Observed(l: Log, levels: seq<bool>)
    requires Run(l).clock == Low && |levels| == 16
    ensures Observed(Read16Log(l, levels)) == Observed(l) + Read16Seen(levels)
    ensures Run(Read16Log(l, levels)) == Wire(Low, Low)
  {
    ReadBitsObserved(l, levels, 16);
    AnswerObserved(ReadBitsLog(l, levels, 16), false);
  }

  /** The bits a receiver latches on the first k bit clocks of `read16`:
      all released except the ninth clock edge, the master's ack. */
  function AckPattern(k: nat): (bits: seq<bool>)
    ensures |bits| == if k >= 8 then k + 1 else k
  {
    seq(if k >= 8 then k + 1 else k, i => i != 8)
  }

  /** What one bit of `read16` shows to a receiver and to the master. */
  lemma ReadStepExchange(high: bool, ackAfter: bool)
    ensures Samples(ReadStepSeen(high, ackAfter)) == [high]
    ensures Latched(ReadStepSeen(high, ackAfter)) == [true] + (if ackAfter then [false] else [])
  {
    var c: seq<Observation> := if ackAfter then [ClockRise(Low)] else [];
    LatchedAppend([Sampled(Low, high), ClockRise(Floating)], c);
    LatchedPair(Sampled(Low, high), ClockRise(Floating));
    LatchedPair(ClockRise(Floating), ClockRise(Low));
    LatchedOne(ClockRise(Low));
  }

  lemma ReadBitsExchange(levels: seq<bool>, k: nat)
    requires k <= |levels|
    ensures Samples(ReadBitsSeen(levels, k)) == levels[..k]
    ensures Latched(ReadBitsSeen(levels, k)) == AckPattern(k)
  {
    ReadBitsSampled(levels, k);
    ReadBitsLatched(levels, k);
  }

  lemma {:induction false} ReadBitsSampled(levels: seq<bool>, k: nat)
    requires k <= |levels|
    ensures Samples(ReadBitsSeen(levels, k)) == levels[..k]
  {
    if k > 0 {
      var a := ReadBitsSeen(levels, k - 1);
      var s := ReadStepSeen(levels[k - 1], k == 8);
      assert ReadBitsSeen(levels, k) == a + s;
      ReadBitsSampled(levels, k - 1);
      SamplesAppend(a, s);
      ReadStepExchange(levels[k - 1], k == 8);
      assert levels[..k] == levels[..k - 1] + [levels[k - 1]];
    }
  }

  lemma {:induction false} ReadBitsLatched(levels: seq<bool>, k: nat)
    requires k <= |levels|
    ensures Latched(ReadBitsSeen(levels, k)) == AckPattern(k)
  {
    if k > 0 {
      var a := ReadBitsSeen(levels, k - 1);
      var s := ReadStepSeen(levels[k - 1], k == 8);
      assert ReadBitsSeen(levels, k) == a + s;
      ReadBitsLatched(levels, k - 1);
      LatchedAppend(a, s);
      ReadStepExchange(levels[k - 1], k == 8);
      AckPatternStep(k);
    }
  }

  lemma AckPatternStep(k: nat)
    requires k > 0
    ensures AckPattern(k) == AckPattern(k - 1) + [true] + (if k == 8 then [false] else [])
  {
  }

  /** `read16` samples exactly the sixteen levels, in order, and nothing
      during its two ack clocks; the battery sees an ack (data low) on the
      ninth clock edge and a nack (data released) on the eighteenth. */
  lemma Read16Exchange(levels: seq<bool>)
    requires |levels| == 16
    ensures Samples(Read16Seen(levels)) == levels
    ensures Latched(Read16Seen(levels)) == seq(18, i => i != 8)
  {
    Read16Sampled(levels);
    Read16Latched(levels);
  }

  lemma Read16Sampled(levels: seq<bool>)
    requires |levels| == 16
    ensures Samples(Read16Seen(levels)) == levels
  {
    ReadBitsSampled(levels, 16);
    SamplesAppend(ReadBitsSeen(levels, 16), [ClockRise(Floating)]);
    LatchedOne(ClockRise(Floating));
    assert levels[..16] == levels;
  }

  lemma Read16Latched(levels: seq<bool>)
    requires |levels| == 16
    ensures Latched(Read16Seen(levels)) == seq(18, i => i != 8)
  {
    ReadBitsLatched(levels, 16);
    LatchedAppend(ReadBitsSeen(levels, 16), [ClockRise(Floating)]);
    LatchedOne(ClockRise(Floating));
    assert AckPattern(16) + [true] == seq(18, i => i != 8);
  }

  /** `stopbus` from both lines low: a clock edge, then the stop condition;
      the clock is released before data and both are left released. */
  lemma StopObserved(l: Log)
    requires Run(l) == Wire(Low, Low)
    ensures Observed(StopLog(l)) == Observed(l) + [ClockRise(Low), StopCondition]
    ensures Run(StopLog(l)) == Idle
  {
  }

  /** A whole Read Word from an idle bus: start, the three bytes sent with
      their acks, the repeated start, the word and the stop; the bus is idle
      again after. */
  lemma TransactionObserved(l: Log, code: byte, battery: Battery, at: nat)
    requires Run(l) == Idle
    ensures Observed(TransactionLog(l, code, battery, at))
            == Observed(l)
               + [StartCondition]
               + Send8Seen(WriteAddress, battery(at))
               + Send8Seen(code, battery(at + 1))
               + [ClockRise(Floating), StartCondition]
               + Send8Seen(ReadAddress, battery(at + 2))
               + Read16Seen(Levels(battery, at + 3, 16))
               + [ClockRise(Low), StopCondition]
    ensures Run(TransactionLog(l, code, battery, at)) == Idle
  {
    var l0 := StartLog(l);
    StartObserved(l);
    var l1 := Send8Log(l0, WriteAddress, battery(at));
    Send8Observed(l0, WriteAddress, battery(at));
    var l2 := Send8Log(l1, code, battery(at + 1));
    Send8Observed(l1, code, battery(at + 1));
    var l3 := RepeatedStartLog(l2);
    RepeatedStartObserved(l2);
    var l4 := Send8Log(l3, ReadAddress, battery(at + 2));
    Send8Observed(l3, ReadAddress, battery(at + 2));
    var l5 := Read16Log(l4, Levels(battery, at + 3, 16));
    Read16Observed(l4, Levels(battery, at + 3, 16));
    StopObserved(l5);
  }

  // ---------------------------------------------------------------------
  // One transaction in terms of the battery's levels.

  /** The levels one Read Word samples: three acks and sixteen data bits. */
  const TransactionLevels := 19

  /** Some byte of the transaction from the at-th sample on was not
      acknowledged. */
  predicate Nacked(battery: Battery, at: nat)
  {
    battery(at) || battery(at + 1) || battery(at + 2)
  }

  /** The word `read16` assembles in that transaction. */
  function WordRead(battery: Battery, at: nat): word
  {
    WordOf(Levels(battery, at + 3, 16))
  }

  /** The battery acknowledges the three bytes of the transaction from the
      at-th sample on and then presents `w`. */
  predicate Answers(battery: Battery, at: nat, w: word)
  {
    && !battery(at) && !battery(at + 1) && !battery(at + 2)
    && Levels(battery, at + 3, 16) == PresentedBits(w)
  }

  /** Against a battery that answers with `w`, the master reads exactly `w`
      and sees no nack. */
  lemma AnsweringRead(battery: Battery, at: nat, w: word)
    requires Answers(battery, at, w)
    ensures WordRead(battery, at) == w && !Nacked(battery, at)
  {
    WordRoundTrip(w);
  }

  /** The data line left at its pull-up for every sample. */
  function Absent(): Battery
  {
    i => true
  }

  /** With no battery every byte is nacked and the word reads 0xFFFF. */
  lemma AbsentRead(at: nat)
    ensures WordRead(Absent(), at) == 0xFFFF
    ensures Nacked(Absent(), at)
  {
    var levels := Levels(Absent(), at + 3, 16);
    ByteOfOnes(levels[..8]);
    ByteOfOnes(levels[8..]);
    Pow2Table();
  }

  /** A battery that answers the t-th Read Word on the bus with answers[t]
      and is gone after the last of them. */
  function Serving(answers: seq<word>): Battery
  {
    (i: nat) => ServedLevel(answers, i)
  }

  /** The i-th level `Serving(answers)` presents: the three acks (low), then
      the sixteen bits of its answer. */
  function ServedLevel(answers: seq<word>, i: nat): bool
  {
    var t := i / TransactionLevels;
    var k := i % TransactionLevels;
    if t < |answers| then k >= 3 && PresentedBits(answers[t])[k - 3] else true
  }

  lemma DivMod(t: nat, k: nat)
    requires k < TransactionLevels
    ensures (TransactionLevels * t + k) / TransactionLevels == t
    ensures (TransactionLevels * t + k) % TransactionLevels == k
  {
  }

  /** The k-th level of the t-th transaction against `Serving(answers)`. */
  lemma ServedAt(answers: seq<word>, t: nat, k: nat)
    requires t < |answers| && k < TransactionLevels
    ensures ServedLevel(answers, TransactionLevels * t + k) == (k >= 3 && PresentedBits(answers[t])[k - 3])
  {
    DivMod(t, k);
  }

  /** The t-th transaction against `Serving(answers)` is acknowledged and
      reads answers[t]. */
  lemma ServingAnswers(answers: seq<word>, t: nat)
    requires t < |answers|
    ensures Answers(Serving(answers), TransactionLevels * t, answers[t])
  {
    var at := TransactionLevels * t;
    var bits := PresentedBits(answers[t]);
    var levels := Levels(Serving(answers), at + 3, 16);
    forall i | 0 <= i < 16
      ensures levels[i] == bits[i]
    {
      ServedAt(answers, t, i + 3);
    }
    ServedAt(answers, t, 0);
    ServedAt(answers, t, 1);
    ServedAt(answers, t, 2);
  }

  /** Past its last answer `Serving(answers)` is indistinguishable from an
      absent battery. */
  lemma ServingGone(answers: seq<word>, at: nat)
    requires at >= TransactionLevels * |answers|
    ensures WordRead(Serving(answers), at) == 0xFFFF && Nacked(Serving(answers), at)
  {
    forall i: nat | i >= at
      ensures ServedLevel(answers, i)
    {
      assert i / TransactionLevels >= |answers|;
    }
    assert Levels(Serving(answers), at + 3, 16) == Levels(Absent(), at + 3, 16);
    AbsentRead(at);
  }

  // ---------------------------------------------------------------------
  // The engine with its state: the master's setting of the two lines, the
  // battery on the other end, how many samples have been taken, the global
  // `error` flag, and the log of everything done on the lines.

  class Bus {
    var wire: Wire
    const battery: Battery
    var taken: nat
    var error: bool
    ghost var log: Log

    /** The line settings are those the logged steps lead to. */
    ghost predicate Valid()
      reads this
    {
      wire == Run(log)
    }

    /** `setupbus`: both lines released. The battery's answers are a
        parameter; `error` starts clear. */
    constructor Setup(battery: Battery)
      ensures Valid() && wire == Idle && this.battery == battery && taken == 0 && !error
      ensures log == Then(Then(Boot, Float(Clock)), Float(Data))
    {
      wire := Idle;
      this.battery := battery;
      taken := 0;
      error := false;
      log := Boot;
      new;
      GoZ(Clock);
      GoZ(Data);
    }

    /** `go_z`: release the line. */
    method GoZ(line: Line)
      requires Valid()
      modifies this
      ensures Valid() && wire == Set(old(wire), line, Floating)
      ensures log == Then(old(log), Float(line))
      ensures taken == old(taken) && error == old(error)
    {
      log := Then(log, Float(line));
      wire := Set(wire, line, Floating);
    }

    /** `go_0`: pull the line low. */
    method Go0(line: Line)
      requires Valid()
      modifies this
      ensures Valid() && wire == Set(old(wire), line, Low)
      ensures log == Then(old(log), DriveLow(line))
      ensures taken == old(taken) && error == old(error)
    {
      log := Then(log, DriveLow(line));
      wire := Set(wire, line, Low);
    }

    /** `read_pin` on the data line (the only line the engine reads): release
        it and take the level the battery presents. */
    method ReadPin() returns (high: bool)
      requires Valid()
      modifies this
      ensures Valid() && wire == old(wire).(data := Floating)
      ensures high == battery(old(taken)) && taken == old(taken) + 1
      ensures log == Then(Then(old(log), Float(Data)), Sample(Data, high))
      ensures error == old(error)
    {
      GoZ(Data);
      high := battery(taken);
      log := Then(log, Sample(Data, high));
      taken := taken + 1;
    }

    /** `startbus`: ends with both lines low. */
    method StartBus()
      requires Valid()
      modifies this
      ensures Valid() && wire == Wire(Low, Low)
      ensures log == StartLog(old(log))
      ensures taken == old(taken) && error == old(error)
    {
      Go0(Data);
      Go0(Clock);
    }

    /** One data bit of `send8`. */
    method SendBit(high: bool)
      requires Valid()
      modifies this
      ensures Valid() && wire == Wire(Low, DataLevel(high))
      ensures log == BitSlotLog(old(log), high)
      ensures taken == old(taken) && error == old(error)
    {
      if high {
        GoZ(Data);
      } else {
        Go0(Data);
      }
      GoZ(Clock);
      Go0(Clock);
    }

    /** The acknowledge clock of `send8`: a high sample sets `error`. */
    method AckCheck()
      requires Valid()
      modifies this
      ensures Valid() && wire == Wire(Low, Low)
      ensures log == AckCheckLog(old(log), battery(old(taken)))
      ensures error == (old(error) || battery(old(taken)))
      ensures taken == old(taken) + 1
    {
      GoZ(Data);
      GoZ(Clock);
      var nack := ReadPin();
      if nack {
        error := true;
      }
      Go0(Clock);
      Go0(Data);
    }

    /** `send8`: the eight bits, most significant first, then the ack clock;
        a high ack sample sets `error`, a low one leaves it as it was. Ends
        with both lines low. */
    method Send8(sendbits: byte)
      requires Valid()
      modifies this
      ensures Valid() && wire == Wire(Low, Low)
      ensures log == Send8Log(old(log), sendbits, battery(old(taken)))
      ensures error == (old(error) || battery(old(taken)))
      ensures taken == old(taken) + 1
    {
      var i := 0;
      while i < 8
        invariant 0 <= i <= 8 && Valid()
        invariant log == SendBitsLog(old(log), sendbits, i)
        invariant taken == old(taken) && error == old(error)
      {
        SendBit(BitSet(sendbits, i));
        i := i + 1;
      }
      AckCheck();
    }

    /** `sendrptstart`: ends with both lines low. */
    method SendRptStart()
      requires Valid()
      modifies this
      ensures Valid() && wire == Wire(Low, Low)
      ensures log == RepeatedStartLog(old(log))
      ensures taken == old(taken) && error == old(error)
    {
      GoZ(Data);
      GoZ(Clock);
      Go0(Data);
      Go0(Clock);
    }

    /** One data bit of `read16`: the level sampled while the clock is low. */
    method ReadBit() returns (high: bool)
      requires Valid()
      modifies this
      ensures Valid() && wire == Wire(Low, Floating)
      ensures high == battery(old(taken)) && taken == old(taken) + 1
      ensures log == ReadSlotLog(old(log), high)
      ensures error == old(error)
    {
      GoZ(Data);
      high := ReadPin();
      GoZ(Clock);
      Go0(Clock);
    }

    /** The ack (data low) or nack (data released) clock `read16` gives the
        battery after a byte; it samples nothing. */
    method Answer(ack: bool)
      requires Valid()
      modifies this
      ensures Valid() && wire == Wire(Low, Low)
      ensures log == AnswerLog(old(log), ack)
      ensures taken == old(taken) && error == old(error)
    {
      if ack {
        Go0(Data);
      } else {
        GoZ(Data);
      }
      GoZ(Clock);
      Go0(Clock);
      Go0(Data);
    }

    /** `read16`: sixteen samples ORed into `readval` low byte first, an ack
        after the eighth and a nack after the sixteenth. The result is the
        word the sixteen levels spell, and both lines end low. */
    method Read16() returns (readval: word)
      requires Valid()
      modifies this
      ensures Valid() && wire == Wire(Low, Low)
      ensures readval == WordOf(Levels(battery, old(taken), 16))
      ensures log == Read16Log(old(log), Levels(battery, old(taken), 16))
      ensures taken == old(taken) + 16 && error == old(error)
    {
      ghost var levels := Levels(battery, taken, 16);
      var value: nat := 0;
      var i := 0;
      while i < 16
        invariant 0 <= i <= 16 && Valid()
        invariant value == Accumulated(levels, i)
        invariant log == ReadBitsLog(old(log), levels, i)
        invariant taken == old(taken) + i && error == old(error)
      {
        var high := ReadBit();
        if high {
          value := SetBit(value, ReadBitIndex(i));
        }
        if i == 7 {
          Answer(true);
        }
        i := i + 1;
      }
      Answer(false);
      AccumulatedIsWord(levels);
      readval := value;
    }

    /** `stopbus`: clock released before data; ends with both released. */
    method StopBus()
      requires Valid()
      modifies this
      ensures Valid() && wire == Idle
      ensures log == StopLog(old(log))
      ensures taken == old(taken) && error == old(error)
    {
      GoZ(Clock);
      GoZ(Data);
    }

    /** One SMBus Read Word of register `code`, as each register read in
        both programs spells it out: the word and the nacks are those of the
        next nineteen samples. */
    method ReadWord(code: byte) returns (value: word)
      requires Valid()
      modifies this
      ensures Valid() && wire == Idle
      ensures value == WordRead(battery, old(taken))
      ensures error == (old(error) || Nacked(battery, old(taken)))
      ensures taken == old(taken) + TransactionLevels
      ensures log == TransactionLog(old(log), code, battery, old(taken))
    {
      Address(code);
      value := Read16();
      StopBus();
    }

    /** The addressing part of a Read Word; a nack of any of its three bytes
        sets `error`. */
    method Address(code: byte)
      requires Valid()
      modifies this
      ensures Valid() && wire == Wire(Low, Low)
      ensures error == (old(error) || Nacked(battery, old(taken)))
      ensures taken == old(taken) + 3
      ensures log == AddressingLog(old(log), code, battery, old(taken))
    {
      SendCommand(code);
      SendRptStart();
      Send8(ReadAddress);
    }

    /** Start, then the write address and the command code. */
    method SendCommand(code: byte)
      requires Valid()
      modifies this
      ensures Valid() && wire == Wire(Low, Low)
      ensures error == (old(error) || battery(old(taken)) || battery(old(taken) + 1))
      ensures taken == old(taken) + 2
      ensures log == CommandLog(old(log), code, battery, old(taken))
    {
      StartBus();
      Send8(WriteAddress);
      Send8(code);
    }
  }
}
