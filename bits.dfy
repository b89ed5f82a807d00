/** Bit order on the bus: bytes travel most significant bit first, and a
    word read from the battery arrives low byte first.

    Values are unbounded naturals restricted to 8 or 16 bits by subset types;
    "bit n of x" is defined by halving, so that the proofs below only ever
    divide by 2. */
module Bits {

  type byte = x: int | 0 <= x < 0x100
  type word = x: int | 0 <= x < 0x1_0000

  function Pow2(n: nat): (p: nat)
    ensures p > 0
  {
    if n == 0 then 1 else 2 * Pow2(n - 1)
  }

  /** The masks of bits 4 to 15, and 2^16. */
  lemma Pow2Table()
    ensures Pow2(4) == 0x10 && Pow2(5) == 0x20 && Pow2(6) == 0x40 && Pow2(7) == 0x80
    ensures Pow2(8) == 0x100 && Pow2(9) == 0x200 && Pow2(10) == 0x400 && Pow2(11) == 0x800
    ensures Pow2(12) == 0x1000 && Pow2(14) == 0x4000 && Pow2(15) == 0x8000 && Pow2(16) == 0x1_0000
  {
    assert Pow2(1) == 0x2;
    assert Pow2(2) == 0x4;
    assert Pow2(3) == 0x8;
    assert Pow2(4) == 0x10;
    assert Pow2(5) == 0x20;
    assert Pow2(6) == 0x40;
    assert Pow2(7) == 0x80;
    assert Pow2(8) == 0x100;
    assert Pow2(9) == 0x200;
    assert Pow2(10) == 0x400;
    assert Pow2(11) == 0x800;
    assert Pow2(12) == 0x1000;
    assert Pow2(13) == 0x2000;
    assert Pow2(14) == 0x4000;
    assert Pow2(15) == 0x8000;
    assert Pow2(16) == 0x10000;
  }

  /** x shifted right by n places: x >> n. */
  function Shr(x: nat, n: nat): nat
  {
    if n == 0 then x else Shr(x / 2, n - 1)
  }

  /** (x & (1 << n)) != 0: bit n of x is set. */
  predicate Bit(x: nat, n: nat)
  {
    Shr(x, n) % 2 == 1
  }

  /** Shifting by one place more halves the result once more. */
  lemma {:induction false} ShrSucc(x: nat, n: nat)
    ensures Shr(x, n + 1) == Shr(x, n) / 2
  {
    if n > 0 {
      ShrSucc(x / 2, n - 1);
    }
  }

  /** Shifting a value narrower than n bits right by n places leaves nothing. */
  lemma {:induction false} ShrBelow(x: nat, n: nat)
    requires x < Pow2(n)
    ensures Shr(x, n) == 0
  {
    if n > 0 {
      ShrBelow(x / 2, n - 1);
    }
  }

  /** `(sendbits & m) == m` for the i-th mask `send8` tests, 0x80 down to
      0x01: the i-th bit sent, bit 7 - i of the byte, is set. */
  predicate BitSet(b: byte, i: nat)
    requires i < 8
  {
    Bit(b, 7 - i)
  }

  /** The byte as it goes onto the wire: bit 7 first, bit 0 last. */
  function MsbBits(b: byte): (bits: seq<bool>)
    ensures |bits| == 8
    ensures forall i :: 0 <= i < 8 ==> bits[i] == BitSet(b, i)
  {
    seq(8, i requires 0 <= i < 8 => BitSet(b, i))
  }

  /** A receiver's shift register: each bit latched is shifted in at the
      bottom, so the first of up to eight bits ends up most significant. */
  function ByteOf(bits: seq<bool>): (b: nat)
    requires |bits| <= 8
    ensures b < Pow2(|bits|)
    decreases |bits|
  {
    if bits == [] then 0
    else 2 * ByteOf(bits[..|bits| - 1]) + (if bits[|bits| - 1] then 1 else 0)
  }

  /** The first k bits sent, shifted in, are the top k bits of the byte. */
  lemma {:induction false} ByteOfPrefix(b: byte, k: nat)
    requires k <= 8
    ensures ByteOf(MsbBits(b)[..k]) == Shr(b, 8 - k)
  {
    if k == 0 {
      Pow2Table();
      ShrBelow(b, 8);
    } else {
      var bits := MsbBits(b)[..k];
      assert bits[..k - 1] == MsbBits(b)[..k - 1];
      ByteOfPrefix(b, k - 1);
      ShrSucc(b, 8 - k);
    }
  }

  /** A receiver that latches the eight bits of a byte in wire order gets
      the byte back. */
  lemma ByteRoundTrip(b: byte)
    ensures ByteOf(MsbBits(b)) == b
  {
    ByteOfPrefix(b, 8);
    assert MsbBits(b)[..8] == MsbBits(b);
  }

  /** The sixteen levels a battery puts on the data line for the word `w`:
      the low byte, then the high byte, each most significant bit first. */
  function PresentedBits(w: word): (bits: seq<bool>)
    ensures |bits| == 16
  {
    MsbBits(w % 0x100) + MsbBits(w / 0x100)
  }

  /** The word made of two bytes received in the order low byte, high byte. */
  function WordOf(bits: seq<bool>): word
    requires |bits| == 16
  {
    Pow2Table();
    ByteOf(bits[..8]) + 0x100 * ByteOf(bits[8..])
  }

  /** Reading back what the battery presents reconstructs its word exactly. */
  lemma WordRoundTrip(w: word)
    ensures WordOf(PresentedBits(w)) == w
  {
    var bits := PresentedBits(w);
    assert bits[..8] == MsbBits(w % 0x100);
    assert bits[8..] == MsbBits(w / 0x100);
    ByteRoundTrip(w % 0x100);
    ByteRoundTrip(w / 0x100);
  }

  /** Adding 2^n adds one to the bits from n upwards. */
  lemma {:induction false} ShrPlus(x: nat, n: nat)
    ensures Shr(x + Pow2(n), n) == Shr(x, n) + 1
  {
    if n > 0 {
      assert (x + Pow2(n)) / 2 == x / 2 + Pow2(n - 1);
      ShrPlus(x / 2, n - 1);
    }
  }

  /** x | (1 << n). */
  function SetBit(x: nat, n: nat): (r: nat)
    ensures Bit(r, n)
  {
    if Bit(x, n) then x else ShrPlus(x, n); x + Pow2(n)
  }

  /** The bit `read16` ORs in for the k-th sampled level: masks 0x0080 down to
      0x0001 for the first byte, 0x8000 down to 0x0100 for the second. */
  function ReadBitIndex(k: nat): (n: nat)
    requires k < 16
    ensures n < 16
  {
    if k < 8 then 7 - k else 23 - k
  }

  /** `readval` after the first k samples of `read16`. */
  function Accumulated(bits: seq<bool>, k: nat): nat
    requires k <= |bits| <= 16
  {
    if k == 0 then 0
    else if bits[k - 1] then SetBit(Accumulated(bits, k - 1), ReadBitIndex(k - 1))
    else Accumulated(bits, k - 1)
  }

  /** A value r below 2^n added to a multiple of 2^n: shifting right by n
      leaves the multiplier. */
  lemma {:induction false} ShrAdd(r: nat, y: nat, n: nat)
    requires r < Pow2(n)
    ensures Shr(r + y * Pow2(n), n) == y
  {
    if n > 0 {
      assert (r + y * Pow2(n)) / 2 == r / 2 + y * Pow2(n - 1);
      ShrAdd(r / 2, y, n - 1);
    }
  }

  lemma {:induction false} Pow2Grows(m: nat, n: nat)
    requires m <= n
    ensures Pow2(m) <= Pow2(n)
  {
    if m < n {
      Pow2Grows(m, n - 1);
    }
  }

  /** Each OR of `read16` lands on a bit still clear, so it adds the mask. */
  lemma StillClear(low: nat, y: nat, n: nat)
    requires low < Pow2(n)
    ensures !Bit(low + y * Pow2(n + 1), n)
    ensures SetBit(low + y * Pow2(n + 1), n) == low + y * Pow2(n + 1) + Pow2(n)
  {
    assert y * Pow2(n + 1) == (2 * y) * Pow2(n);
    ShrAdd(low, 2 * y, n);
  }

  /** What `read16` accumulates in the first byte's eight steps. */
  lemma {:induction false} AccumulatedLow(bits: seq<bool>, k: nat)
    requires |bits| == 16 && k <= 8
    ensures Accumulated(bits, k) == ByteOf(bits[..k]) * Pow2(8 - k)
  {
    if k > 0 {
      assert bits[..k][..k - 1] == bits[..k - 1];
      AccumulatedLow(bits, k - 1);
      StillClear(0, ByteOf(bits[..k - 1]), 8 - k);
      Distribute(ByteOf(bits[..k - 1]), if bits[k - 1] then 1 else 0, Pow2(8 - k));
    }
  }

  /** What `read16` accumulates in the second byte's eight steps. */
  lemma {:induction false} AccumulatedHigh(bits: seq<bool>, k: nat)
    requires |bits| == 16 && 8 <= k <= 16
    ensures Accumulated(bits, k) == ByteOf(bits[..8]) + ByteOf(bits[8..k]) * Pow2(24 - k)
  {
    if k == 8 {
      AccumulatedLow(bits, 8);
      assert bits[8..8] == [];
    } else {
      AccumulatedHigh(bits, k - 1);
      HighStep(bits, k);
    }
  }

  /** One step of the second byte: Accumulated(bits, k - 1) is the low byte
      plus the received high prefix weighted by 2^(25 - k). */
  lemma HighStep(bits: seq<bool>, k: nat)
    requires |bits| == 16 && 8 < k <= 16
    requires Accumulated(bits, k - 1) == ByteOf(bits[..8]) + ByteOf(bits[8..k - 1]) * Pow2(25 - k)
    ensures Accumulated(bits, k) == ByteOf(bits[..8]) + ByteOf(bits[8..k]) * Pow2(24 - k)
  {
    var low := ByteOf(bits[..8]);
    var y := ByteOf(bits[8..k - 1]);
    var c := if bits[k - 1] then 1 else 0;
    var n := 24 - k;
    assert bits[8..k][..k - 9] == bits[8..k - 1];
    assert ByteOf(bits[8..k]) == 2 * y + c;
    Pow2Grows(8, n);
    assert low < Pow2(n);
    assert 25 - k == n + 1;
    assert ReadBitIndex(k - 1) == n;
    assert Accumulated(bits, k)
      == if bits[k - 1] then SetBit(Accumulated(bits, k - 1), n) else Accumulated(bits, k - 1);
    OneMoreBit(Accumulated(bits, k - 1), low, y, bits[k - 1], ByteOf(bits[8..k]), n);
  }

  /** The arithmetic of one step of the second byte: a clear bit n set or
      left clear on top of low plus y weighted by 2^(n + 1). */
  lemma OneMoreBit(prev: nat, low: nat, y: nat, high: bool, b: nat, n: nat)
    requires low < Pow2(n) && prev == low + y * Pow2(n + 1)
    requires b == 2 * y + (if high then 1 else 0)
    ensures (if high then SetBit(prev, n) else prev) == low + b * Pow2(n)
  {
    var p := Pow2(n);
    assert Pow2(n + 1) == 2 * p;
    if high {
      StillClear(low, y, n);
    }
    Distribute(y, if high then 1 else 0, p);
  }

  /** k ones shifted in are 2^k - 1. */
  lemma {:induction false} ByteOfOnes(bits: seq<bool>)
    requires |bits| <= 8
    requires forall i :: 0 <= i < |bits| ==> bits[i]
    ensures ByteOf(bits) == Pow2(|bits|) - 1
    decreases |bits|
  {
    if bits != [] {
      ByteOfOnes(bits[..|bits| - 1]);
    }
  }

  /** One more bit shifted in below a prefix weighted by 2p. */
  lemma Distribute(x: nat, c: nat, p: nat)
    ensures x * (2 * p) + c * p == (2 * x + c) * p
  {
  }

  /** The sixteen masks ORed together assemble the word low byte first. */
  lemma AccumulatedIsWord(bits: seq<bool>)
    requires |bits| == 16
    ensures Accumulated(bits, 16) == WordOf(bits)
  {
    AccumulatedHigh(bits, 16);
    assert bits[8..16] == bits[8..];
    Pow2Table();
  }
}
