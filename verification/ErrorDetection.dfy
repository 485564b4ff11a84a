/** What the frame check of the serial link detects, for messages of every length.

    Bits are numbered in transmission order of the code: byte by byte, low bit first. */
module ErrorDetection {
  import opened Bytes
  import opened Crc

  // ---------------------------------------------------------------- the register, bit by bit

  function BitStep(r: bv16, bit: bool): bv16 {
    Shift(Plus(r, if bit then 1 else 0))
  }

  function RunBits(r: bv16, bits: seq<bool>): bv16
    decreases |bits|
  {
    if bits == [] then r else RunBits(BitStep(r, bits[0]), bits[1..])
  }

  /** The low `n` bits of `w`, low bit first. */
  function WordBits(w: bv16, n: nat): (bits: seq<bool>)
    ensures |bits| == n
  {
    if n == 0 then [] else [w & 1 == 1] + WordBits(w >> 1, n - 1)
  }

  function Bits(m: seq<byte>): (bits: seq<bool>)
    ensures |bits| == 8 * |m|
  {
    if m == [] then [] else WordBits(Widen(m[0]), 8) + Bits(m[1..])
  }

  function Halve(w: bv16, n: nat): bv16 {
    if n == 0 then w else Halve(w >> 1, n - 1)
  }

  lemma LowBit(w: bv16)
    ensures w == Plus(if w & 1 == 1 then 1 else 0, w & 0xFFFE)
    ensures Shift(w & 0xFFFE) == w >> 1
  {
  }

  lemma ShiftPeel(r: bv16, w: bv16)
    ensures Shift(Plus(r, w)) == Plus(BitStep(r, w & 1 == 1), w >> 1)
  {
    hide Plus, Shift;
    LowBit(w);
    var bit := if w & 1 == 1 then 1 else 0;
    PlusAssoc(r, bit, w & 0xFFFE);
    ShiftLinear(Plus(r, bit), w & 0xFFFE);
  }

  /** Adding a word and shifting `n` times is shifting in its `n` low bits one at a time. */
  lemma {:induction false} TurnsAreBitSteps(r: bv16, w: bv16, n: nat)
    ensures Turns(Plus(r, w), n) == Plus(RunBits(r, WordBits(w, n)), Halve(w, n))
    decreases n
  {
    hide Plus, Shift, BitStep;
    if n > 0 {
      ShiftPeel(r, w);
      TurnsAdd(Plus(r, w), 1, n - 1);
      assert Turns(Plus(r, w), 1) == Shift(Turns(Plus(r, w), 0));
      TurnsAreBitSteps(BitStep(r, w & 1 == 1), w >> 1, n - 1);
      assert WordBits(w, n)[1..] == WordBits(w >> 1, n - 1);
    }
  }

  lemma NothingLeft(b: byte)
    ensures Halve(Widen(b), 8) == 0
  {
    EightHalves(b);
    var w := Widen(b);
    hide Widen;
    assert Halve(w, 8) == Halve(w >> 1 >> 1, 6);
    var w2 := w >> 1 >> 1;
    assert Halve(w2, 6) == Halve(w2 >> 1 >> 1, 4);
    var w4 := w2 >> 1 >> 1;
    assert Halve(w4, 4) == Halve(w4 >> 1 >> 1, 2);
    var w6 := w4 >> 1 >> 1;
    assert Halve(w6, 2) == Halve(w6 >> 1 >> 1, 0);
  }

  lemma EightHalves(b: byte)
    ensures Widen(b) >> 1 >> 1 >> 1 >> 1 >> 1 >> 1 >> 1 >> 1 == 0
  {
    hide ToBits;
  }

  lemma {:induction false} RunBitsAppend(r: bv16, a: seq<bool>, b: seq<bool>)
    ensures RunBits(r, a + b) == RunBits(RunBits(r, a), b)
    decreases |a|
  {
    hide BitStep;
    if a == [] {
      assert a + b == b;
    } else {
      RunBitsAppend(BitStep(r, a[0]), a[1..], b);
      assert (a + b)[1..] == a[1..] + b;
    }
  }

  /** The byte-wise register of the source reads its message as a stream of bits. */
  lemma {:induction false} RegisterIsRunBits(r: bv16, m: seq<byte>)
    ensures Register(r, m) == RunBits(r, Bits(m))
    decreases |m|
  {
    hide Plus, Widen, BitStep, WordBits;
    if m != [] {
      var first := WordBits(Widen(m[0]), 8);
      TurnsAreBitSteps(r, Widen(m[0]), 8);
      NothingLeft(m[0]);
      PlusSelf(RunBits(r, first));
      RegisterFirst(r, m);
      RegisterIsRunBits(Feed(r, m[0]), m[1..]);
      RunBitsAppend(r, first, Bits(m[1..]));
    }
  }

  // ---------------------------------------------------------------- what reaches the receiver

  /** The frame `m` with check bytes `lo`, `hi`, as received with the bits of `e` flipped. */
  function Received(m: seq<byte>, lo: byte, hi: byte, e: seq<byte>): seq<byte>
    requires |e| == |m| + 2
  {
    Xor(m + [lo, hi], e)
  }

  predicate Accepted(received: seq<byte>)
    requires |received| >= 2
  {
    var n := |received| - 2;
    Matches(received[..n], received[n], received[n + 1])
  }

  /** An error escapes exactly when the flipped bits, alone, bring a zero register back to zero. */
  lemma EscapesIff(m: seq<byte>, lo: byte, hi: byte, e: seq<byte>)
    requires Matches(m, lo, hi) && |e| == |m| + 2
    ensures Accepted(Received(m, lo, hi, e)) <==> RunBits(0, Bits(e)) == 0
  {
    hide Plus, Register, Matches, RunBits, Bits, Flip, Xor;
    var sent, got, n := m + [lo, hi], Received(m, lo, hi, e), |m|;
    XorLength(sent, e);
    assert got == got[..n] + [got[n], got[n + 1]];
    AcceptIffGoodFcs(m, lo, hi);
    AcceptIffGoodFcs(got[..n], got[n], got[n + 1]);
    PlusSelf(INIT);
    RegisterLinear(INIT, 0, sent, e);
    RegisterIsRunBits(0, e);
    GoodPlus(Register(0, e));
  }

  lemma XorLength(a: seq<byte>, b: seq<byte>)
    requires |a| == |b|
    ensures |Xor(a, b)| == |a|
  {
  }

  lemma GoodPlus(x: bv16)
    ensures Plus(GOOD_FCS, x) == GOOD_FCS <==> x == 0
  {
  }

  // ---------------------------------------------------------------- bursts

  predicate Quiet(bits: seq<bool>) {
    forall i :: 0 <= i < |bits| ==> !bits[i]
  }

  /** Every set bit lies among the `n` positions starting at `p`. */
  predicate Burst(bits: seq<bool>, p: nat, n: nat) {
    forall i :: 0 <= i < |bits| && bits[i] ==> p <= i < p + n
  }

  lemma QuietStep(r: bv16)
    ensures BitStep(0, false) == 0
    ensures BitStep(r, false) == 0 <==> r == 0
  {
    PlusSelf(r);
    PlusSelf(0);
    ShiftZero(r);
  }

  /** Quiet bits neither raise a zero register nor clear another one. */
  lemma {:induction false} QuietKeeps(r: bv16, bits: seq<bool>)
    requires Quiet(bits)
    ensures RunBits(r, bits) == 0 <==> r == 0
    decreases |bits|
  {
    hide BitStep;
    if bits != [] {
      QuietStep(r);
      QuietKeeps(BitStep(r, bits[0]), bits[1..]);
    }
  }

  /** The low `n` bits. */
  function Mask(n: nat): bv16 {
    if n == 0 then 0 else (Mask(n - 1) << 1) | 1
  }

  lemma {:induction false} MaskBelowTop(n: nat)
    requires n <= 14
    ensures Mask(n) & 0x8000 == 0
  {
    assert Mask(0) == 0;
    assert Mask(2) == 0x3;
    assert Mask(4) == 0xF;
    assert Mask(6) == 0x3F;
    assert Mask(8) == 0xFF;
    assert Mask(10) == 0x3FF;
    assert Mask(12) == 0xFFF;
    assert Mask(14) == 0x3FFF;
  }

  /** Undoing one step: a successor below the top bit came from an even sum. */
  lemma BackStep(r: bv16, bit: bool, mask: bv16)
    requires mask & 0x8000 == 0
    requires BitStep(r, bit) & !mask == 0
    ensures r & !((mask << 1) | 1) == 0
  {
  }

  /** A register that at most 15 bits can clear has nothing above those bits. */
  lemma {:induction false} ClearedByFew(r: bv16, bits: seq<bool>)
    requires |bits| <= 15
    requires RunBits(r, bits) == 0
    ensures r & !Mask(|bits|) == 0
    decreases |bits|
  {
    hide BitStep, Mask;
    if bits == [] {
    } else {
      var n := |bits| - 1;
      ClearedByFew(BitStep(r, bits[0]), bits[1..]);
      MaskBelowTop(n);
      BackStep(r, bits[0], Mask(n));
      MaskStep(n);
    }
  }

  lemma MaskStep(n: nat)
    ensures Mask(n + 1) == (Mask(n) << 1) | 1
  {
  }

  lemma AfterFirst(n: nat)
    requires n <= 15
    ensures BitStep(0, true) & !Mask(n) != 0
  {
    assert BitStep(0, true) == 0x8408;
    if n == 15 {
      MaskStep(14);
    }
    MaskBelowTop(if n == 15 then 14 else n);
  }

  /** No burst of at most 16 bits brings a zero register back to zero. */
  lemma {:induction false} BurstLeavesMark(bits: seq<bool>, p: nat)
    requires Burst(bits, p, 16) && !Quiet(bits)
    ensures RunBits(0, bits) != 0
    decreases |bits|
  {
    hide BitStep, Mask;
    if !bits[0] {
      QuietStep(0);
      BurstLeavesMark(bits[1..], if p == 0 then 0 else p - 1);
    } else {
      var rest := bits[1..];
      var k := if |rest| < 15 then |rest| else 15;
      assert rest == rest[..k] + rest[k..];
      assert Quiet(rest[k..]);
      var r := BitStep(0, true);
      RunBitsAppend(r, rest[..k], rest[k..]);
      if RunBits(r, rest[..k]) == 0 {
        ClearedByFew(r, rest[..k]);
        AfterFirst(k);
        assert false;
      }
      QuietKeeps(RunBits(r, rest[..k]), rest[k..]);
    }
  }

  /** Every error confined to 16 consecutive bits is detected, wherever it lies and however long the frame is. */
  lemma BurstDetected(m: seq<byte>, lo: byte, hi: byte, e: seq<byte>, p: nat)
    requires Matches(m, lo, hi) && |e| == |m| + 2
    requires Burst(Bits(e), p, 16) && !Quiet(Bits(e))
    ensures !Accepted(Received(m, lo, hi, e))
  {
    EscapesIff(m, lo, hi, e);
    BurstLeavesMark(Bits(e), p);
  }

  // ---------------------------------------------------------------- odd numbers of flipped bits

  function Ones(bits: seq<bool>): nat {
    if bits == [] then 0 else (if bits[0] then 1 else 0) + Ones(bits[1..])
  }

  /** Whether the low `n` bits hold an odd number of ones. */
  predicate Parity(r: bv16, n: nat) {
    n > 0 && (r & 1 == 1) != Parity(r >> 1, n - 1)
  }

  lemma {:induction false} ParityLinear(x: bv16, y: bv16, n: nat)
    ensures Parity(Plus(x, y), n) == (Parity(x, n) != Parity(y, n))
    decreases n
  {
    hide Plus;
    if n > 0 {
      HalfPlus(x, y);
      OddPlus(x, y);
      ParityLinear(x >> 1, y >> 1, n - 1);
    }
  }

  lemma {:induction false} ParityAbove(r: bv16, n: nat)
    requires Halve(r, n) == 0
    ensures Parity(r, n + 1) == Parity(r, n)
    decreases n
  {
    if n > 0 {
      ParityAbove(r >> 1, n - 1);
    }
  }

  lemma HalveTwice(w: bv16, n: nat)
    requires n >= 2
    ensures Halve(w, n) == Halve(w >> 2, n - 2)
  {
    assert w >> 1 >> 1 == w >> 2;
    assert Halve(w, n) == Halve(w >> 1, n - 1);
  }

  lemma NoSixteenth(r: bv16)
    ensures Halve(r >> 1, 15) == 0
  {
    var w := r >> 1;
    HalveTwice(w, 15);
    HalveTwice(w >> 2, 13);
    HalveTwice(w >> 4, 11);
    HalveTwice(w >> 6, 9);
    HalveTwice(w >> 8, 7);
    HalveTwice(w >> 10, 5);
    HalveTwice(w >> 12, 3);
    assert w >> 14 >> 1 == 0;
    assert Halve(w >> 14, 1) == Halve(w >> 14 >> 1, 0);
  }

  /** The polynomial has an even number of terms, so a shift keeps the parity of the register. */
  lemma ShiftParity(r: bv16)
    ensures Parity(Shift(r), 16) == Parity(r, 16)
  {
    hide Plus;
    NoSixteenth(r);
    ParityAbove(r >> 1, 15);
    ParityLinear(r >> 1, 0x8408, 16);
    PolynomialParity();
  }

  lemma PolynomialParity()
    ensures Parity(0x8408, 16) && Parity(1, 16) && !Parity(0, 16)
  {
    ParityZero(15);
    ParityZero(0);
    assert Parity(1, 16) && !Parity(0, 16);
    assert Parity(0x0001, 1) && Parity(0x0004, 3) && Parity(0x0010, 5);
    assert !Parity(0x0021, 6) && !Parity(0x0084, 8) && !Parity(0x0210, 10) && !Parity(0x0840, 12);
    assert Parity(0x1081, 13) && Parity(0x4204, 15);
  }

  lemma {:induction false} ParityZero(n: nat)
    ensures !Parity(0, n)
  {
    if n > 0 {
      ParityZero(n - 1);
    }
  }

  lemma {:induction false} RunParity(r: bv16, bits: seq<bool>)
    ensures Parity(RunBits(r, bits), 16) == (Parity(r, 16) != (Ones(bits) % 2 == 1))
    decreases |bits|
  {
    hide Plus, Shift, Parity;
    if bits != [] {
      var b := if bits[0] then 1 else 0;
      ParityLinear(r, b, 16);
      PolynomialParity();
      ShiftParity(Plus(r, b));
      RunParity(BitStep(r, bits[0]), bits[1..]);
    }
  }

  /** Every error that flips an odd number of bits is detected, however they are spread. */
  lemma OddErrorDetected(m: seq<byte>, lo: byte, hi: byte, e: seq<byte>)
    requires Matches(m, lo, hi) && |e| == |m| + 2
    requires Ones(Bits(e)) % 2 == 1
    ensures !Accepted(Received(m, lo, hi, e))
  {
    EscapesIff(m, lo, hi, e);
    RunParity(0, Bits(e));
    PolynomialParity();
  }
}
