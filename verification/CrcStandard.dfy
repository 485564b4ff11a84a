/** The start value, the residue and the published check value of the frame check sequence, in plain numbers. */
module CrcStandard {
  import opened Bytes
  import opened Crc
  import opened ErrorDetection
  import opened CodeDistance

  /** The receiver accepts exactly when the table-driven computation of section C.2 of RFC 1662, started at
      0xFFFF and run over message and check bytes, ends at 0xF0B8. */
  lemma AcceptedByTheStandard(m: seq<byte>, lo: byte, hi: byte)
    ensures Matches(m, lo, hi) <==> TableFcs(0xFFFF, m + [lo, hi]) == 0xF0B8
  {
    hide Matches, Register, TableFcs;
    AcceptIffGoodFcs(m, lo, hi);
    BitwiseIsTableDriven(0xFFFF, m + [lo, hi]);
  }

  /** The checksum is the inverted result of that computation. */
  lemma ChecksumByTheStandard(m: seq<byte>)
    ensures Checksum(m) == Plus(TableFcs(0xFFFF, m), 0xFFFF)
  {
    hide Register, TableFcs, Plus;
    BitwiseIsTableDriven(0xFFFF, m);
  }

  // ---------------------------------------------------------------- the check value

  /** The digits 1 to 9. */
  const NINE_DIGITS: seq<byte> := [0x31, 0x32, 0x33, 0x34, 0x35, 0x36, 0x37, 0x38, 0x39]

  lemma DigitBits(b: byte, v: bv8)
    requires FromBits(v) == b
    ensures ToBits(b) == v
  {
    hide ToBits, FromBits;
    BitsOnto(v);
  }

  /** One byte, on plain numbers. */
  lemma FeedValue(r: bv16, b: byte, v: bv8, s: bv16)
    requires FromBits(v) == b && Shift8(Plus(r, v as bv16)) == s
    ensures Feed(r, b) == s
  {
    hide Shift8, Turns, Plus, ToBits, FromBits;
    DigitBits(b, v);
    EightTurns(Plus(r, v as bv16));
  }

  lemma RegisterNext(r: bv16, m: seq<byte>, b: byte)
    ensures Register(r, m + [b]) == Feed(Register(r, m), b)
  {
    hide Feed;
    assert (m + [b])[..|m|] == m;
  }

  /** The published check value of this code. */
  lemma CheckValue()
    ensures Checksum(NINE_DIGITS) == 0x906E
  {
    hide Register, Feed, Turns, ToBits;
    assert NINE_DIGITS == [] + [0x31] + [0x32] + [0x33] + [0x34] + [0x35] + [0x36] + [0x37] + [0x38] + [0x39];
    RegisterNone(0xFFFF);
    FeedValue(0xFFFF, 0x31, 0x31, 0x2F8D);
    RegisterNext(0xFFFF, [], 0x31);
    FeedValue(0x2F8D, 0x32, 0x32, 0x4D53);
    RegisterNext(0xFFFF, [] + [0x31], 0x32);
    FeedValue(0x4D53, 0x33, 0x33, 0x634B);
    RegisterNext(0xFFFF, [] + [0x31] + [0x32], 0x33);
    FeedValue(0x634B, 0x34, 0x34, 0x8B13);
    RegisterNext(0xFFFF, [] + [0x31] + [0x32] + [0x33], 0x34);
    FeedValue(0x8B13, 0x35, 0x35, 0x44BF);
    RegisterNext(0xFFFF, [] + [0x31] + [0x32] + [0x33] + [0x34], 0x35);
    FeedValue(0x44BF, 0x36, 0x36, 0x198D);
    RegisterNext(0xFFFF, [] + [0x31] + [0x32] + [0x33] + [0x34] + [0x35], 0x36);
    FeedValue(0x198D, 0x37, 0x37, 0x1AC8);
    RegisterNext(0xFFFF, [] + [0x31] + [0x32] + [0x33] + [0x34] + [0x35] + [0x36], 0x37);
    FeedValue(0x1AC8, 0x38, 0x38, 0xF795);
    RegisterNext(0xFFFF, [] + [0x31] + [0x32] + [0x33] + [0x34] + [0x35] + [0x36] + [0x37], 0x38);
    FeedValue(0xF795, 0x39, 0x39, 0x6F91);
    RegisterNext(0xFFFF, [] + [0x31] + [0x32] + [0x33] + [0x34] + [0x35] + [0x36] + [0x37] + [0x38], 0x39);
  }

  lemma RegisterNone(r: bv16)
    ensures Register(r, []) == r
  {
  }

  // ---------------------------------------------------------------- what the start value buys

  lemma {:induction false} RegisterZeros(r: bv16, k: nat)
    ensures Register(r, Zeros(k)) == Turns(r, 8 * k)
  {
    if k > 0 {
      NoBits();
      hide Turns, Plus, Widen;
      RegisterZeros(r, k - 1);
      assert Zeros(k)[..k - 1] == Zeros(k - 1);
      PlusSelf(Turns(r, 8 * k - 8));
      TurnsAdd(r, 8 * k - 8, 8);
    }
  }

  lemma NoBits()
    ensures Widen(0) == 0
  {
  }

  lemma {:induction false} RegisterInjective(r: bv16, s: bv16, m: seq<byte>)
    ensures Register(r, m) == Register(s, m) <==> r == s
  {
    if m != [] {
      hide Turns, Plus, Widen;
      var n := |m| - 1;
      RegisterInjective(r, s, m[..n]);
      var a, b, w := Register(r, m[..n]), Register(s, m[..n]), Widen(m[n]);
      TurnsInjective(Plus(a, w), Plus(b, w), 8);
      PlusCancel(a, w, Plus(b, w));
      PlusAssoc(b, w, w);
      PlusSelf(w);
      PlusSelf(b);
    }
  }

  /** The first `k` multiples of `r` by powers of x. */
  function Sum(r: bv16, k: nat): bv16 {
    if k == 0 then 0 else Plus(Sum(r, k - 1), Turns(r, k - 1))
  }

  lemma {:induction false} SumLinear(x: bv16, y: bv16, k: nat)
    ensures Sum(Plus(x, y), k) == Plus(Sum(x, k), Sum(y, k))
  {
    hide Plus, Turns;
    if k == 0 {
      PlusSelf(0);
    } else {
      SumLinear(x, y, k - 1);
      TurnsLinear(x, y, k - 1);
      PlusSwap(Sum(x, k - 1), Sum(y, k - 1), Turns(x, k - 1), Turns(y, k - 1));
    }
  }

  lemma {:induction false} SumTurns(r: bv16, k: nat, n: nat)
    ensures Turns(Sum(r, k), n) == Sum(Turns(r, n), k)
  {
    hide Plus, Turns;
    if k == 0 {
      TurnsOfZero(n);
    } else {
      SumTurns(r, k - 1, n);
      TurnsLinear(Sum(r, k - 1), Turns(r, k - 1), n);
      TurnsAdd(r, k - 1, n);
      TurnsAdd(r, n, k - 1);
    }
  }

  lemma {:induction false} TurnsOfZero(n: nat)
    ensures Turns(0, n) == 0
  {
    hide Shift;
    if n > 0 {
      TurnsOfZero(n - 1);
      ShiftZero(0);
    }
  }

  /** The sum times x + 1 is what its ends leave. */
  lemma {:induction false} SumEnds(r: bv16, k: nat)
    ensures Plus(Shift(Sum(r, k)), Sum(r, k)) == Plus(Turns(r, k), r)
  {
    hide Plus, Shift;
    ShiftZero(0);
    PlusSelf(0);
    PlusSelf(r);
    if k > 0 {
      SumEnds(r, k - 1);
      var a, t := Sum(r, k - 1), Turns(r, k - 1);
      ShiftLinear(a, t);
      PlusSwap(Shift(a), Shift(t), a, t);
      Cancelled(t, r, Shift(t));
    }
  }

  lemma Cancelled(t: bv16, r: bv16, s: bv16)
    ensures Plus(Plus(t, r), Plus(s, t)) == Plus(s, r)
  {
  }

  lemma OneTurn(n: nat)
    ensures Turns(ONE, n + 1) == Shift(Turns(ONE, n))
  {
  }

  /** The start value is the sum of the first sixteen powers of x. */
  lemma StartIsSum()
    ensures Sum(ONE, 16) == 0xFFFF
  {
    EvenTurns();
    FirstTurns();
    hide Turns;
    assert Sum(ONE, 2) == 0xC000;
    assert Sum(ONE, 4) == 0xF000;
    assert Sum(ONE, 6) == 0xFC00;
    assert Sum(ONE, 8) == 0xFF00;
    assert Sum(ONE, 10) == 0xFFC0;
    assert Sum(ONE, 12) == 0xFFF0;
    assert Sum(ONE, 14) == 0xFFFC;
  }

  lemma FirstTurns()
    ensures Turns(ONE, 1) == 0x4000 && Turns(ONE, 3) == 0x1000 && Turns(ONE, 5) == 0x0400 && Turns(ONE, 7) == 0x0100
    ensures Turns(ONE, 9) == 0x0040 && Turns(ONE, 11) == 0x0010 && Turns(ONE, 13) == 0x0004 && Turns(ONE, 15) == 0x0001
  {
    EvenTurns();
    hide Turns;
    OneTurn(0);
    OneTurn(2);
    OneTurn(4);
    OneTurn(6);
    OneTurn(8);
    OneTurn(10);
    OneTurn(12);
    OneTurn(14);
  }

  lemma {:induction false} TurnsRepeat(d: bv16, a: nat, q: nat)
    requires Turns(d, a) == d
    ensures Turns(d, q * a) == d
  {
    hide Turns;
    if q == 0 {
      TurnsNone(d);
    } else {
      TurnsRepeat(d, a, q - 1);
      TurnsAdd(d, (q - 1) * a, a);
      assert (q - 1) * a + a == q * a;
    }
  }

  lemma TurnsNone(d: bv16)
    ensures Turns(d, 0) == d && Turns(d, 1) == Shift(d)
  {
    assert Turns(d, 1) == Shift(Turns(d, 0));
  }

  lemma {:induction false} TurnsParity(r: bv16, n: nat)
    ensures Parity(Turns(r, n), 16) == Parity(r, 16)
  {
    hide Parity, Shift;
    if n > 0 {
      TurnsParity(r, n - 1);
      ShiftParity(Turns(r, n - 1));
    }
  }

  /** Only 0 and one register of odd parity are left alone by a shift. */
  lemma FixedByShift(d: bv16)
    requires Shift(d) == d && !Parity(d, 16)
    ensures d == 0
  {
    FixedAre(d);
    OddFixed();
    hide Parity, Shift;
  }

  lemma FixedAre(d: bv16)
    requires Shift(d) == d
    ensures d == 0 || d == 0xF80F
  {
  }

  lemma OddFixed()
    ensures Parity(0xF80F, 16)
  {
    assert Parity(0x0001, 1) && Parity(0x0007, 3) && Parity(0x001F, 5) && Parity(0x007C, 7) && Parity(0x01F0, 9);
    assert Parity(0x07C0, 11) && !Parity(0x1F01, 13) && !Parity(0x7C07, 15);
  }

  /** How far the register is from where it was, for the polynomial 1. */
  lemma OffBy(n: nat)
    ensures var d := Plus(Turns(ONE, n), ONE);
      Turns(d, ORDER) == d && !Parity(d, 16) && (d == 0 <==> Period(n))
  {
    var t := Turns(ONE, n);
    OrderExact(ORDER);
    assert Turns(ONE, ORDER) == ONE;
    hide Turns, Parity, Plus;
    TurnsLinear(t, ONE, ORDER);
    TurnsAdd(ONE, n, ORDER);
    TurnsAdd(ONE, ORDER, n);
    TurnsParity(ONE, n);
    ParityLinear(t, ONE, 16);
    PlusCancel(t, ONE, 0);
    PlusSelf(ONE);
  }

  /** The start value returns after 32767 turns and their multiples, and at no other time. */
  lemma StartReturns(n: nat)
    ensures Turns(0xFFFF, n) == 0xFFFF <==> n % 32767 == 0
  {
    OrderExact(n);
    OffBy(n);
    StartIsSum();
    var t, d := Turns(ONE, n), Plus(Turns(ONE, n), ONE);
    hide Turns, Plus, Sum, Parity;
    SumTurns(ONE, 16, n);
    SumLinear(t, ONE, 16);
    PlusCancel(Turns(0xFFFF, n), 0xFFFF, 0);
    PlusSelf(0xFFFF);
    SumOfZero(16);
    if Sum(d, 16) == 0 {
      SumEnds(d, 16);
      ShiftZero(0);
      PlusSelf(0);
      PlusCancel(Turns(d, 16), d, 0);
      PlusSelf(d);
      TurnsRepeat(d, 16, 2048);
      TurnsAdd(d, 32767, 1);
      TurnsNone(d);
      FixedByShift(d);
    }
  }

  lemma {:induction false} SumOfZero(k: nat)
    ensures Sum(0, k) == 0
  {
    hide Turns;
    PlusSelf(0);
    if k > 0 {
      SumOfZero(k - 1);
      TurnsOfZero(k - 1);
    }
  }

  /** What the start value buys: zeros put before a message change its checksum, unless their bits are a multiple
      of 32767. Started at 0, the register would not see them at all. */
  lemma LeadingZerosAreSeen(m: seq<byte>, k: nat)
    ensures Checksum(Zeros(k) + m) == Checksum(m) <==> (8 * k) % 32767 == 0
    ensures Register(0, Zeros(k) + m) == Register(0, m)
  {
    hide Register, Turns, Plus;
    RegisterAppend(0xFFFF, Zeros(k), m);
    RegisterAppend(0, Zeros(k), m);
    RegisterZeros(0xFFFF, k);
    RegisterZeros(0, k);
    TurnsOfZero(8 * k);
    StartReturns(8 * k);
    var a, b := Register(0xFFFF, Zeros(k) + m), Register(0xFFFF, m);
    RegisterInjective(Turns(0xFFFF, 8 * k), 0xFFFF, m);
    PlusCancel(a, 0xFFFF, Plus(b, 0xFFFF));
    PlusAssoc(b, 0xFFFF, 0xFFFF);
    PlusSelf(0xFFFF);
    PlusSelf(b);
  }
}
