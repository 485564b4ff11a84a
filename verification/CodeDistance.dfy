/** How far apart two flipped bits must be to cancel out in the check: the order of the shift step.

    The register is read as a polynomial over two elements, high bit first. A shift multiplies it by x,
    and squaring it doubles the number of shifts, so that long runs can be evaluated in a few steps. */
module CodeDistance {
  import opened Bytes
  import opened Crc
  import opened ErrorDetection

  const ONE: bv16 := 0x8000
  const ORDER: nat := 32767

  // ---------------------------------------------------------------- squaring

  /** `value`, if the low bit of `r` is set. */
  function On(r: bv16, value: bv16): bv16 {
    if r & 1 == 1 then value else 0
  }

  /** The square of the polynomial in the low `n` bits of `r`, the highest of them standing for 1. */
  function Spread(r: bv16, n: nat): bv16 {
    if n == 0 then 0 else Plus(On(r, Turns(ONE, 2 * n - 2)), Spread(r >> 1, n - 1))
  }

  function Square(r: bv16): bv16 {
    Spread(r, 16)
  }

  lemma OnPlus(x: bv16, y: bv16, value: bv16)
    ensures On(Plus(x, y), value) == Plus(On(x, value), On(y, value))
  {
    OddPlus(x, y);
    hide Plus;
    PlusSelf(value);
    PlusSelf(0);
  }

  lemma {:induction false} SpreadLinear(x: bv16, y: bv16, n: nat)
    ensures Spread(Plus(x, y), n) == Plus(Spread(x, n), Spread(y, n))
    decreases n
  {
    hide Plus, On, Turns;
    if n == 0 {
      PlusSelf(0);
    } else {
      HalfPlus(x, y);
      SpreadLinear(x >> 1, y >> 1, n - 1);
      var v := Turns(ONE, 2 * n - 2);
      OnPlus(x, y, v);
      PlusSwap(On(x, v), On(y, v), Spread(x >> 1, n - 1), Spread(y >> 1, n - 1));
    }
  }

  lemma TwoTurns(n: nat)
    ensures Turns(ONE, n + 2) == Shift(Shift(Turns(ONE, n)))
  {
    hide Shift;
    assert Turns(ONE, n + 2) == Shift(Turns(ONE, n + 1));
  }

  lemma TwiceShifted(x: bv16, y: bv16)
    ensures Shift(Shift(Plus(x, y))) == Plus(Shift(Shift(x)), Shift(Shift(y)))
    ensures Shift(Shift(0)) == 0
  {
    ShiftZero(0);
    hide Shift, Plus;
    ShiftLinear(x, y);
    ShiftLinear(Shift(x), Shift(y));
  }

  /** One bit more at the top multiplies by the square of x. */
  lemma {:induction false} SpreadShift(r: bv16, n: nat)
    requires Halve(r, n) == 0
    ensures Spread(r, n + 1) == Shift(Shift(Spread(r, n)))
    decreases n
  {
    hide Plus, Turns, Shift;
    PlusSelf(0);
    if n == 0 {
      TwiceShifted(0, 0);
      assert Spread(r, 1) == Plus(On(r, Turns(ONE, 0)), Spread(r >> 1, 0));
    } else {
      SpreadShift(r >> 1, n - 1);
      TwoTurns(2 * n - 2);
      var v := Turns(ONE, 2 * n - 2);
      TwiceShifted(On(r, v), Spread(r >> 1, n - 1));
    }
  }

  function Quarter(r: bv16): bv16 {
    r >> 4
  }

  /** Four bits of the sum written out. */
  function Four(r: bv16, a: bv16, b: bv16, c: bv16, d: bv16, rest: bv16): bv16 {
    Plus(On(r, a), Plus(On(r >> 1, b), Plus(On(r >> 2, c), Plus(On(r >> 3, d), rest))))
  }

  lemma SpreadFour(r: bv16, n: nat)
    requires n >= 4
    ensures Spread(r, n) == Four(r, Turns(ONE, 2 * n - 2), Turns(ONE, 2 * n - 4), Turns(ONE, 2 * n - 6),
                                 Turns(ONE, 2 * n - 8), Spread(Quarter(r), n - 4))
  {
    assert r >> 1 >> 1 == r >> 2 && r >> 2 >> 1 == r >> 3 && r >> 3 >> 1 == r >> 4;
    hide Plus, On, Turns;
    assert Spread(r >> 1, n - 1) == Plus(On(r >> 1, Turns(ONE, 2 * n - 4)), Spread(r >> 2, n - 2));
    assert Spread(r >> 2, n - 2) == Plus(On(r >> 2, Turns(ONE, 2 * n - 6)), Spread(r >> 3, n - 3));
    assert Spread(r >> 3, n - 3) == Plus(On(r >> 3, Turns(ONE, 2 * n - 8)), Spread(r >> 4, n - 4));
  }

  /** The even powers of x. */
  lemma EvenTurns()
    ensures Turns(ONE, 0) == 0x8000 && Turns(ONE, 2) == 0x2000 && Turns(ONE, 4) == 0x0800 && Turns(ONE, 6) == 0x0200
    ensures Turns(ONE, 8) == 0x0080 && Turns(ONE, 10) == 0x0020 && Turns(ONE, 12) == 0x0008 && Turns(ONE, 14) == 0x0002
    ensures Turns(ONE, 16) == 0x8408 && Turns(ONE, 18) == 0x2102 && Turns(ONE, 20) == 0x8C48 && Turns(ONE, 22) == 0x2312
    ensures Turns(ONE, 24) == 0x8CCC && Turns(ONE, 26) == 0x2333 && Turns(ONE, 28) == 0xCEC0 && Turns(ONE, 30) == 0x33B0
    ensures Turns(ONE, 32) == 0x0CEC
  {
    hide Turns;
    forall n: nat
      ensures Turns(ONE, n + 2) == Shift(Shift(Turns(ONE, n)))
    {
      TwoTurns(n);
    }
    NoTurns();
  }

  lemma NoTurns()
    ensures Turns(ONE, 0) == ONE && Turns(ONE, 1) == 0x4000
  {
    assert Turns(ONE, 1) == Shift(Turns(ONE, 0));
  }

  function Squared(r: bv16): bv16 {
    Four(r, 0x33B0, 0xCEC0, 0x2333, 0x8CCC,
         Four(Quarter(r), 0x2312, 0x8C48, 0x2102, 0x8408,
              Four(Quarter(Quarter(r)), 0x0002, 0x0008, 0x0020, 0x0080,
                   Four(Quarter(Quarter(Quarter(r))), 0x0200, 0x0800, 0x2000, 0x8000, 0))))
  }

  lemma SquareValue(r: bv16)
    ensures Square(r) == Squared(r)
  {
    EvenTurns();
    hide Four, Turns, Spread, Quarter;
    var r1 := Quarter(r);
    var r2 := Quarter(r1);
    var r3 := Quarter(r2);
    NothingSpread(Quarter(r3));
    SpreadFour(r, 16);
    SpreadFour(r1, 12);
    SpreadFour(r2, 8);
    SpreadFour(r3, 4);
  }

  lemma NothingSpread(r: bv16)
    ensures Spread(r, 0) == 0
  {
  }

  /** Squaring turns one shift into two. */
  lemma SquareShift(r: bv16)
    ensures Square(Shift(r)) == Shift(Shift(Square(r)))
  {
    EvenTurns();
    SquareValue(0x8408);
    assert Squared(0x8408) == 0x0CEC;
    TwoTurns(30);
    NoSixteenth(r);
    hide Plus, Turns, Halve, Squared;
    var h := r >> 1;
    SpreadShift(h, 15);
    SpreadLinear(h, 0x8408, 16);
    TwiceShifted(On(r, Turns(ONE, 30)), Spread(h, 15));
    PlusSelf(Spread(h, 16));
    PlusComm(Spread(h, 16), 0x0CEC);
    assert Square(r) == Plus(On(r, Turns(ONE, 30)), Spread(h, 15));
  }

  /** Squaring doubles the number of turns. */
  lemma {:induction false} SquareTurns(n: nat)
    ensures Turns(ONE, 2 * n) == Square(Turns(ONE, n))
  {
    if n == 0 {
      SquareValue(ONE);
      assert Squared(ONE) == ONE;
    } else {
      hide Shift, Square;
      SquareTurns(n - 1);
      SquareShift(Turns(ONE, n - 1));
      TwoTurns(2 * n - 2);
    }
  }

  // ---------------------------------------------------------------- the order of the shift

  lemma Doubled(n: nat, r: bv16)
    requires Turns(ONE, n) == r
    ensures Turns(ONE, 2 * n) == Squared(r) && Turns(ONE, 2 * n + 1) == Shift(Squared(r))
  {
    hide Squared, Square, Shift;
    SquareTurns(n);
    SquareValue(r);
  }

  predicate Period(n: nat) {
    Turns(ONE, n) == ONE
  }

  lemma Turns32767()
    ensures Period(32767)
  {
    NoTurns();
    hide Turns;
    Doubled(1, 0x4000);
    Doubled(3, 0x1000);
    Doubled(7, 0x0100);
    Doubled(15, 0x0001);
    Doubled(31, 0x19D8);
    Doubled(63, 0x042B);
    Doubled(127, 0x7EEA);
    Doubled(255, 0x20F3);
    Doubled(511, 0x7F90);
    Doubled(1023, 0x46D8);
    Doubled(2047, 0x157E);
    Doubled(4095, 0xF2AA);
    Doubled(8191, 0x7022);
    Doubled(16383, 0x3444);
  }

  lemma Turns4681()
    ensures !Period(4681)
  {
    NoTurns();
    hide Turns;
    Doubled(1, 0x4000);
    Doubled(2, 0x2000);
    Doubled(4, 0x0800);
    Doubled(9, 0x0040);
    Doubled(18, 0x2102);
    Doubled(36, 0xC6C2);
    Doubled(73, 0x65F1);
    Doubled(146, 0x11C2);
    Doubled(292, 0x69C8);
    Doubled(585, 0x00A2);
    Doubled(1170, 0xC680);
    Doubled(2340, 0x2420);
  }

  lemma Turns1057()
    ensures !Period(1057)
  {
    NoTurns();
    hide Turns;
    Doubled(1, 0x4000);
    Doubled(2, 0x2000);
    Doubled(4, 0x0800);
    Doubled(8, 0x0080);
    Doubled(16, 0x8408);
    Doubled(33, 0x0676);
    Doubled(66, 0x6383);
    Doubled(132, 0x5172);
    Doubled(264, 0x629A);
    Doubled(528, 0xCD1E);
  }

  lemma Turns217()
    ensures !Period(217)
  {
    NoTurns();
    hide Turns;
    Doubled(1, 0x4000);
    Doubled(3, 0x1000);
    Doubled(6, 0x0200);
    Doubled(13, 0x0004);
    Doubled(27, 0x9591);
    Doubled(54, 0x1688);
    Doubled(108, 0x0AEC);
  }

  lemma {:induction false} PeriodMultiple(a: nat, q: nat)
    requires Period(a)
    ensures Period(q * a)
  {
    hide Turns;
    NoTurns();
    if q > 0 {
      PeriodMultiple(a, q - 1);
      TurnsAdd(ONE, (q - 1) * a, a);
      assert (q - 1) * a + a == q * a;
    }
  }

  lemma PeriodRemainder(a: nat, n: nat)
    requires a > 0 && Period(a)
    ensures Period(n) <==> Period(n % a)
  {
    hide Turns;
    PeriodMultiple(a, n / a);
    TurnsAdd(ONE, (n / a) * a, n % a);
    assert (n / a) * a + n % a == n;
  }

  // ---------------------------------------------------------------- 32767 is 7 * 31 * 151

  lemma NoDivisor(p: nat, r: nat)
    requires p == 7 || p == 31 || p == 151
    requires 2 <= r < p
    ensures p % r != 0
  {
    if p % r == 0 {
      var k := p / r;
      assert r * k == p;
      if r <= 12 {
        SmallFactor(p, r, k);
      } else {
        SmallFactor(p, k, r);
      }
    }
  }

  lemma SmallFactor(p: nat, r: nat, k: nat)
    requires p == 7 || p == 31 || p == 151
    requires 2 <= r <= 12 && r < p
    ensures r * k != p
  {
    assert r == 2 || r == 3 || r == 4 || r == 5 || r == 6 || r == 7
        || r == 8 || r == 9 || r == 10 || r == 11 || r == 12;
  }

  /** Euclid's algorithm, on the multiples of `q` that are periods. */
  lemma {:induction false} Descent(p: nat, q: nat, r: nat)
    requires p == 7 || p == 31 || p == 151
    requires 0 < r < p && 0 < q && Period(p * q) && Period(r * q)
    ensures Period(q)
    decreases r
  {
    hide Period;
    if r == 1 {
      assert r * q == q;
    } else {
      NoDivisor(p, r);
      ScaledRemainder(p, r, q);
      PeriodRemainder(r * q, p * q);
      Descent(p, q, p % r);
    }
  }

  lemma ScaledRemainder(n: nat, r: nat, q: nat)
    requires r > 0 && q > 0
    ensures r * q > 0 && (n * q) % (r * q) == (n % r) * q
  {
    var k, m := n / r, n % r;
    assert n * q == k * (r * q) + m * q by {
      assert n == k * r + m;
    }
    assert m * q < r * q;
    RemainderIs(n * q, r * q, k, m * q);
  }

  lemma RemainderIs(n: nat, d: nat, k: nat, m: nat)
    requires n == k * d + m && m < d
    ensures n % d == m
  {
    OneRemainder(d, k, m, n / d, n % d);
  }

  lemma OneRemainder(d: nat, k: nat, m: nat, j: nat, r: nat)
    requires m < d && r < d && k * d + m == j * d + r
    ensures m == r
  {
    var gap := k - j;
    assert gap * d == r - m;
    assert gap >= 1 ==> gap * d >= d;
    assert gap <= -1 ==> gap * d + d <= 0;
  }

  lemma FactorDivides(p: nat, q: nat, n: nat)
    requires p == 7 || p == 31 || p == 151
    requires 0 < q && Period(p * q) && !Period(q) && Period(n)
    ensures n % p == 0
  {
    hide Period;
    var r := n % p;
    PeriodMultiple(n, q);
    ScaledRemainder(n, p, q);
    PeriodRemainder(p * q, n * q);
    if r != 0 {
      Descent(p, q, r);
    }
  }

  lemma AllFactors(n: nat)
    ensures n % 7 == 0 && n % 31 == 0 && n % 151 == 0 <==> n % ORDER == 0
  {
    if n % 7 == 0 && n % 31 == 0 && n % 151 == 0 {
      Together(n, n / 7, n / 31, n / 151);
    }
    if n % ORDER == 0 {
      var m := n / ORDER;
      RemainderIs(n, 7, 4681 * m, 0);
      RemainderIs(n, 31, 1057 * m, 0);
      RemainderIs(n, 151, 217 * m, 0);
    }
  }

  lemma Together(n: nat, a: nat, b: nat, c: nat)
    requires n == 7 * a == 31 * b == 151 * c
    ensures n % ORDER == 0
  {
    var e := 9 * b - 2 * a;
    assert a == 31 * e;
    var k := 23 * e - 16 * c;
    assert e == 151 * k;
    RemainderIs(n, ORDER, k, 0);
  }

  /** The shift comes back to where it was after 32767 turns and their multiples, and at no other time. */
  lemma OrderExact(n: nat)
    ensures Period(n) <==> n % ORDER == 0
  {
    NoTurns();
    hide Turns;
    Turns32767();
    Turns4681();
    Turns1057();
    Turns217();
    PeriodRemainder(ORDER, n);
    if Period(n) {
      FactorDivides(7, 4681, n);
      FactorDivides(31, 1057, n);
      FactorDivides(151, 217, n);
    }
    AllFactors(n);
  }

  // ---------------------------------------------------------------- two flipped bits

  /** Bit `j` is set, and no other. */
  predicate OneBit(bits: seq<bool>, j: nat) {
    j < |bits| && forall k :: 0 <= k < |bits| ==> bits[k] == (k == j)
  }

  /** Bits `i` and `j` are set, and no other. */
  predicate TwoBits(bits: seq<bool>, i: nat, j: nat) {
    i < j < |bits| && forall k :: 0 <= k < |bits| ==> bits[k] == (k == i || k == j)
  }

  lemma StepByTurn(r: bv16)
    ensures BitStep(r, false) == Shift(r)
    ensures BitStep(r, true) == 0 <==> r == 1
    ensures BitStep(0, true) == Shift(1)
  {
    hide Shift;
    PlusSelf(r);
    PlusSelf(1);
    PlusCancel(r, 1, 0);
    ShiftZero(Plus(r, 1));
  }

  lemma TurnsFirst(r: bv16, n: nat)
    ensures Turns(Shift(r), n) == Turns(r, n + 1)
  {
    hide Shift;
    TurnsAdd(r, 1, n);
    assert Turns(r, 1) == Shift(Turns(r, 0));
  }

  lemma {:induction false} OneBitRun(r: bv16, bits: seq<bool>, j: nat)
    requires OneBit(bits, j)
    ensures RunBits(r, bits) == 0 <==> Turns(r, j) == 1
    decreases j
  {
    hide BitStep, Shift;
    StepByTurn(r);
    if j == 0 {
      QuietKeeps(BitStep(r, true), bits[1..]);
    } else {
      TurnsFirst(r, j - 1);
      OneBitRun(Shift(r), bits[1..], j - 1);
    }
  }

  /** Two flipped bits cancel out exactly when their distance is a multiple of 32767. */
  lemma {:induction false} TwoBitsRun(bits: seq<bool>, i: nat, j: nat)
    requires TwoBits(bits, i, j)
    ensures RunBits(0, bits) == 0 <==> (j - i) % ORDER == 0
    decreases i
  {
    hide BitStep, Shift, Turns;
    if i == 0 {
      StepByTurn(0);
      OneBitRun(Shift(1), bits[1..], j - 1);
      TurnsFirst(1, j - 1);
      FromOne(j);
      OrderExact(j);
    } else {
      QuietStep(0);
      TwoBitsRun(bits[1..], i - 1, j - 1);
    }
  }

  /** The low bit comes back exactly when the polynomial 1 does. */
  lemma FromOne(n: nat)
    ensures Turns(1, n) == 1 <==> Period(n)
  {
    hide Turns;
    OddTurns();
    TurnsAdd(ONE, 15, n);
    TurnsAdd(ONE, n, 15);
    TurnsInjective(Turns(ONE, n), ONE, 15);
  }

  lemma OddTurns()
    ensures Turns(ONE, 15) == 1
  {
    EvenTurns();
    assert Turns(ONE, 15) == Shift(Turns(ONE, 14));
  }

  /** Two flipped bits go unnoticed exactly when they lie a multiple of 32767 bits apart. */
  lemma DoubleErrorEscapesIff(m: seq<byte>, lo: byte, hi: byte, e: seq<byte>, i: nat, j: nat)
    requires Matches(m, lo, hi) && |e| == |m| + 2
    requires TwoBits(Bits(e), i, j)
    ensures Accepted(Received(m, lo, hi, e)) <==> (j - i) % ORDER == 0
  {
    hide Matches, Accepted, Received;
    EscapesIff(m, lo, hi, e);
    TwoBitsRun(Bits(e), i, j);
  }

  // ---------------------------------------------------------------- distance four

  lemma {:induction false} NoOnes(bits: seq<bool>)
    requires Ones(bits) == 0
    ensures forall k :: 0 <= k < |bits| ==> !bits[k]
    decreases |bits|
  {
    if bits != [] {
      NoOnes(bits[1..]);
    }
  }

  lemma {:induction false} OneOne(bits: seq<bool>) returns (j: nat)
    requires Ones(bits) == 1
    ensures OneBit(bits, j)
    decreases |bits|
  {
    if bits[0] {
      j := 0;
      NoOnes(bits[1..]);
    } else {
      j := OneOne(bits[1..]);
      j := j + 1;
    }
  }

  lemma {:induction false} TwoOnes(bits: seq<bool>) returns (i: nat, j: nat)
    requires Ones(bits) == 2
    ensures TwoBits(bits, i, j)
    decreases |bits|
  {
    if bits[0] {
      i := 0;
      j := OneOne(bits[1..]);
      j := j + 1;
    } else {
      i, j := TwoOnes(bits[1..]);
      i, j := i + 1, j + 1;
    }
  }

  /** One, two or three flipped bits are always detected in a frame of up to 4095 bytes, check bytes
      included, which is far beyond the longest frame of the link. */
  lemma UpToThreeDetected(m: seq<byte>, lo: byte, hi: byte, e: seq<byte>)
    requires Matches(m, lo, hi) && |e| == |m| + 2 <= 4095
    requires 1 <= Ones(Bits(e)) <= 3
    ensures !Accepted(Received(m, lo, hi, e))
  {
    hide Matches, Accepted, Received, Bits, Ones;
    if Ones(Bits(e)) == 2 {
      var i, j := TwoOnes(Bits(e));
      DoubleErrorEscapesIff(m, lo, hi, e, i, j);
    } else {
      OddErrorDetected(m, lo, hi, e);
    }
  }

  /** Errors that never get through: short bursts, odd numbers of flipped bits, and pairs of them. */
  ghost predicate Caught(bits: seq<bool>) {
    || (!Quiet(bits) && exists p :: Burst(bits, p, 16))
    || Ones(bits) % 2 == 1
    || (Ones(bits) == 2 && |bits| <= ORDER)
  }

  lemma CaughtIsDetected(m: seq<byte>, lo: byte, hi: byte, e: seq<byte>)
    requires Matches(m, lo, hi) && |e| == |m| + 2 && Caught(Bits(e))
    ensures !Accepted(Received(m, lo, hi, e))
  {
    hide Matches, Accepted, Received, Ones, Burst, Quiet;
    var bits := Bits(e);
    hide Bits;
    if Ones(bits) % 2 == 1 {
      OddErrorDetected(m, lo, hi, e);
    } else if Ones(bits) == 2 && |bits| <= ORDER {
      var i, j := TwoOnes(bits);
      DoubleErrorEscapesIff(m, lo, hi, e, i, j);
    } else {
      var p :| Burst(bits, p, 16);
      BurstDetected(m, lo, hi, e, p);
    }
  }

  // ---------------------------------------------------------------- four is the limit

  function Zeros(n: nat): seq<byte> {
    seq(n, _ => 0)
  }

  /** The polynomial itself, byte by byte, low bit first. */
  const POLYNOMIAL: seq<byte> := [0x11, 0x08, 0x01]

  lemma {:induction false} BitsAppend(a: seq<byte>, b: seq<byte>)
    ensures Bits(a + b) == Bits(a) + Bits(b)
    decreases |a|
  {
    hide WordBits, Widen;
    if a == [] {
      assert a + b == b;
    } else {
      BitsAppend(a[1..], b);
      assert (a + b)[1..] == a[1..] + b;
    }
  }

  lemma WordOfZero(n: nat)
    ensures Quiet(WordBits(0, n))
  {
  }

  lemma {:induction false} ZerosAreQuiet(n: nat)
    ensures Quiet(Bits(Zeros(n)))
  {
    if n > 0 {
      ZerosAreQuiet(n - 1);
      assert Zeros(n)[1..] == Zeros(n - 1);
      WordOfZero(8);
    }
  }

  lemma {:induction false} OnesAppend(a: seq<bool>, b: seq<bool>)
    ensures Ones(a + b) == Ones(a) + Ones(b)
    decreases |a|
  {
    if a == [] {
      assert a + b == b;
    } else {
      OnesAppend(a[1..], b);
      assert (a + b)[1..] == a[1..] + b;
    }
  }

  lemma {:induction false} NoneInQuiet(bits: seq<bool>)
    requires Quiet(bits)
    ensures Ones(bits) == 0
    decreases |bits|
  {
    if bits != [] {
      NoneInQuiet(bits[1..]);
    }
  }

  lemma OnesOfWord(w: bv16, n: nat)
    requires n > 0
    ensures Ones(WordBits(w, n)) == (if w & 1 == 1 then 1 else 0) + Ones(WordBits(w >> 1, n - 1))
    ensures Ones(WordBits(0, n)) == 0
  {
    assert WordBits(w, n)[1..] == WordBits(w >> 1, n - 1);
    WordOfZero(n);
    NoneInQuiet(WordBits(0, n));
  }

  lemma PolynomialOnes()
    ensures Ones(WordBits(0x11, 8)) == 2 && Ones(WordBits(0x08, 8)) == 1 && Ones(WordBits(0x01, 8)) == 1
  {
    hide Ones, WordBits;
    OnesOfWord(0x11, 8);
    OnesOfWord(0x08, 7);
    OnesOfWord(0x04, 6);
    OnesOfWord(0x02, 5);
    OnesOfWord(0x01, 4);
    OnesOfWord(0x00, 3);
    OnesOfWord(0x08, 8);
    OnesOfWord(0x04, 7);
    OnesOfWord(0x02, 6);
    OnesOfWord(0x01, 5);
    OnesOfWord(0x00, 4);
    OnesOfWord(0x01, 8);
    OnesOfWord(0x00, 7);
  }

  lemma PolynomialBits()
    ensures Bits(POLYNOMIAL) == WordBits(0x11, 8) + WordBits(0x08, 8) + WordBits(0x01, 8)
  {
    PolynomialBytes();
    hide WordBits, Widen;
    assert POLYNOMIAL[1..] == [0x08, 0x01] && [0x08 as byte, 0x01][1..] == [0x01] && [0x01 as byte][1..] == [];
    assert Bits([0x01]) == WordBits(0x01, 8) + [];
    assert Bits([0x08, 0x01]) == WordBits(0x08, 8) + Bits([0x01]);
  }

  lemma PolynomialBytes()
    ensures Widen(0x11) == 0x11 && Widen(0x08) == 0x08 && Widen(0x01) == 0x01
  {
    assert FromBits(0x11) == 0x11 && FromBits(0x08) == 0x08 && FromBits(0x01) == 0x01;
    hide ToBits, FromBits;
    BitsOnto(0x11);
    BitsOnto(0x08);
    BitsOnto(0x01);
  }

  lemma ThreeSteps()
    ensures Plus(0, 0x11) == 0x11
    ensures Shift8(Plus(Shift8(Plus(Shift8(0x11), 0x08)), 0x01)) == 0
  {
  }

  lemma PolynomialVanishes()
    ensures Register(0, POLYNOMIAL) == 0
  {
    PolynomialBytes();
    ThreeSteps();
    var a := Shift8(0x11);
    var b := Shift8(Plus(a, 0x08));
    hide Plus, Widen, Turns, Shift8, Register;
    EightTurns(0x11);
    EightTurns(Plus(a, 0x08));
    EightTurns(Plus(b, 0x01));
    RegisterFirst(0, POLYNOMIAL);
    assert POLYNOMIAL[1..] == [0x08, 0x01] && [0x08 as byte, 0x01][1..] == [0x01];
    RegisterFirst(a, [0x08, 0x01]);
    RegisterOne(b, 0x01);
  }

  lemma PolynomialIsBurst()
    ensures Burst(Bits(POLYNOMIAL), 0, 17)
  {
    PolynomialBits();
    LastBit(0x01);
    hide WordBits, Widen, Bits;
  }

  lemma LastBit(w: bv16)
    requires w >> 1 == 0
    ensures Quiet(WordBits(w, 8)[1..])
  {
    WordOfZero(7);
    assert WordBits(w, 8)[1..] == WordBits(0, 7);
  }

  lemma BurstBehind(quiet: seq<bool>, bits: seq<bool>)
    requires Quiet(quiet) && Burst(bits, 0, 17)
    ensures Burst(quiet + bits, |quiet|, 17)
  {
  }

  /** Sixteen is the limit for bursts: in every frame there is one of 17 bits that goes unnoticed. */
  lemma BurstOf17Escapes(m: seq<byte>, lo: byte, hi: byte) returns (e: seq<byte>, p: nat)
    requires Matches(m, lo, hi) && m != []
    ensures |e| == |m| + 2 && Burst(Bits(e), p, 17) && !Quiet(Bits(e))
    ensures Accepted(Received(m, lo, hi, e))
  {
    hide Matches, Accepted, Received, Bits, Ones, Quiet, Burst;
    e := FourBitsEscape(m, lo, hi);
    var z := Zeros(|m| - 1);
    p := |Bits(z)|;
    BitsAppend(z, POLYNOMIAL);
    ZerosAreQuiet(|m| - 1);
    PolynomialIsBurst();
    BurstBehind(Bits(z), Bits(POLYNOMIAL));
    if Quiet(Bits(e)) {
      NoneInQuiet(Bits(e));
      assert false;
    }
  }

  /** In every frame there are four bits that can be flipped without notice. */
  lemma FourBitsEscape(m: seq<byte>, lo: byte, hi: byte) returns (e: seq<byte>)
    requires Matches(m, lo, hi) && m != []
    ensures e == Zeros(|m| - 1) + POLYNOMIAL && |e| == |m| + 2 && Ones(Bits(e)) == 4
    ensures Accepted(Received(m, lo, hi, e))
  {
    hide Matches, Accepted, Received, Bits, Ones, RunBits, WordBits, Quiet;
    var z := Zeros(|m| - 1);
    e := z + POLYNOMIAL;
    EscapesIff(m, lo, hi, e);
    BitsAppend(z, POLYNOMIAL);
    ZerosAreQuiet(|m| - 1);
    RunBitsAppend(0, Bits(z), Bits(POLYNOMIAL));
    QuietKeeps(0, Bits(z));
    PolynomialVanishes();
    RegisterIsRunBits(0, POLYNOMIAL);
    NoneInQuiet(Bits(z));
    PolynomialBits();
    PolynomialOnes();
    OnesAppend(WordBits(0x11, 8), WordBits(0x08, 8));
    OnesAppend(WordBits(0x11, 8) + WordBits(0x08, 8), WordBits(0x01, 8));
    OnesAppend(Bits(z), Bits(POLYNOMIAL));
  }
}
