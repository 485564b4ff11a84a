/** The frame check sequence of the serial link: `calc_crc` and the comparison of its two bytes.

    The register is a reflected 16-bit CRC with polynomial 0x8408, start value 0xFFFF and inverted
    result: the 16-bit FCS of appendix C of RFC 1662. Lemmas that only do algebra hide the
    bit-vector definitions, so that the solver never blasts the same exclusive-or twice. */
module Crc {
  import opened Bytes

  const INIT: bv16 := 0xFFFF
  const GOOD_FCS: bv16 := 0xF0B8

  // ---------------------------------------------------------------- the register

  function Plus(a: bv16, b: bv16): bv16 {
    a ^ b
  }

  /** The bits of a byte: the one 8-bit vector that reads back as `b`. */
  function ToBits(b: byte): (v: bv8)
    ensures FromBits(v) == b
  {
    if b == 0 then 0 else ToBits(b - 1) + 1
  }

  function FromBits(v: bv8): byte {
    v as byte
  }

  lemma BitsOnto(v: bv8)
    ensures ToBits(FromBits(v)) == v
  {
    hide ToBits;
    BitsInjective(ToBits(FromBits(v)), v);
  }

  lemma BitsInjective(v: bv8, w: bv8)
    ensures FromBits(v) == FromBits(w) <==> v == w
  {
  }

  function Widen(b: byte): bv16 {
    ToBits(b) as bv16
  }

  /** One turn of the inner loop. */
  function Shift(r: bv16): bv16 {
    if r & 1 == 1 then Plus(r >> 1, 0x8408) else r >> 1
  }

  /** `n` turns of the inner loop. */
  function Turns(r: bv16, n: nat): bv16 {
    if n == 0 then r else Shift(Turns(r, n - 1))
  }

  /** One turn of the outer loop. */
  function Feed(r: bv16, b: byte): bv16 {
    Turns(Plus(r, Widen(b)), 8)
  }

  /** The register after the bytes `m`, starting from `r`. */
  function Register(r: bv16, m: seq<byte>): bv16 {
    if m == [] then r else Feed(Register(r, m[..|m| - 1]), m[|m| - 1])
  }

  function Checksum(m: seq<byte>): bv16 {
    Plus(Register(INIT, m), 0xFFFF)
  }

  function Low(crc: bv16): byte {
    FromBits((crc & 0x00FF) as bv8)
  }

  function High(crc: bv16): byte {
    FromBits((crc >> 8) as bv8)
  }

  /** The receiver's test: both received check bytes equal the computed ones. */
  predicate Matches(m: seq<byte>, lo: byte, hi: byte) {
    lo == Low(Checksum(m)) && hi == High(Checksum(m))
  }

  // ---------------------------------------------------------------- the source's loops

  /** The 16-bit register inside the source's 32-bit `unsigned int`. */
  function Wide(r: bv16): bv32 {
    r as bv32
  }

  /** The loops of the source on its 32-bit `unsigned int`: the value never leaves 16 bits. */
  method CalcCrc(length: nat, packet: array<byte>) returns (crc: bv32)
    requires length <= packet.Length
    ensures crc == Wide(Checksum(packet[..length])) == Wide(Plus(TableFcs(0xFFFF, packet[..length]), 0xFFFF))
    ensures crc <= 0xFFFF
  {
    WideXor(INIT, INIT);
    WideBounds(Checksum(packet[..length]));
    hide Plus, Feed, Wide, TableFcs;
    BitwiseIsTableDriven(0xFFFF, packet[..length]);
    crc := 0xFFFF;
    var i := 0;
    while i < length
      invariant i <= length
      invariant crc == Wide(Register(INIT, packet[..i]))
    {
      crc := CalcByte(crc, Register(INIT, packet[..i]), packet[i]);
      assert packet[..i + 1][..i] == packet[..i];
      i := i + 1;
    }
    WideXor(Register(INIT, packet[..length]), 0xFFFF);
    crc := crc ^ 0xFFFF;
  }

  /** The inner loop for one byte `c`, on the wide register. */
  method CalcByte(wide: bv32, ghost r: bv16, c: byte) returns (crc: bv32)
    requires wide == Wide(r)
    ensures crc == Wide(Feed(r, c))
  {
    WideXor(r, Widen(c));
    WideByte(c);
    hide Plus, Shift, Widen, Wide, ToBits;
    crc := wide ^ ToBits(c) as bv32;
    ghost var x := Plus(r, Widen(c));
    var j := 0;
    while j < 8
      invariant j <= 8
      invariant crc == Wide(Turns(x, j))
    {
      WideShift(Turns(x, j));
      if crc & 0x0001 != 0 {
        crc := (crc >> 1) ^ 0x8408;
      } else {
        crc := crc >> 1;
      }
      j := j + 1;
    }
  }

  lemma WideXor(a: bv16, b: bv16)
    ensures Wide(a) ^ Wide(b) == Wide(Plus(a, b))
    ensures Wide(0xFFFF) == 0xFFFF
  {
  }

  lemma WideByte(c: byte)
    ensures ToBits(c) as bv32 == Wide(Widen(c))
  {
    hide ToBits;
  }

  lemma WideBounds(r: bv16)
    ensures Wide(r) <= 0xFFFF
  {
  }

  lemma WideShift(r: bv16)
    ensures Wide(r) & 0x0001 != 0 ==> (Wide(r) >> 1) ^ 0x8408 == Wide(Shift(r))
    ensures Wide(r) & 0x0001 == 0 ==> Wide(r) >> 1 == Wide(Shift(r))
  {
    hide Wide, Plus;
    WideHalf(r);
    WideXor(r >> 1, 0x8408);
  }

  lemma WideHalf(r: bv16)
    ensures Wide(r) >> 1 == Wide(r >> 1)
    ensures Wide(r) & 0x0001 != 0 <==> r & 1 == 1
    ensures Wide(0x8408) == 0x8408
  {
  }

  // ---------------------------------------------------------------- linearity

  lemma PlusAssoc(a: bv16, b: bv16, c: bv16)
    ensures Plus(Plus(a, b), c) == Plus(a, Plus(b, c))
  {
  }

  lemma PlusComm(a: bv16, b: bv16)
    ensures Plus(a, b) == Plus(b, a)
  {
  }

  lemma PlusSelf(a: bv16)
    ensures Plus(a, a) == 0 && Plus(a, 0) == a && Plus(0, a) == a
  {
  }

  lemma PlusSwap(a: bv16, b: bv16, c: bv16, d: bv16)
    ensures Plus(Plus(a, b), Plus(c, d)) == Plus(Plus(a, c), Plus(b, d))
  {
    hide *;
    PlusAssoc(a, b, Plus(c, d));
    PlusAssoc(a, c, Plus(b, d));
    PlusAssoc(b, c, d);
    PlusAssoc(c, b, d);
    PlusComm(b, c);
  }

  lemma PlusCancel(a: bv16, b: bv16, c: bv16)
    ensures Plus(a, b) == c <==> a == Plus(c, b)
  {
    hide *;
    PlusAssoc(a, b, b);
    PlusAssoc(c, b, b);
    PlusSelf(b);
    PlusSelf(a);
    PlusSelf(c);
  }

  lemma HalfPlus(x: bv16, y: bv16)
    ensures Plus(x, y) >> 1 == Plus(x >> 1, y >> 1)
  {
    hide Plus;
    HalfXor(x, y);
    PlusIsXor(x, y);
    PlusIsXor(x >> 1, y >> 1);
  }

  lemma PlusIsXor(x: bv16, y: bv16)
    ensures Plus(x, y) == x ^ y
  {
  }

  lemma HalfXor(x: bv16, y: bv16)
    ensures (x ^ y) >> 1 == (x >> 1) ^ (y >> 1)
  {
  }

  lemma OddPlus(x: bv16, y: bv16)
    ensures (Plus(x, y) & 1 == 1) <==> ((x & 1 == 1) != (y & 1 == 1))
  {
  }

  lemma ShiftLinear(x: bv16, y: bv16)
    ensures Shift(Plus(x, y)) == Plus(Shift(x), Shift(y))
  {
    HalfPlus(x, y);
    OddPlus(x, y);
    hide Plus;
    var a, b, p := x >> 1, y >> 1, 0x8408;
    PlusSwap(a, p, b, p);
    PlusSelf(p);
    PlusSelf(Plus(a, b));
    PlusAssoc(a, b, p);
    PlusAssoc(a, p, b);
    PlusComm(p, b);
  }

  lemma {:induction false} TurnsLinear(x: bv16, y: bv16, n: nat)
    ensures Turns(Plus(x, y), n) == Plus(Turns(x, n), Turns(y, n))
  {
    hide Shift, Plus;
    if n > 0 {
      TurnsLinear(x, y, n - 1);
      ShiftLinear(Turns(x, n - 1), Turns(y, n - 1));
    }
  }

  function Xor(a: seq<byte>, b: seq<byte>): seq<byte>
    requires |a| == |b|
  {
    seq(|a|, i requires 0 <= i < |a| => Flip(a[i], b[i]))
  }

  function Flip(a: byte, b: byte): byte {
    FromBits(ToBits(a) ^ ToBits(b))
  }

  lemma WidenFlip(a: byte, b: byte)
    ensures Widen(Flip(a, b)) == Plus(Widen(a), Widen(b))
  {
    var x, y := ToBits(a), ToBits(b);
    BitsOnto(x ^ y);
    hide ToBits, FromBits;
  }

  lemma FeedLinear(r: bv16, s: bv16, a: byte, b: byte)
    ensures Feed(Plus(r, s), Flip(a, b)) == Plus(Feed(r, a), Feed(s, b))
  {
    hide Plus, Widen, Flip, Turns, Shift;
    var x, y := Widen(a), Widen(b);
    WidenFlip(a, b);
    PlusSwap(r, s, x, y);
    TurnsLinear(Plus(r, x), Plus(s, y), 8);
  }

  /** Flipping bits of the input flips the register by what the flips alone would produce. */
  lemma {:induction false} RegisterLinear(r: bv16, s: bv16, a: seq<byte>, b: seq<byte>)
    requires |a| == |b|
    ensures Register(Plus(r, s), Xor(a, b)) == Plus(Register(r, a), Register(s, b))
  {
    hide Plus, Feed, Flip;
    if a != [] {
      var n := |a| - 1;
      RegisterLinear(r, s, a[..n], b[..n]);
      assert Xor(a, b)[..n] == Xor(a[..n], b[..n]);
      FeedLinear(Register(r, a[..n]), Register(s, b[..n]), a[n], b[n]);
    }
  }

  // ---------------------------------------------------------------- running the register

  lemma RegisterOne(r: bv16, b: byte)
    ensures Register(r, [b]) == Feed(r, b)
  {
    hide Feed;
    assert [b][..0] == [];
  }

  lemma {:induction false} RegisterAppend(r: bv16, a: seq<byte>, b: seq<byte>)
    ensures Register(r, a + b) == Register(Register(r, a), b)
  {
    hide Feed;
    if b == [] {
      assert a + b == a;
    } else {
      var n := |b| - 1;
      RegisterAppend(r, a, b[..n]);
      assert (a + b)[..|a + b| - 1] == a + b[..n];
    }
  }

  lemma RegisterFirst(r: bv16, m: seq<byte>)
    requires m != []
    ensures Register(r, m) == Register(Feed(r, m[0]), m[1..])
  {
    hide Feed, Register;
    RegisterAppend(r, [m[0]], m[1..]);
    RegisterOne(r, m[0]);
    assert [m[0]] + m[1..] == m;
  }

  lemma {:induction false} TurnsAdd(r: bv16, m: nat, n: nat)
    ensures Turns(r, m + n) == Turns(Turns(r, m), n)
  {
    hide Shift;
    if n > 0 {
      TurnsAdd(r, m, n - 1);
    }
  }

  lemma ShiftZero(r: bv16)
    ensures Shift(r) == 0 <==> r == 0
  {
  }

  /** The shift step loses nothing: equal registers come only from equal registers. */
  lemma {:induction false} TurnsInjective(x: bv16, y: bv16, n: nat)
    ensures Turns(x, n) == Turns(y, n) <==> x == y
  {
    hide Shift, Plus;
    if n > 0 {
      TurnsInjective(x, y, n - 1);
      var a, b := Turns(x, n - 1), Turns(y, n - 1);
      ShiftLinear(a, b);
      ShiftZero(Plus(a, b));
      PlusCancel(a, b, 0);
      PlusCancel(Shift(a), Shift(b), 0);
      PlusSelf(b);
      PlusSelf(Shift(b));
    }
  }

  /** Eight turns written out, for the facts the solver settles by looking at every bit. */
  function Shift8(r: bv16): bv16 {
    Shift(Shift(Shift(Shift(Shift(Shift(Shift(Shift(r))))))))
  }

  lemma EightTurns(r: bv16)
    ensures Turns(r, 8) == Shift8(r)
  {
    hide Shift;
    assert Turns(r, 1) == Shift(r);
    assert Turns(r, 2) == Shift(Shift(r));
    assert Turns(r, 4) == Shift(Shift(Turns(r, 2)));
    assert Turns(r, 6) == Shift(Shift(Turns(r, 4)));
  }

  lemma HighTurns(b: byte)
    ensures Turns(Widen(b) << 8, 8) == Widen(b)
  {
    hide ToBits, Shift8, Turns;
    EightTurns(Widen(b) << 8);
    HighShift8(ToBits(b));
  }

  lemma HighShift8(v: bv8)
    ensures Shift8(v as bv16 << 8) == v as bv16
  {
  }

  // ---------------------------------------------------------------- table-driven form

  /** Entry `b` of the look-up table, as section C.1 of RFC 1662 generates it. */
  function TableEntry(b: byte): bv16 {
    Turns(Widen(b), 8)
  }

  /** The table-driven computation of section C.2 of RFC 1662. */
  function TableFcs(r: bv16, m: seq<byte>): bv16
    decreases |m|
  {
    if m == [] then r
    else TableFcs(Plus(Widen(High(r)), TableEntry(Low(Plus(r, Widen(m[0]))))), m[1..])
  }

  /** The table is linear and its eight single-bit entries are the published ones, which fixes all 256. */
  lemma TableAsPublished(a: byte, b: byte)
    ensures TableEntry(Flip(a, b)) == Plus(TableEntry(a), TableEntry(b))
    ensures TableEntry(0x01) == 0x1189 && TableEntry(0x02) == 0x2312
    ensures TableEntry(0x04) == 0x4624 && TableEntry(0x08) == 0x8C48
    ensures TableEntry(0x10) == 0x1081 && TableEntry(0x20) == 0x2102
    ensures TableEntry(0x40) == 0x4204 && TableEntry(0x80) == 0x8408
  {
    SingleBitEntries();
    hide Plus, Widen, Flip, Turns, Shift8;
    WidenFlip(a, b);
    TurnsLinear(Widen(a), Widen(b), 8);
    EightTurns(0x01);
    EightTurns(0x02);
    EightTurns(0x04);
    EightTurns(0x08);
    EightTurns(0x10);
    EightTurns(0x20);
    EightTurns(0x40);
    EightTurns(0x80);
  }

  lemma SingleBitEntries()
    ensures Shift8(0x01) == 0x1189 && Shift8(0x02) == 0x2312 && Shift8(0x04) == 0x4624 && Shift8(0x08) == 0x8C48
    ensures Shift8(0x10) == 0x1081 && Shift8(0x20) == 0x2102 && Shift8(0x40) == 0x4204 && Shift8(0x80) == 0x8408
    ensures Widen(0x01) == 0x01 && Widen(0x02) == 0x02 && Widen(0x04) == 0x04 && Widen(0x08) == 0x08
    ensures Widen(0x10) == 0x10 && Widen(0x20) == 0x20 && Widen(0x40) == 0x40 && Widen(0x80) == 0x80
  {
    SingleBits();
    hide ToBits;
  }

  lemma SingleBits()
    ensures ToBits(0x01) == 0x01 && ToBits(0x02) == 0x02 && ToBits(0x04) == 0x04 && ToBits(0x08) == 0x08
    ensures ToBits(0x10) == 0x10 && ToBits(0x20) == 0x20 && ToBits(0x40) == 0x40 && ToBits(0x80) == 0x80
  {
    assert FromBits(0x01) == 0x01 && FromBits(0x02) == 0x02 && FromBits(0x04) == 0x04 && FromBits(0x08) == 0x08;
    assert FromBits(0x10) == 0x10 && FromBits(0x20) == 0x20 && FromBits(0x40) == 0x40 && FromBits(0x80) == 0x80;
    hide ToBits, FromBits;
    BitsOnto(0x01);
    BitsOnto(0x02);
    BitsOnto(0x04);
    BitsOnto(0x08);
    BitsOnto(0x10);
    BitsOnto(0x20);
    BitsOnto(0x40);
    BitsOnto(0x80);
  }

  lemma SplitBytes(x: bv16)
    ensures x == Plus(Widen(High(x)) << 8, Widen(Low(x)))
  {
    hide ToBits, FromBits;
    BitsOnto((x & 0x00FF) as bv8);
    BitsOnto((x >> 8) as bv8);
  }

  lemma HighUntouched(r: bv16, b: byte)
    ensures High(Plus(r, Widen(b))) == High(r)
  {
    hide ToBits, FromBits;
  }

  lemma FeedIsTableStep(r: bv16, b: byte)
    ensures Feed(r, b) == Plus(Widen(High(r)), TableEntry(Low(Plus(r, Widen(b)))))
  {
    var x := Plus(r, Widen(b));
    SplitBytes(x);
    HighUntouched(r, b);
    HighTurns(High(x));
    var h := Widen(High(x)) << 8;
    hide Plus, Widen, High, Low, Turns;
    TurnsLinear(h, Widen(Low(x)), 8);
  }

  /** The bitwise loop is the table-driven FCS of the standard, for every byte string. */
  lemma {:induction false} BitwiseIsTableDriven(r: bv16, m: seq<byte>)
    ensures Register(r, m) == TableFcs(r, m)
    decreases |m|
  {
    hide Plus, Widen, High, Low, Feed, TableEntry;
    if m != [] {
      FeedIsTableStep(r, m[0]);
      BitwiseIsTableDriven(Feed(r, m[0]), m[1..]);
      RegisterFirst(r, m);
    }
  }

  // ---------------------------------------------------------------- residue

  function Word(lo: byte, hi: byte): bv16 {
    Plus(Widen(hi) << 8, Widen(lo))
  }

  lemma CheckWord(crc: bv16, lo: byte, hi: byte)
    ensures lo == Low(crc) && hi == High(crc) <==> crc == Word(lo, hi)
  {
    hide *;
    SplitBytes(crc);
    BytesOfWord(lo, hi);
    WordIsSplit(Low(crc), High(crc));
  }

  lemma WordIsSplit(lo: byte, hi: byte)
    ensures Word(lo, hi) == Plus(Widen(hi) << 8, Widen(lo))
  {
  }

  lemma BytesOfWord(lo: byte, hi: byte)
    ensures Low(Word(lo, hi)) == lo && High(Word(lo, hi)) == hi
  {
    hide ToBits, FromBits;
  }

  /** Two bytes can be added to the register at once, before sixteen turns. */
  lemma FeedTwo(r: bv16, lo: byte, hi: byte)
    ensures Register(r, [lo, hi]) == Turns(Plus(r, Word(lo, hi)), 16)
  {
    HighTurns(hi);
    var h := Widen(hi) << 8;
    assert Word(lo, hi) == Plus(h, Widen(lo));
    hide Plus, Widen, Word, Turns, Register;
    var x := Plus(r, Widen(lo));
    assert [lo, hi][1..] == [hi];
    RegisterFirst(r, [lo, hi]);
    RegisterOne(Feed(r, lo), hi);
    TurnsLinear(x, h, 8);
    TurnsAdd(Plus(x, h), 8, 8);
    PlusAssoc(r, Widen(lo), h);
    PlusComm(h, Widen(lo));
  }

  lemma GoodWord()
    ensures Turns(0xFFFF, 16) == GOOD_FCS
  {
    assert Shift8(Shift8(0xFFFF)) == GOOD_FCS;
    hide Shift8, Turns;
    TurnsAdd(0xFFFF, 8, 8);
    EightTurns(0xFFFF);
    EightTurns(Shift8(0xFFFF));
  }

  /** The byte-wise comparison succeeds exactly when running the register over the message and the
      two received check bytes ends at the good-FCS value of section C.2 of RFC 1662. */
  lemma AcceptIffGoodFcs(m: seq<byte>, lo: byte, hi: byte)
    ensures Matches(m, lo, hi) <==> Register(INIT, m + [lo, hi]) == GOOD_FCS
  {
    hide Plus, Word, Turns, Register, Low, High;
    var r, w := Register(INIT, m), Word(lo, hi);
    RegisterAppend(INIT, m, [lo, hi]);
    FeedTwo(r, lo, hi);
    GoodWord();
    TurnsInjective(Plus(r, w), 0xFFFF, 16);
    CheckWord(Plus(r, 0xFFFF), lo, hi);
    PlusCancel(r, 0xFFFF, w);
    PlusCancel(r, w, 0xFFFF);
    PlusComm(w, 0xFFFF);
  }
}
