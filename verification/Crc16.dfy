/** The 16-bit checksum, bit by bit: single changed bytes and bursts of up to 16 bits are found, and a
    message followed by its checksum, low byte first, has the checksum 0. */
module Crc16 {
  import opened BitStreams

  const INIT: bv16 := 0xFFFF
  const POLY: bv16 := 0xA001

  /** One bit, `ds` being what is left of the byte. */
  function Round(crc: bv16, ds: bv8): bv16 {
    Halved(crc, Carry(Add(crc, ds)))
  }

  function Halved(c: bv16, carry: bv16): bv16 { (c >> 1) ^ carry }

  /** What the lowest bit adds. */
  function Carry(c: bv16): bv16 { if c & 1 == 1 then POLY else 0 }

  function Add(c: bv16, ds: bv8): bv16 { c ^ (ds as bv16) }

  /** The first `n` bits of a byte. */
  function Rounds(crc: bv16, ds: bv8, n: nat): bv16
    decreases n
  {
    if n == 0 then crc else Rounds(Round(crc, ds), Shift(ds), n - 1)
  }

  function Byte(crc: bv16, ds: bv8): bv16 { Rounds(crc, ds, 8) }

  function Bytes(crc: bv16, data: seq<bv8>): bv16 {
    if data == [] then crc else Byte(Bytes(crc, data[..|data| - 1]), data[|data| - 1])
  }

  function Checksum(data: seq<bv8>): bv16 { Bytes(INIT, data) }

  /** get_crc_16(). */
  method GetCrc16(data: seq<bv8>) returns (crc: bv16)
    ensures crc == Checksum(data)
  {
    crc := INIT;
    var j := 0;
    while j < |data|
      invariant 0 <= j <= |data| && crc == Bytes(INIT, data[..j])
    {
      hide Round, Shift;
      var ds := data[j];
      ghost var start := crc;
      var i := 0;
      while i < 8
        invariant 0 <= i <= 8 && Rounds(crc, ds, 8 - i) == Byte(start, data[j])
      {
        crc, ds := Round(crc, ds), Shift(ds);
        i := i + 1;
      }
      assert data[..j + 1][..j] == data[..j];
      j := j + 1;
    }
    assert data[..j] == data;
  }

  // A byte at once

  /** One bit of a checksum to which the byte was added before. */
  function Bit(c: bv16): bv16 { Halved(c, Carry(c)) }

  function Bits(c: bv16, n: nat): bv16
    decreases n
  {
    if n == 0 then c else Bits(Bit(c), n - 1)
  }

  lemma RoundIsBit(crc: bv16, ds: bv8)
    ensures Add(Round(crc, ds), Shift(ds)) == Bit(Add(crc, ds))
  {
    hide Carry, Add, Shift, Halved;
    Later(crc, ds, Carry(Add(crc, ds)));
  }

  lemma Later(crc: bv16, ds: bv8, p: bv16)
    ensures Add(Halved(crc, p), Shift(ds)) == Halved(Add(crc, ds), p)
  {}

  /** Adding the bits one by one is adding the byte at once. */
  lemma {:induction false} RoundsAreBits(crc: bv16, ds: bv8, n: nat)
    ensures Add(Rounds(crc, ds, n), Shifts(ds, n)) == Bits(Add(crc, ds), n)
    decreases n
  {
    hide Round, Shift, Bit, Add;
    if n > 0 {
      RoundIsBit(crc, ds);
      RoundsAreBits(Round(crc, ds), Shift(ds), n - 1);
    }
  }

  lemma ByteIsBits(crc: bv16, ds: bv8)
    ensures Byte(crc, ds) == Bits(Add(crc, ds), 8)
  {
    hide Bits, Rounds, Shifts;
    RoundsAreBits(crc, ds, 8);
    NothingLeft(ds);
    AddNothing(Rounds(crc, ds, 8));
  }

  lemma AddNothing(c: bv16)
    ensures Add(c, 0) == c
  {}

  // Changed bytes

  lemma BitInjective(c: bv16, d: bv16)
    requires Bit(c) == Bit(d)
    ensures c == d
  {}

  lemma {:induction false} BitsInjective(c: bv16, d: bv16, n: nat)
    requires Bits(c, n) == Bits(d, n)
    ensures c == d
    decreases n
  {
    hide Bit;
    if n > 0 {
      BitsInjective(Bit(c), Bit(d), n - 1);
      BitInjective(c, d);
    }
  }

  lemma AddInjective(c: bv16, d: bv16, a: bv8, b: bv8)
    ensures Add(c, b) == Add(d, b) ==> c == d
    ensures Add(c, a) == Add(c, b) ==> a == b
  {}

  lemma ByteInjective(c: bv16, d: bv16, a: bv8, b: bv8)
    ensures Byte(c, b) == Byte(d, b) ==> c == d
    ensures Byte(c, a) == Byte(c, b) ==> a == b
  {
    hide Bits, Byte, Add;
    ByteIsBits(c, b);
    ByteIsBits(d, b);
    ByteIsBits(c, a);
    if Byte(c, b) == Byte(d, b) { BitsInjective(Add(c, b), Add(d, b), 8); }
    if Byte(c, a) == Byte(c, b) { BitsInjective(Add(c, a), Add(c, b), 8); }
    AddInjective(c, d, a, b);
  }

  lemma {:induction false} BytesSplit(crc: bv16, a: seq<bv8>, b: seq<bv8>)
    ensures Bytes(crc, a + b) == Bytes(Bytes(crc, a), b)
  {
    hide Byte;
    if b == [] {
      assert a + b == a;
    } else {
      assert (a + b)[..|a + b| - 1] == a + b[..|b| - 1];
      BytesSplit(crc, a, b[..|b| - 1]);
    }
  }

  lemma {:induction false} BytesInjective(c: bv16, d: bv16, data: seq<bv8>)
    requires Bytes(c, data) == Bytes(d, data)
    ensures c == d
  {
    hide Byte;
    if data != [] {
      var n := |data| - 1;
      ByteInjective(Bytes(c, data[..n]), Bytes(d, data[..n]), data[n], data[n]);
      BytesInjective(c, d, data[..n]);
    }
  }

  lemma OneByte(crc: bv16, b: bv8)
    ensures Bytes(crc, [b]) == Byte(crc, b)
  {
    hide Byte;
    assert [b][..0] == [];
    assert Bytes(crc, []) == crc;
  }

  /** Messages that differ in exactly one byte never have the same checksum. */
  lemma ChangedByteFound(before: seq<bv8>, a: bv8, b: bv8, after: seq<bv8>)
    requires a != b
    ensures Checksum(before + [a] + after) != Checksum(before + [b] + after)
  {
    hide Byte, Bytes;
    var c := Bytes(INIT, before);
    BytesSplit(INIT, before + [a], after);
    BytesSplit(INIT, before, [a]);
    BytesSplit(INIT, before + [b], after);
    BytesSplit(INIT, before, [b]);
    OneByte(c, a);
    OneByte(c, b);
    if Checksum(before + [a] + after) == Checksum(before + [b] + after) {
      BytesInjective(Byte(c, a), Byte(c, b), after);
      ByteInjective(c, c, a, b);
    }
  }

  // Bursts

  /** One bit of the message. */
  function FeedBit(c: bv16, b: bool): bv16 { Bit(WithBit(c, b)) }

  function WithBit(c: bv16, b: bool): bv16 { if b then c ^ 1 else c }

  function Feed(c: bv16, bits: seq<bool>): bv16
    decreases bits
  {
    if bits == [] then c else Feed(FeedBit(c, bits[0]), bits[1..])
  }

  lemma {:induction false} FeedSplit(c: bv16, x: seq<bool>, y: seq<bool>)
    ensures Feed(c, x + y) == Feed(Feed(c, x), y)
    decreases x
  {
    hide FeedBit;
    if x == [] {
      assert x + y == y;
    } else {
      assert (x + y)[1..] == x[1..] + y;
      FeedSplit(FeedBit(c, x[0]), x[1..], y);
    }
  }

  lemma FeedBitInjective(c: bv16, d: bv16, b: bool)
    requires FeedBit(c, b) == FeedBit(d, b)
    ensures c == d
  {}

  lemma {:induction false} FeedInjective(c: bv16, d: bv16, bits: seq<bool>)
    requires Feed(c, bits) == Feed(d, bits)
    ensures c == d
    decreases bits
  {
    hide FeedBit;
    if bits != [] {
      FeedInjective(FeedBit(c, bits[0]), FeedBit(d, bits[0]), bits[1..]);
      FeedBitInjective(c, d, bits[0]);
    }
  }

  lemma RoundFeeds(c: bv16, ds: bv8)
    ensures Round(c, ds) == FeedBit(c, Odd(ds))
  {}

  lemma {:induction false} RoundsFeed(c: bv16, ds: bv8, n: nat)
    ensures Rounds(c, ds, n) == Feed(c, LowBits(ds, n))
    decreases n
  {
    hide Round, Shift, Odd, FeedBit;
    if n > 0 {
      var bits := LowBits(ds, n);
      assert bits[0] == Odd(ds) && bits[1..] == LowBits(Shift(ds), n - 1);
      RoundFeeds(c, ds);
      RoundsFeed(Round(c, ds), Shift(ds), n - 1);
    }
  }

  /** The checksum depends on the bits of the message only. */
  lemma {:induction false} BytesFeed(c: bv16, data: seq<bv8>)
    ensures Bytes(c, data) == Feed(c, Stream(data))
  {
    if data != [] {
      hide Rounds, Feed, LowBits;
      var front, last := data[..|data| - 1], data[|data| - 1];
      BytesFeed(c, front);
      FeedSplit(c, Stream(front), LowBits(last, 8));
      RoundsFeed(Bytes(c, front), last, 8);
    }
  }

  function Plus(c: bv16, x: bv16): bv16 { c ^ x }

  /** Bits as a word, first bit lowest. */
  function Word(bits: seq<bool>): bv16 {
    if bits == [] then 0 else Before(bits[0], Word(bits[1..]))
  }

  function Before(b: bool, x: bv16): bv16 { WithBit(Up(x), b) }

  function Up(x: bv16): bv16 { x << 1 }

  function Mask(n: nat): bv16 { if n == 0 then 0 else (Mask(n - 1) << 1) | 1 }

  predicate Fits(x: bv16, m: bv16) { x & m == x }

  lemma FitsBefore(b: bool, x: bv16, m: bv16)
    requires Fits(x, m)
    ensures Fits(Before(b, x), (m << 1) | 1)
  {
    FitsUp(x, m);
    FitsUpAndOne(x, m);
    hide Fits;
  }

  lemma FitsUp(x: bv16, m: bv16)
    requires x & m == x
    ensures (x << 1) & ((m << 1) | 1) == x << 1
  {}

  lemma FitsUpAndOne(x: bv16, m: bv16)
    requires x & m == x
    ensures ((x << 1) ^ 1) & ((m << 1) | 1) == (x << 1) ^ 1
  {}

  lemma NothingFits(m: bv16)
    ensures Fits(0, m)
  {}

  lemma {:induction false} WordFits(bits: seq<bool>, n: nat)
    requires |bits| <= n
    ensures Fits(Word(bits), Mask(n))
    decreases n
  {
    hide Fits, Before;
    if bits == [] {
      NothingFits(Mask(n));
    } else {
      WordFits(bits[1..], n - 1);
      FitsBefore(bits[0], Word(bits[1..]), Mask(n - 1));
    }
  }

  /** The bits after the first leave the highest one free. */
  lemma RestFits(bits: seq<bool>)
    requires 1 <= |bits| <= 16
    ensures Fits(Word(bits[1..]), 0x7FFF)
  {
    WordFits(bits[1..], 15);
    hide Fits, Word;
    assert Mask(15) == 0x7FFF;
  }

  lemma PlusNothing(c: bv16)
    ensures Plus(c, 0) == c
  {}

  /** Adding a bit and then the bits after it is adding them together, unless one is shifted out. */
  lemma FeedWord(c: bv16, b: bool, x: bv16)
    requires Fits(x, 0x7FFF)
    ensures Plus(FeedBit(c, b), x) == Bit(Plus(c, Before(b, x)))
  {
    hide Plus, WithBit, Before, Fits, Halved, Carry, Up;
    var d := WithBit(c, b);
    BitFirst(c, b, x);
    SameCarry(d, x);
    HalvedAdds(d, x, Carry(d));
  }

  lemma BitFirst(c: bv16, b: bool, x: bv16)
    ensures Plus(c, Before(b, x)) == Plus(WithBit(c, b), Up(x))
  {
    hide Up;
    Moved(c, Up(x), 1);
  }

  lemma Moved(a: bv16, b: bv16, c: bv16)
    ensures a ^ (b ^ c) == (a ^ c) ^ b
  {}

  lemma SameCarry(c: bv16, x: bv16)
    ensures Carry(Plus(c, Up(x))) == Carry(c)
  {}

  lemma HalvedAdds(c: bv16, x: bv16, p: bv16)
    requires Fits(x, 0x7FFF)
    ensures Halved(Plus(c, Up(x)), p) == Plus(Halved(c, p), x)
  {
    hide Halved, Plus, Up, Half, Fits;
    UpAndDown(x);
    HalvedPlus(c, Up(x), p);
  }

  function Half(c: bv16): bv16 { c >> 1 }

  lemma UpAndDown(x: bv16)
    requires Fits(x, 0x7FFF)
    ensures Half(Up(x)) == x
  {
    EvenRead(x);
  }

  lemma HalvedPlus(c: bv16, y: bv16, p: bv16)
    ensures Halved(Plus(c, y), p) == Plus(Halved(c, p), Half(y))
  {
    ShiftAdds(c, y);
    Rearranged(c >> 1, y >> 1, p);
  }

  lemma ShiftAdds(a: bv16, b: bv16)
    ensures (a ^ b) >> 1 == (a >> 1) ^ (b >> 1)
  {}

  lemma Rearranged(a: bv16, b: bv16, c: bv16)
    ensures (a ^ b) ^ c == (a ^ c) ^ b
  {}

  lemma {:induction false} FeedIsBits(c: bv16, bits: seq<bool>)
    requires |bits| <= 16
    ensures Feed(c, bits) == Bits(Plus(c, Word(bits)), |bits|)
    decreases bits
  {
    hide FeedBit, Bit, Before, Fits, Mask, Plus;
    if bits == [] {
      PlusNothing(c);
    } else {
      RestFits(bits);
      FeedWord(c, bits[0], Word(bits[1..]));
      FeedIsBits(FeedBit(c, bits[0]), bits[1..]);
    }
  }

  predicate Lowest(c: bv16) { c & 1 == 1 }

  /** The bit and the bits after it can be told from the word. */
  lemma BeforeRead(b: bool, x: bv16)
    requires Fits(x, 0x7FFF)
    ensures Lowest(Before(b, x)) == b && Half(Before(b, x)) == x
  {
    if b { OddRead(x); } else { EvenRead(x); }
  }

  lemma OddRead(x: bv16)
    requires x & 0x7FFF == x
    ensures ((x << 1) ^ 1) & 1 == 1 && ((x << 1) ^ 1) >> 1 == x
  {}

  lemma EvenRead(x: bv16)
    requires x & 0x7FFF == x
    ensures (x << 1) & 1 == 0 && (x << 1) >> 1 == x
  {}

  lemma {:induction false} WordInjective(x: seq<bool>, y: seq<bool>)
    requires |x| == |y| <= 16 && Word(x) == Word(y)
    ensures x == y
  {
    if x != [] {
      RestFits(x);
      RestFits(y);
      hide Before, Fits, Lowest, Half;
      BeforeRead(x[0], Word(x[1..]));
      BeforeRead(y[0], Word(y[1..]));
      WordInjective(x[1..], y[1..]);
      assert x == [x[0]] + x[1..] && y == [y[0]] + y[1..];
    }
  }

  lemma PlusInjective(c: bv16, x: bv16, y: bv16)
    requires Plus(c, x) == Plus(c, y)
    ensures x == y
  {}

  /** From one state, different bits lead to different states, up to 16 of them. */
  lemma FeedDiffers(c: bv16, x: seq<bool>, y: seq<bool>)
    requires |x| == |y| <= 16 && Feed(c, x) == Feed(c, y)
    ensures x == y
  {
    hide Bits, Word, Feed, Plus;
    FeedIsBits(c, x);
    FeedIsBits(c, y);
    BitsInjective(Plus(c, Word(x)), Plus(c, Word(y)), |x|);
    PlusInjective(c, Word(x), Word(y));
    WordInjective(x, y);
  }

  /** Different messages of equal length whose differences lie within 16 consecutive bits, wherever
      these start, never have the same checksum. */
  lemma BurstFound(m: seq<bv8>, m': seq<bv8>, k: nat)
    requires m != m' && |m| == |m'| && DifferWithin(Stream(m), Stream(m'), k, 16)
    ensures Checksum(m) != Checksum(m')
  {
    hide Bytes, Feed, Stream, DifferWithin;
    if Checksum(m) == Checksum(m') {
      BytesFeed(INIT, m);
      BytesFeed(INIT, m');
      var x, y := Stream(m), Stream(m');
      var a, b := Window(x, y, k, 16);
      var c := Feed(INIT, x[..a]);
      FeedSplit(INIT, x[..a] + x[a..b], x[b..]);
      FeedSplit(INIT, x[..a], x[a..b]);
      FeedSplit(INIT, x[..a] + y[a..b], x[b..]);
      FeedSplit(INIT, x[..a], y[a..b]);
      FeedInjective(Feed(c, x[a..b]), Feed(c, y[a..b]), x[b..]);
      FeedDiffers(c, x[a..b], y[a..b]);
      StreamInjective(m, m');
    }
  }

  // The checksum is a remainder

  /** x^15 + x^2 + 1: with x^16, the polynomial of CRC-16. */
  const POLYNOMIAL: seq<bool> := [true] + Zeros(12) + [true, false, true]

  /** The bits of a state, lowest first. */
  function RegisterBit(c: bv16, i: nat): bool
    decreases i
  {
    if i == 0 then Lowest(c) else RegisterBit(Half(c), i - 1)
  }

  function Register(c: bv16): seq<bool> { seq(16, i requires 0 <= i => RegisterBit(c, i)) }

  lemma LowestAdds(c: bv16, d: bv16)
    ensures Lowest(Plus(c, d)) == (Lowest(c) != Lowest(d)) && Half(Plus(c, d)) == Plus(Half(c), Half(d))
  {
    ShiftAdds(c, d);
    if Lowest(d) { OddAdded(c, d); } else { EvenAdded(c, d); }
  }

  lemma OddAdded(c: bv16, d: bv16)
    requires d & 1 == 1
    ensures ((c ^ d) & 1 == 1) == (c & 1 != 1)
  {}

  lemma EvenAdded(c: bv16, d: bv16)
    requires d & 1 != 1
    ensures ((c ^ d) & 1 == 1) == (c & 1 == 1)
  {}

  lemma {:induction false} RegisterAdds(c: bv16, d: bv16, i: nat)
    ensures RegisterBit(Plus(c, d), i) == (RegisterBit(c, i) != RegisterBit(d, i))
    decreases i
  {
    hide Lowest, Half, Plus;
    LowestAdds(c, d);
    if i > 0 { RegisterAdds(Half(c), Half(d), i - 1); }
  }

  function FourDown(c: bv16): bv16 { Half(Half(Half(Half(c)))) }

  /** Four bits at a time. */
  lemma RegisterDown(c: bv16, i: nat)
    ensures RegisterBit(c, i + 4) == RegisterBit(FourDown(c), i)
  {
    hide Half, Lowest;
    assert RegisterBit(c, i + 4) == RegisterBit(Half(c), i + 3);
    assert RegisterBit(Half(c), i + 3) == RegisterBit(Half(Half(c)), i + 2);
    assert RegisterBit(Half(Half(c)), i + 2) == RegisterBit(Half(Half(Half(c))), i + 1);
  }

  lemma FourBits(c: bv16)
    ensures RegisterBit(c, 0) == Lowest(c) && RegisterBit(c, 1) == Lowest(Half(c))
    ensures RegisterBit(c, 2) == Lowest(Half(Half(c))) && RegisterBit(c, 3) == Lowest(Half(Half(Half(c))))
  {
    hide Half, Lowest;
  }

  lemma AllOut(c: bv16)
    ensures FourDown(FourDown(FourDown(FourDown(c)))) == 0 && !Lowest(0)
  {}

  lemma RegisterEnds(c: bv16)
    ensures !RegisterBit(c, 16)
  {
    var c1 := FourDown(c);
    var c2 := FourDown(c1);
    var c3 := FourDown(c2);
    AllOut(c);
    hide Half, Lowest, FourDown;
    RegisterDown(c, 12);
    RegisterDown(c1, 8);
    RegisterDown(c2, 4);
    RegisterDown(c3, 0);
  }

  /** The bits of a state, four by four. */
  lemma FourByFour(c: bv16, i: nat)
    requires i < 4
    ensures var c1 := FourDown(c); var c2 := FourDown(c1); var c3 := FourDown(c2);
            && RegisterBit(c, i + 4) == RegisterBit(c1, i) && RegisterBit(c, i + 8) == RegisterBit(c2, i)
            && RegisterBit(c, i + 12) == RegisterBit(c3, i)
  {
    hide FourDown, RegisterBit;
    var c1 := FourDown(c);
    var c2 := FourDown(c1);
    RegisterDown(c, i);
    RegisterDown(c, i + 4);
    RegisterDown(c, i + 8);
    RegisterDown(c1, i);
    RegisterDown(c1, i + 4);
    RegisterDown(c2, i);
  }

  lemma RegisterShifts(c: bv16)
    ensures Register(Half(c)) == Register(c)[1..] + [false] && Register(c)[0] == Lowest(c)
  {
    RegisterEnds(c);
    hide Half, Lowest;
    forall i | 0 <= i < 16 ensures Register(Half(c))[i] == (Register(c)[1..] + [false])[i] {
      assert RegisterBit(c, i + 1) == RegisterBit(Half(c), i);
    }
  }

  lemma PolyIsPolynomial()
    ensures Register(POLY) == POLYNOMIAL
  {
    assert FourDown(POLY) == 0x0A00 && FourDown(0x0A00) == 0x00A0 && FourDown(0x00A0) == 0x000A;
    FourBits(POLY);
    FourBits(0x0A00);
    FourBits(0x00A0);
    FourBits(0x000A);
    forall i: nat | i < 16 ensures RegisterBit(POLY, i) == POLYNOMIAL[i] {
      if i >= 4 { FourByFour(POLY, i % 4); }
    }
  }

  /** Feeding a bit is one step of the division. */
  lemma FeedDivides(c: bv16, b: bool)
    ensures FeedBit(c, b) == if Lowest(c) != b then Plus(Half(c), POLY) else Half(c)
  {
    Flipped(c);
    hide Lowest, Half;
    var d := WithBit(c, b);
    assert Half(d) == Half(c) && Lowest(d) == (Lowest(c) != b);
    BitDivides(d);
  }

  lemma Flipped(c: bv16)
    ensures Half(c ^ 1) == Half(c) && Lowest(c ^ 1) == !Lowest(c)
  {}

  lemma BitDivides(d: bv16)
    ensures Bit(d) == if Lowest(d) then Plus(Half(d), POLY) else Half(d)
  {
    PlusNothing(d >> 1);
  }

  lemma {:induction false} FeedIsRemainder(c: bv16, bits: seq<bool>)
    ensures Remainder(AddFront(bits + Zeros(16), Register(c)), POLYNOMIAL) == Register(Feed(c, bits))
    decreases bits
  {
    hide FeedBit, Half, Lowest, Plus, AddFront, Zeros, Register;
    var r, all := Register(c), bits + Zeros(16);
    SizesAre(c);
    if bits == [] {
      assert all == Zeros(16);
      AddToZeros(r);
    } else {
      var rest := bits[1..] + Zeros(16);
      assert all[1..] == rest && all[0] == bits[0];
      RegisterShifts(c);
      AddFrontRest(all, r, Register(Half(c)));
      FeedDivides(c, bits[0]);
      PolyIsPolynomial();
      SumIs(Half(c));
      AddTwice(rest, Register(Half(c)), POLYNOMIAL, Register(Plus(Half(c), POLY)));
      FeedIsRemainder(FeedBit(c, bits[0]), bits[1..]);
    }
  }

  lemma SizesAre(c: bv16)
    ensures |Register(c)| == |POLYNOMIAL| == |Zeros(16)| == 16 && |Register(Half(c))| == 16
  {}

  lemma SumIs(c: bv16)
    ensures |Register(Plus(c, POLY))| == |Register(c)| == |POLYNOMIAL| == 16
    ensures forall i :: 0 <= i < 16 ==> Register(Plus(c, POLY))[i] == (Register(c)[i] != POLYNOMIAL[i])
  {
    hide Plus, Half, Lowest;
    PolyIsPolynomial();
    forall i | 0 <= i < 16 ensures Register(Plus(c, POLY))[i] == (Register(c)[i] != Register(POLY)[i]) {
      RegisterAdds(c, POLY, i);
    }
  }

  lemma InitIsOnes()
    ensures Register(INIT) == Ones(16)
  {
    assert FourDown(INIT) == 0x0FFF && FourDown(0x0FFF) == 0x00FF && FourDown(0x00FF) == 0x000F;
    FourBits(INIT);
    FourBits(0x0FFF);
    FourBits(0x00FF);
    FourBits(0x000F);
    forall i: nat | i < 16 ensures RegisterBit(INIT, i) {
      if i >= 4 { FourByFour(INIT, i % 4); }
    }
  }

  /** The checksum is the remainder of the message, with its first 16 bits inverted and 16 zeros appended, by
      x^16 + x^15 + x^2 + 1. */
  lemma ChecksumIsRemainder(data: seq<bv8>)
    ensures Register(Checksum(data)) ==
            Remainder(AddFront(Stream(data) + Zeros(16), Ones(16)), POLYNOMIAL)
  {
    hide Bytes, Feed, Stream, Register, Remainder, AddFront;
    BytesFeed(INIT, data);
    FeedIsRemainder(INIT, Stream(data));
    InitIsOnes();
  }

  // The residue

  function LowByte(c: bv16): bv8 { (c & 0xFF) as bv8 }

  function HighByte(c: bv16): bv8 { (c >> 8) as bv8 }

  lemma LowByteOut(c: bv16)
    ensures Bits(Add(c, LowByte(c)), 8) == c >> 8
  {
    var d := Add(c, LowByte(c));
    assert Bit(Bit(Bit(Bit(Bit(Bit(Bit(Bit(d)))))))) == c >> 8;
    hide Bit, Add, LowByte;
    assert Bits(d, 8) == Bit(Bit(Bit(Bit(Bit(Bit(Bit(Bit(d))))))));
  }

  lemma HighByteOut(c: bv16)
    ensures Bits(Add(c >> 8, HighByte(c)), 8) == 0
  {
    var d := Add(c >> 8, HighByte(c));
    assert d == 0;
    assert Bit(0) == 0;
    hide Bit, Add, HighByte;
    assert Bits(d, 8) == Bit(Bit(Bit(Bit(Bit(Bit(Bit(Bit(d))))))));
  }

  /** A message with its checksum appended, low byte first, has the checksum 0. */
  lemma Residue(data: seq<bv8>)
    ensures var c := Checksum(data); Checksum(data + [LowByte(c), HighByte(c)]) == 0
  {
    hide Byte, Bytes, Bits, Add, LowByte, HighByte;
    var c := Checksum(data);
    var lo, hi := LowByte(c), HighByte(c);
    assert data + [lo, hi] == (data + [lo]) + [hi];
    BytesSplit(INIT, data + [lo], [hi]);
    BytesSplit(INIT, data, [lo]);
    OneByte(c, lo);
    ByteIsBits(c, lo);
    LowByteOut(c);
    OneByte(c >> 8, hi);
    ByteIsBits(c >> 8, hi);
    HighByteOut(c);
  }
}
