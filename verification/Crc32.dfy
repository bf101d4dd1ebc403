/** The checksum that the rename step computes with a table, against the bit-serial definition of RFC 1952 section 8. */
module Crc32 {
  const POLY: bv32 := 0xEDB88320

  type Byte = bv8

  // ---- the definition, one message bit at a time ----

  function Xor(a: bv32, b: bv32): bv32 {
    a ^ b
  }

  function Half(c: bv32): bv32 {
    c >> 1
  }

  predicate Odd(c: bv32) {
    c & 1 != 0
  }

  function Masked(on: bool): bv32 {
    if on then POLY else 0
  }

  /** Shift one message bit in; the polynomial is subtracted when the bit that leaves differs from it. */
  function Feed(c: bv32, bit: bool): bv32 {
    Xor(Masked(Odd(c) != bit), Half(c))
  }

  /** The low `n` bits of `x`, least significant first. */
  function FeedBits(c: bv32, x: bv32, n: nat): bv32
    decreases n
  {
    if n == 0 then c else FeedBits(Feed(c, Odd(x)), Half(x), n - 1)
  }

  function FeedBytes(c: bv32, bytes: seq<Byte>): bv32 {
    if bytes == [] then c else FeedBits(FeedBytes(c, bytes[..|bytes| - 1]), bytes[|bytes| - 1] as bv32, 8)
  }

  function Checksum(bytes: seq<Byte>): bv32 {
    FeedBytes(0xFFFFFFFF, bytes) ^ 0xFFFFFFFF
  }

  /** One value, as an anchor: the checksum of the letter "a". */
  lemma ChecksumOfA()
    ensures Checksum([0x61]) == 0xE8B7BE43
  {
    assert [0x61 as Byte][..0] == [];
    assert Feed(0xFFFFFFFF, Odd(0x61)) == 0x7FFFFFFF && Half(0x61) == 0x30;
    assert Feed(0x7FFFFFFF, Odd(0x30)) == 0xD2477CDF && Half(0x30) == 0x18;
    assert Feed(0xD2477CDF, Odd(0x18)) == 0x849B3D4F && Half(0x18) == 0x0C;
    assert Feed(0x849B3D4F, Odd(0x0C)) == 0xAFF51D87 && Half(0x0C) == 0x06;
    assert Feed(0xAFF51D87, Odd(0x06)) == 0xBA420DE3 && Half(0x06) == 0x03;
    assert Feed(0xBA420DE3, Odd(0x03)) == 0x5D2106F1 && Half(0x03) == 0x01;
    assert Feed(0x5D2106F1, Odd(0x01)) == 0x2E908378 && Half(0x01) == 0x00;
    assert Feed(0x2E908378, Odd(0x00)) == 0x174841BC && Half(0x00) == 0x00;
    hide Feed, Odd, Half;
    assert FeedBits(0xFFFFFFFF, 0x61, 8) == FeedBits(0xD2477CDF, 0x18, 6);
    assert FeedBits(0xD2477CDF, 0x18, 6) == FeedBits(0xAFF51D87, 0x06, 4);
    assert FeedBits(0xAFF51D87, 0x06, 4) == FeedBits(0x5D2106F1, 0x01, 2);
    assert FeedBits(0x5D2106F1, 0x01, 2) == FeedBits(0x174841BC, 0x00, 0);
  }

  // ---- the register alone ----

  function Bit(c: bv32): bv32 {
    Xor(Masked(Odd(c)), Half(c))
  }

  function Bits(c: bv32, n: nat): bv32
    decreases n
  {
    if n == 0 then c else Bits(Bit(c), n - 1)
  }

  function Halves(x: bv32, n: nat): bv32
    decreases n
  {
    if n == 0 then x else Halves(Half(x), n - 1)
  }

  lemma HalfXor(a: bv32, b: bv32)
    ensures Half(Xor(a, b)) == Xor(Half(a), Half(b))
  {
  }

  lemma OddXor(a: bv32, b: bv32)
    ensures Odd(Xor(a, b)) == (Odd(a) != Odd(b))
  {
  }

  lemma MaskedXor(p: bool, q: bool)
    ensures Masked(p != q) == Xor(Masked(p), Masked(q))
  {
  }

  lemma Commute(a: bv32, b: bv32)
    ensures Xor(a, b) == Xor(b, a)
  {
  }

  lemma Associate(p: bv32, x: bv32, y: bv32)
    ensures Xor(Xor(p, x), y) == Xor(p, Xor(x, y))
  {
  }

  lemma Exchange(p: bv32, q: bv32, x: bv32, y: bv32)
    ensures Xor(Xor(p, q), Xor(x, y)) == Xor(Xor(p, x), Xor(q, y))
  {
    hide Xor;
    Associate(p, q, Xor(x, y));
    Associate(q, x, y);
    Commute(q, x);
    Associate(x, q, y);
    Associate(p, x, Xor(q, y));
  }

  lemma XorZero(a: bv32)
    ensures Xor(a, 0) == a && Xor(0, a) == a
  {
  }

  lemma BitXor(a: bv32, b: bv32)
    ensures Bit(Xor(a, b)) == Xor(Bit(a), Bit(b))
  {
    hide Xor, Odd, Half, Masked;
    HalfXor(a, b);
    OddXor(a, b);
    MaskedXor(Odd(a), Odd(b));
    Exchange(Masked(Odd(a)), Masked(Odd(b)), Half(a), Half(b));
  }

  /** The register steps are linear. */
  lemma {:induction false} BitsXor(a: bv32, b: bv32, n: nat)
    ensures Bits(Xor(a, b), n) == Xor(Bits(a, n), Bits(b, n))
    decreases n
  {
    hide Xor, Bit;
    if n > 0 {
      BitXor(a, b);
      BitsXor(Bit(a), Bit(b), n - 1);
    }
  }

  lemma FeedIsBit(c: bv32, x: bv32)
    ensures Xor(Feed(c, Odd(x)), Half(x)) == Bit(Xor(c, x))
  {
    hide Xor, Odd, Half, Masked;
    OddXor(c, x);
    HalfXor(c, x);
    Associate(Masked(Odd(c) != Odd(x)), Half(c), Half(x));
  }

  /** Feeding bits is stepping the register with the bits already in it. */
  lemma {:induction false} FeedBitsIsBits(c: bv32, x: bv32, n: nat)
    ensures Xor(FeedBits(c, x, n), Halves(x, n)) == Bits(Xor(c, x), n)
    decreases n
  {
    hide Xor, Odd, Half, Bit, Feed;
    if n > 0 {
      FeedIsBit(c, x);
      FeedBitsIsBits(Feed(c, Odd(x)), Half(x), n - 1);
    }
  }

  function Shift2(x: bv32): bv32 {
    x >> 2
  }

  function Shift4(x: bv32): bv32 {
    x >> 4
  }

  function Shift8(x: bv32): bv32 {
    x >> 8
  }

  lemma TwoHalves(x: bv32)
    ensures Half(Half(x)) == Shift2(x)
  {
  }

  lemma FourHalves(x: bv32)
    ensures Shift2(Shift2(x)) == Shift4(x)
  {
  }

  lemma EightShifts(x: bv32)
    ensures Shift4(Shift4(x)) == Shift8(x)
  {
  }

  lemma EightHalves(x: bv32)
    ensures Half(Half(Half(Half(Half(Half(Half(Half(x)))))))) == Shift8(x)
  {
    hide Half, Shift2, Shift4, Shift8;
    TwoHalves(x);
    TwoHalves(Shift2(x));
    FourHalves(x);
    TwoHalves(Shift4(x));
    TwoHalves(Shift2(Shift4(x)));
    FourHalves(Shift4(x));
    EightShifts(x);
  }

  lemma HalvesAre(x: bv32)
    ensures Halves(x, 8) == Half(Half(Half(Half(Half(Half(Half(Half(x))))))))
  {
    hide Half;
    var x2 := Half(Half(x));
    var x4 := Half(Half(x2));
    var x6 := Half(Half(x4));
    assert Halves(x, 8) == Halves(x2, 6);
    assert Halves(x2, 6) == Halves(x4, 4);
    assert Halves(x4, 4) == Halves(x6, 2);
    assert Halves(x6, 2) == Half(Half(x6));
  }

  /** An even register is only shifted. */
  lemma EvenBit(c: bv32)
    requires !Odd(c)
    ensures Bit(c) == Half(c)
  {
    assert Masked(false) == 0;
    XorZero(Half(c));
    hide Xor, Odd, Half;
  }

  lemma LowHalf(c: bv32, m: bv32)
    requires c & m == 0 && m & 1 == 1
    ensures !Odd(c) && Half(c) & (m >> 1) == 0
  {
  }

  /** Eight steps only shift a register whose low byte is zero. */
  lemma HighBits(c: bv32)
    requires c & 0xFF == 0
    ensures Bits(c, 8) == Shift8(c)
  {
    LowHalf(c, 0xFF);
    var c1 := Half(c);
    LowHalf(c1, 0x7F);
    var c2 := Half(c1);
    LowHalf(c2, 0x3F);
    var c3 := Half(c2);
    LowHalf(c3, 0x1F);
    var c4 := Half(c3);
    LowHalf(c4, 0x0F);
    var c5 := Half(c4);
    LowHalf(c5, 0x07);
    var c6 := Half(c5);
    LowHalf(c6, 0x03);
    var c7 := Half(c6);
    LowHalf(c7, 0x01);
    hide Half, Odd, Bit, Shift8;
    EvenBit(c); EvenBit(c1); EvenBit(c2); EvenBit(c3); EvenBit(c4); EvenBit(c5); EvenBit(c6); EvenBit(c7);
    assert Bits(c, 8) == Bits(c2, 6);
    assert Bits(c2, 6) == Bits(c4, 4);
    assert Bits(c4, 4) == Bits(c6, 2);
    EightHalves(c);
  }

  predicate NoLowByte(c: bv32) {
    c & 0xFF == 0
  }

  function Low(c: bv32): bv32 {
    c & 0xFF
  }

  function High(c: bv32): bv32 {
    c & 0xFFFFFF00
  }

  lemma LowHigh(c: bv32)
    ensures c == Xor(Low(c), High(c)) && NoLowByte(High(c))
  {
  }

  lemma HighShift(c: bv32)
    ensures Shift8(High(c)) == Shift8(c)
  {
  }

  lemma HighBitsShift(c: bv32)
    requires NoLowByte(c)
    ensures Bits(c, 8) == Shift8(c)
  {
    hide Bits, Shift8;
    HighBits(c);
  }

  /** The table identity: eight bit steps are one lookup by the low byte and one shift. */
  lemma EightSteps(c: bv32)
    ensures Bits(c, 8) == Xor(Bits(Low(c), 8), Shift8(c))
  {
    hide Bits, Xor, Low, High, Shift8, NoLowByte;
    LowHigh(c);
    BitsXor(Low(c), High(c), 8);
    HighBitsShift(High(c));
    HighShift(c);
  }

  lemma ByteIsLow(c: bv32, b: Byte)
    ensures Shift8(b as bv32) == 0
    ensures Shift8(Xor(c, b as bv32)) == Shift8(c)
  {
  }

  /** One message byte, bit by bit, is one step of the table loop. */
  lemma ByteStep(c: bv32, b: Byte)
    ensures FeedBits(c, b as bv32, 8) == Xor(Bits(Low(Xor(c, b as bv32)), 8), Shift8(c))
  {
    var x := b as bv32;
    ByteIsLow(c, b);
    hide FeedBits, Bits, Halves, Xor, Low, Shift8, Half;
    FeedBitsIsBits(c, x, 8);
    HalvesAre(x);
    EightHalves(x);
    XorZero(FeedBits(c, x, 8));
    EightSteps(Xor(c, x));
  }

  // ---- the loops of the step ----

  /** The precomputed table. */
  ghost predicate IsTable(table: seq<bv32>) {
    |table| == 256 && forall i :: 0 <= i < 256 ==> table[i] == Bits(i as bv32, 8)
  }

  lemma {:induction false} BitsLast(c: bv32, n: nat)
    ensures Bits(c, n + 1) == Bit(Bits(c, n))
    decreases n
  {
    hide Bit;
    if n > 0 {
      BitsLast(Bit(c), n - 1);
    }
  }

  lemma BitIs(c: bv32)
    ensures Bit(c) == if c & 1 != 0 then 0xEDB88320 ^ (c >> 1) else c >> 1
  {
    XorZero(Half(c));
  }

  method Entry(i: bv32) returns (c: bv32)
    ensures c == Bits(i, 8)
  {
    hide Bit;
    c := i;
    for k := 0 to 8
      invariant c == Bits(i, k)
    {
      BitsLast(i, k);
      BitIs(c);
      c := if c & 1 != 0 then 0xEDB88320 ^ (c >> 1) else c >> 1;
    }
  }

  method BuildTable() returns (table: array<bv32>)
    ensures fresh(table) && IsTable(table[..])
  {
    hide Bits;
    table := new bv32[256];
    for i := 0 to 256
      invariant forall k :: 0 <= k < i ==> table[k] == Bits(k as bv32, 8)
    {
      var c := Entry(i as bv32);
      table[i] := c;
    }
  }

  /** The bytes of a file as the reads delivered them. */
  function Bytes(bufs: seq<seq<Byte>>): seq<Byte> {
    if bufs == [] then [] else Bytes(bufs[..|bufs| - 1]) + bufs[|bufs| - 1]
  }

  /** The table index of one loop step. */
  function Index(c: bv32, b: Byte): (i: nat)
    ensures i < 256
  {
    LowIndex(Xor(c, b as bv32));
    Low(Xor(c, b as bv32)) as int
  }

  lemma LowIndex(x: bv32)
    ensures Low(x) as int < 256 && (Low(x) as int) as bv32 == Low(x)
  {
  }

  /** The new register of one loop step. */
  function Mix(entry: bv32, c: bv32): bv32 {
    entry ^ (c >> 8)
  }

  lemma IndexIs(c: bv32, b: Byte)
    ensures Index(c, b) as bv32 == Low(Xor(c, b as bv32))
  {
    hide Low, Xor;
    LowIndex(Xor(c, b as bv32));
  }

  lemma MixIs(entry: bv32, c: bv32)
    ensures Mix(entry, c) == Xor(entry, Shift8(c))
  {
  }

  /** The loop step is the definition's step for one byte. */
  lemma StepIsFeed(table: seq<bv32>, c: bv32, b: Byte)
    requires IsTable(table)
    ensures Mix(table[Index(c, b)], c) == FeedBits(c, b as bv32, 8)
  {
    hide Low, Shift8, Xor, Bits, FeedBits, Index, Mix;
    IndexIs(c, b);
    assert table[Index(c, b)] == Bits(Index(c, b) as bv32, 8);
    MixIs(table[Index(c, b)], c);
    ByteStep(c, b);
  }

  lemma Fed(c: bv32, before: seq<Byte>, buf: seq<Byte>, j: nat)
    requires j < |buf|
    ensures FeedBytes(c, before + buf[..j + 1]) == FeedBits(FeedBytes(c, before + buf[..j]), buf[j] as bv32, 8)
  {
    hide FeedBits;
    assert (before + buf[..j + 1])[..|before| + j] == before + buf[..j];
  }

  method Buffer(table: array<bv32>, c: bv32, buf: seq<Byte>, ghost before: seq<Byte>) returns (crc: bv32)
    requires IsTable(table[..]) && c == FeedBytes(0xFFFFFFFF, before)
    ensures crc == FeedBytes(0xFFFFFFFF, before + buf)
  {
    hide FeedBits, FeedBytes, Bits, Index, Mix;
    crc := c;
    assert before + buf[..0] == before;
    for j := 0 to |buf|
      invariant crc == FeedBytes(0xFFFFFFFF, before + buf[..j])
    {
      Fed(0xFFFFFFFF, before, buf, j);
      StepIsFeed(table[..], crc, buf[j]);
      crc := Mix(table[Index(crc, buf[j])], crc);
    }
    assert buf[..|buf|] == buf;
  }

  /** The table-driven checksum is the bit-by-bit checksum, for every file and every split into reads. */
  method Compute(table: array<bv32>, bufs: seq<seq<Byte>>) returns (crc: bv32)
    requires IsTable(table[..])
    ensures crc == Checksum(Bytes(bufs))
  {
    hide FeedBytes, IsTable;
    crc := Start();
    for i := 0 to |bufs|
      invariant crc == FeedBytes(0xFFFFFFFF, Bytes(bufs[..i]))
    {
      assert bufs[..i + 1][..i] == bufs[..i];
      crc := Buffer(table, crc, bufs[i], Bytes(bufs[..i]));
    }
    assert bufs[..|bufs|] == bufs;
    crc := crc ^ 0xFFFFFFFF;
  }

  method Start() returns (crc: bv32)
    ensures crc == FeedBytes(0xFFFFFFFF, [])
  {
    crc := 0xFFFFFFFF;
  }
}
