/** CRC-16 (tool/crc16.c): the 256-entry table form, the bit-serial form it must equal,
    the textbook form with the polynomial 0x8005 of tool/crc16.h:4-7, and what the code
    detects. Bits travel least significant first. */
module Crc16 {

  // ---------------------------------------------------------------- the table form

  function Pick(k: bv8, v0: bv16, v1: bv16, v2: bv16, v3: bv16, v4: bv16, v5: bv16, v6: bv16, v7: bv16): bv16 {
    if k == 0 then v0 else if k == 1 then v1 else if k == 2 then v2 else if k == 3 then v3
    else if k == 4 then v4 else if k == 5 then v5 else if k == 6 then v6 else v7
  }

  /** crc16_table, eight entries to a row. */
  function Table(i: bv8): bv16 {
    var k := i & 7;
    match i >> 3
    case 0x00 => Pick(k, 0x0000, 0xC0C1, 0xC181, 0x0140, 0xC301, 0x03C0, 0x0280, 0xC241)
    case 0x01 => Pick(k, 0xC601, 0x06C0, 0x0780, 0xC741, 0x0500, 0xC5C1, 0xC481, 0x0440)
    case 0x02 => Pick(k, 0xCC01, 0x0CC0, 0x0D80, 0xCD41, 0x0F00, 0xCFC1, 0xCE81, 0x0E40)
    case 0x03 => Pick(k, 0x0A00, 0xCAC1, 0xCB81, 0x0B40, 0xC901, 0x09C0, 0x0880, 0xC841)
    case 0x04 => Pick(k, 0xD801, 0x18C0, 0x1980, 0xD941, 0x1B00, 0xDBC1, 0xDA81, 0x1A40)
    case 0x05 => Pick(k, 0x1E00, 0xDEC1, 0xDF81, 0x1F40, 0xDD01, 0x1DC0, 0x1C80, 0xDC41)
    case 0x06 => Pick(k, 0x1400, 0xD4C1, 0xD581, 0x1540, 0xD701, 0x17C0, 0x1680, 0xD641)
    case 0x07 => Pick(k, 0xD201, 0x12C0, 0x1380, 0xD341, 0x1100, 0xD1C1, 0xD081, 0x1040)
    case 0x08 => Pick(k, 0xF001, 0x30C0, 0x3180, 0xF141, 0x3300, 0xF3C1, 0xF281, 0x3240)
    case 0x09 => Pick(k, 0x3600, 0xF6C1, 0xF781, 0x3740, 0xF501, 0x35C0, 0x3480, 0xF441)
    case 0x0A => Pick(k, 0x3C00, 0xFCC1, 0xFD81, 0x3D40, 0xFF01, 0x3FC0, 0x3E80, 0xFE41)
    case 0x0B => Pick(k, 0xFA01, 0x3AC0, 0x3B80, 0xFB41, 0x3900, 0xF9C1, 0xF881, 0x3840)
    case 0x0C => Pick(k, 0x2800, 0xE8C1, 0xE981, 0x2940, 0xEB01, 0x2BC0, 0x2A80, 0xEA41)
    case 0x0D => Pick(k, 0xEE01, 0x2EC0, 0x2F80, 0xEF41, 0x2D00, 0xEDC1, 0xEC81, 0x2C40)
    case 0x0E => Pick(k, 0xE401, 0x24C0, 0x2580, 0xE541, 0x2700, 0xE7C1, 0xE681, 0x2640)
    case 0x0F => Pick(k, 0x2200, 0xE2C1, 0xE381, 0x2340, 0xE101, 0x21C0, 0x2080, 0xE041)
    case 0x10 => Pick(k, 0xA001, 0x60C0, 0x6180, 0xA141, 0x6300, 0xA3C1, 0xA281, 0x6240)
    case 0x11 => Pick(k, 0x6600, 0xA6C1, 0xA781, 0x6740, 0xA501, 0x65C0, 0x6480, 0xA441)
    case 0x12 => Pick(k, 0x6C00, 0xACC1, 0xAD81, 0x6D40, 0xAF01, 0x6FC0, 0x6E80, 0xAE41)
    case 0x13 => Pick(k, 0xAA01, 0x6AC0, 0x6B80, 0xAB41, 0x6900, 0xA9C1, 0xA881, 0x6840)
    case 0x14 => Pick(k, 0x7800, 0xB8C1, 0xB981, 0x7940, 0xBB01, 0x7BC0, 0x7A80, 0xBA41)
    case 0x15 => Pick(k, 0xBE01, 0x7EC0, 0x7F80, 0xBF41, 0x7D00, 0xBDC1, 0xBC81, 0x7C40)
    case 0x16 => Pick(k, 0xB401, 0x74C0, 0x7580, 0xB541, 0x7700, 0xB7C1, 0xB681, 0x7640)
    case 0x17 => Pick(k, 0x7200, 0xB2C1, 0xB381, 0x7340, 0xB101, 0x71C0, 0x7080, 0xB041)
    case 0x18 => Pick(k, 0x5000, 0x90C1, 0x9181, 0x5140, 0x9301, 0x53C0, 0x5280, 0x9241)
    case 0x19 => Pick(k, 0x9601, 0x56C0, 0x5780, 0x9741, 0x5500, 0x95C1, 0x9481, 0x5440)
    case 0x1A => Pick(k, 0x9C01, 0x5CC0, 0x5D80, 0x9D41, 0x5F00, 0x9FC1, 0x9E81, 0x5E40)
    case 0x1B => Pick(k, 0x5A00, 0x9AC1, 0x9B81, 0x5B40, 0x9901, 0x59C0, 0x5880, 0x9841)
    case 0x1C => Pick(k, 0x8801, 0x48C0, 0x4980, 0x8941, 0x4B00, 0x8BC1, 0x8A81, 0x4A40)
    case 0x1D => Pick(k, 0x4E00, 0x8EC1, 0x8F81, 0x4F40, 0x8D01, 0x4DC0, 0x4C80, 0x8C41)
    case 0x1E => Pick(k, 0x4400, 0x84C1, 0x8581, 0x4540, 0x8701, 0x47C0, 0x4680, 0x8641)
    case _ => Pick(k, 0x8201, 0x42C0, 0x4380, 0x8341, 0x4100, 0x81C1, 0x8081, 0x4040)
  }

  // ---------------------------------------------------------------- the bit-serial form

  /** One shift of the register. 0xA001 is 0x8005 with its bits in reverse order. */
  function Shift(c: bv16): bv16 {
    if c & 1 == 1 then (c >> 1) ^ 0xA001 else c >> 1
  }

  function Shift8(c: bv16): bv16 {
    Shift(Shift(Shift(Shift(Shift(Shift(Shift(Shift(c))))))))
  }

  function Byte(c: bv16, data: bv8): bv16 {
    Shift8(c ^ (data as bv16))
  }

  function Crc(c: bv16, m: seq<bv8>): bv16
    decreases |m|
  {
    if m == [] then c else Crc(Byte(c, m[0]), m[1..])
  }

  /** The table has what eight shifts give. */
  lemma TableIsShifts(i: bv8)
    ensures Table(i) == Shift8(i as bv16)
  {}

  /** The low byte of the register meets the data, the high byte only moves down. */
  lemma SplitRegister(crc: bv16, data: bv8, v: bv16)
    requires v == Shift8(((crc ^ (data as bv16)) & 0xFF) as bv8 as bv16)
    ensures (crc >> 8) ^ v == Byte(crc, data)
  {}

  method TableEntry(i: bv8) returns (v: bv16)
    ensures v == Shift8(i as bv16)
  {
    v := Table(i);
    TableIsShifts(i);
  }

  /** crc16_byte: one table entry does the work of eight shifts. */
  method TableByte(crc: bv16, data: bv8) returns (r: bv16)
    ensures r == Byte(crc, data)
  {
    var v := TableEntry(((crc ^ (data as bv16)) & 0xFF) as bv8);
    r := (crc >> 8) ^ v;
    SplitRegister(crc, data, v);
  }

  /** crc16: `len` bytes from `buffer` on. */
  method ComputeCrc(crc: bv16, buffer: array<bv8>, offset: nat, len: nat) returns (r: bv16)
    requires offset + len <= buffer.Length
    ensures r == Crc(crc, buffer[offset..offset + len])
  {
    r := crc;
    var at, left := offset, len;
    while left > 0
      invariant at + left == offset + len && offset <= at
      invariant Crc(r, buffer[at..offset + len]) == Crc(crc, buffer[offset..offset + len])
    {
      assert buffer[at..offset + len][1..] == buffer[at + 1..offset + len];
      r := TableByte(r, buffer[at]);
      at, left := at + 1, left - 1;
    }
  }

  // ---------------------------------------------------------------- buffers

  lemma {:induction false} CrcSplits(c: bv16, a: seq<bv8>, b: seq<bv8>)
    ensures Crc(c, a + b) == Crc(Crc(c, a), b)
    decreases |a|
  {
    if a == [] {
      assert a + b == b;
    } else {
      assert (a + b)[1..] == a[1..] + b;
      CrcSplits(Byte(c, a[0]), a[1..], b);
    }
  }

  function Low(c: bv16): bv8 { (c & 0xFF) as bv8 }

  function High(c: bv16): bv8 { (c >> 8) as bv8 }

  lemma Shift8IsInjective(c: bv16, d: bv16)
    requires Shift8(c) == Shift8(d)
    ensures c == d
  {}

  lemma ByteIsInjective(c: bv16, d: bv16, x: bv8)
    requires Byte(c, x) == Byte(d, x)
    ensures c == d
  {
    Shift8IsInjective(c ^ (x as bv16), d ^ (x as bv16));
    assert (c ^ (x as bv16)) ^ (x as bv16) == c && (d ^ (x as bv16)) ^ (x as bv16) == d;
  }

  /** Different registers stay different over any common rest. */
  lemma {:induction false} CrcIsInjective(c: bv16, d: bv16, m: seq<bv8>)
    ensures Crc(c, m) == Crc(d, m) <==> c == d
    decreases |m|
  {
    if m != [] {
      CrcIsInjective(Byte(c, m[0]), Byte(d, m[0]), m[1..]);
      if Byte(c, m[0]) == Byte(d, m[0]) { ByteIsInjective(c, d, m[0]); }
    }
  }

  lemma ZeroOnlyFromZero(c: bv16)
    ensures Shift8(c) == 0 <==> c == 0
  {}

  lemma SmallOnlyFromHigh(c: bv16)
    ensures Shift8(c) & 0xFF00 == 0 <==> c & 0xFF == 0
    ensures c & 0xFF == 0 ==> Shift8(c) == c >> 8
  {}

  lemma OwnBytes(c: bv16, lo: bv8, hi: bv8, y: bv16)
    requires y & 0xFF00 == 0 <==> (c ^ (lo as bv16)) & 0xFF == 0
    requires (c ^ (lo as bv16)) & 0xFF == 0 ==> y == (c ^ (lo as bv16)) >> 8
    ensures y ^ (hi as bv16) == 0 <==> lo == Low(c) && hi == High(c)
  {}

  lemma ZeroOnlyFromOwn(c: bv16, lo: bv8, hi: bv8)
    ensures Byte(Byte(c, lo), hi) == 0 <==> lo == Low(c) && hi == High(c)
  {
    var y := Byte(c, lo);
    SmallOnlyFromHigh(c ^ (lo as bv16));
    OwnBytes(c, lo, hi, y);
    ZeroOnlyFromZero(y ^ (hi as bv16));
  }

  lemma TwoBytes(c: bv16, x: bv8, y: bv8)
    ensures Crc(c, [x, y]) == Byte(Byte(c, x), y)
  {
    assert [x, y][1..] == [y] && [y][1..] == [];
    assert Crc(Byte(c, x), [y]) == Crc(Byte(Byte(c, x), y), []);
  }

  /** A message followed by two bytes leaves zero if and only if they are its CRC, low
      byte first. */
  lemma Residue(m: seq<bv8>, lo: bv8, hi: bv8)
    ensures Crc(0, m + [lo, hi]) == 0 <==> lo == Low(Crc(0, m)) && hi == High(Crc(0, m))
  {
    var c := Crc(0, m);
    CrcSplits(0, m, [lo, hi]);
    TwoBytes(c, lo, hi);
    ZeroOnlyFromOwn(c, lo, hi);
  }

  // ---------------------------------------------------------------- bits

  function BitsOf(x: bv8): (bits: seq<bool>) {
    [x & 0x01 != 0, x & 0x02 != 0, x & 0x04 != 0, x & 0x08 != 0,
     x & 0x10 != 0, x & 0x20 != 0, x & 0x40 != 0, x & 0x80 != 0]
  }

  /** The bits of a buffer in the order in which the register meets them. */
  function MessageBits(m: seq<bv8>): (bits: seq<bool>)
    ensures |bits| == 8 * |m|
  {
    if m == [] then [] else BitsOf(m[0]) + MessageBits(m[1..])
  }

  function ShiftIn(c: bv16, bit: bool): bv16 {
    if (c & 1 == 1) != bit then (c >> 1) ^ 0xA001 else c >> 1
  }

  function CrcBits(c: bv16, bits: seq<bool>): bv16
    decreases |bits|
  {
    if bits == [] then c else CrcBits(ShiftIn(c, bits[0]), bits[1..])
  }

  lemma {:induction false} BitsSplit(c: bv16, a: seq<bool>, b: seq<bool>)
    ensures CrcBits(c, a + b) == CrcBits(CrcBits(c, a), b)
    decreases |a|
  {
    if a == [] {
      assert a + b == b;
    } else {
      assert (a + b)[1..] == a[1..] + b;
      BitsSplit(ShiftIn(c, a[0]), a[1..], b);
    }
  }

  lemma FourBits(c: bv16, b0: bool, b1: bool, b2: bool, b3: bool)
    ensures CrcBits(c, [b0, b1, b2, b3]) == ShiftIn(ShiftIn(ShiftIn(ShiftIn(c, b0), b1), b2), b3)
  {
    var c1 := ShiftIn(c, b0);
    var c2 := ShiftIn(c1, b1);
    var c3 := ShiftIn(c2, b2);
    assert [b0, b1, b2, b3][1..] == [b1, b2, b3] && [b1, b2, b3][1..] == [b2, b3];
    assert [b2, b3][1..] == [b3] && [b3][1..] == [];
    assert CrcBits(c2, [b2, b3]) == CrcBits(c3, [b3]);
    assert CrcBits(c3, [b3]) == ShiftIn(c3, b3);
  }

  lemma XorShift(c: bv16, n: bv16)
    ensures (c ^ n) >> 1 == (c >> 1) ^ (n >> 1)
    ensures (c ^ n) & 1 == 1 <==> (c & 1 == 1) != (n & 1 == 1)
  {}

  lemma XorSwap(a: bv16, b: bv16, k: bv16)
    ensures (a ^ b) ^ k == (a ^ k) ^ b
  {}

  lemma XorZero(c: bv16)
    ensures c ^ 0 == c
  {}

  function Shifts(c: bv16, k: nat): bv16
    decreases k
  {
    if k == 0 then c else Shifts(Shift(c), k - 1)
  }

  /** The lowest k bits of n fed to the register, and what is left of n above them. */
  function Feed(c: bv16, n: bv16, k: nat): bv16
    decreases k
  {
    if k == 0 then c else Feed(ShiftIn(c, n & 1 == 1), n >> 1, k - 1)
  }

  function Above(n: bv16, k: nat): bv16
    decreases k
  {
    if k == 0 then n else Above(n >> 1, k - 1)
  }

  lemma ShiftAbsorbs(c: bv16, n: bv16, k: nat)
    requires k > 0
    ensures Shifts(c ^ n, k) == Shifts(ShiftIn(c, n & 1 == 1) ^ (n >> 1), k - 1)
  {
    XorShift(c, n);
    XorSwap(c >> 1, n >> 1, 0xA001);
  }

  /** Data laid over the register in one piece, or fed to it bit by bit. */
  lemma {:induction false} ShiftsFeed(c: bv16, n: bv16, k: nat)
    requires Above(n, k) == 0
    ensures Shifts(c ^ n, k) == Feed(c, n, k)
    decreases k
  {
    if k == 0 {
      XorZero(c);
    } else {
      ShiftAbsorbs(c, n, k);
      ShiftsFeed(ShiftIn(c, n & 1 == 1), n >> 1, k - 1);
    }
  }

  lemma Conclude(c: bv16, n: bv16, k: nat, s: bv16, f: bv16)
    requires s == Shifts(c ^ n, k) && f == Feed(c, n, k) && Above(n, k) == 0
    ensures s == f
  {
    ShiftsFeed(c, n, k);
  }

  lemma ByteFeeds(c: bv16, x: bv8)
    ensures Byte(c, x) == Feed(c, x as bv16, 8)
  {
    Conclude(c, x as bv16, 8, Byte(c, x), Feed(c, x as bv16, 8));
  }

  lemma FeedStep(c: bv16, n: bv16, k: nat, b: bool)
    requires k > 0 && b == (n & 1 == 1)
    ensures Feed(c, n, k) == Feed(ShiftIn(c, b), n >> 1, k - 1)
  {}

  lemma FeedTwo(c: bv16, n: bv16, m: bv16, k: nat, b0: bool, b1: bool)
    requires k >= 2 && b0 == (n & 1 == 1) && b1 == ((n >> 1) & 1 == 1) && m == n >> 2
    ensures Feed(c, n, k) == Feed(ShiftIn(ShiftIn(c, b0), b1), m, k - 2)
  {
    FeedStep(c, n, k, b0);
    FeedStep(ShiftIn(c, b0), n >> 1, k - 1, b1);
  }

  lemma FeedFour(c: bv16, n: bv16, m: bv16, k: nat, b0: bool, b1: bool, b2: bool, b3: bool)
    requires k >= 4 && b0 == (n & 1 == 1) && b1 == ((n >> 1) & 1 == 1)
    requires b2 == ((n >> 2) & 1 == 1) && b3 == ((n >> 3) & 1 == 1)
    requires m == n >> 4
    ensures Feed(c, n, k) == Feed(ShiftIn(ShiftIn(ShiftIn(ShiftIn(c, b0), b1), b2), b3), m, k - 4)
  {
    FeedTwo(c, n, n >> 2, k, b0, b1);
    FeedTwo(ShiftIn(ShiftIn(c, b0), b1), n >> 2, m, k - 2, b2, b3);
  }

  lemma FeedFourBits(c: bv16, n: bv16, m: bv16, k: nat, b0: bool, b1: bool, b2: bool, b3: bool)
    requires k >= 4 && b0 == (n & 1 == 1) && b1 == ((n >> 1) & 1 == 1)
    requires b2 == ((n >> 2) & 1 == 1) && b3 == ((n >> 3) & 1 == 1)
    requires m == n >> 4
    ensures Feed(c, n, k) == Feed(CrcBits(c, [b0, b1, b2, b3]), m, k - 4)
  {
    FeedFour(c, n, m, k, b0, b1, b2, b3);
    FourBits(c, b0, b1, b2, b3);
  }

  /** `bits` are the lowest four bits of n. */
  predicate Nibble(bits: seq<bool>, n: bv16) {
    && |bits| == 4 && bits[0] == (n & 1 == 1) && bits[1] == ((n >> 1) & 1 == 1)
    && bits[2] == ((n >> 2) & 1 == 1) && bits[3] == ((n >> 3) & 1 == 1)
  }

  lemma FeedNibble(c: bv16, n: bv16, m: bv16, k: nat, bits: seq<bool>)
    requires k >= 4 && m == n >> 4 && Nibble(bits, n)
    ensures Feed(c, n, k) == Feed(CrcBits(c, bits), m, k - 4)
  {
    FeedFourBits(c, n, m, k, bits[0], bits[1], bits[2], bits[3]);
    assert bits == [bits[0], bits[1], bits[2], bits[3]];
  }

  lemma FeedEight(c: bv16, n: bv16, m: bv16, k: nat, low: seq<bool>, high: seq<bool>)
    requires k == 8 && m == n >> 4 && Nibble(low, n) && Nibble(high, m)
    ensures Feed(c, n, k) == CrcBits(c, low + high)
  {
    FeedNibble(c, n, m, k, low);
    FeedNibble(CrcBits(c, low), m, m >> 4, k - 4, high);
    BitsSplit(c, low, high);
  }

  lemma BitsInHalves(x: bv8)
    ensures Nibble(BitsOf(x)[..4], x as bv16) && Nibble(BitsOf(x)[4..], (x as bv16) >> 4)
  {}

  lemma FeedIsBits(c: bv16, x: bv8)
    ensures Feed(c, x as bv16, 8) == CrcBits(c, BitsOf(x))
  {
    BitsInHalves(x);
    FeedEight(c, x as bv16, (x as bv16) >> 4, 8, BitsOf(x)[..4], BitsOf(x)[4..]);
    assert BitsOf(x)[..4] + BitsOf(x)[4..] == BitsOf(x);
  }

  lemma ByteIsBits(c: bv16, x: bv8)
    ensures Byte(c, x) == CrcBits(c, BitsOf(x))
  {
    ByteFeeds(c, x);
    FeedIsBits(c, x);
  }

  lemma {:induction false} CrcIsCrcBits(c: bv16, m: seq<bv8>)
    ensures Crc(c, m) == CrcBits(c, MessageBits(m))
    decreases |m|
  {
    if m != [] {
      ByteIsBits(c, m[0]);
      CrcIsCrcBits(Byte(c, m[0]), m[1..]);
      BitsSplit(c, BitsOf(m[0]), MessageBits(m[1..]));
    }
  }

  // ---------------------------------------------------------------- the textbook form

  /** Division by x^16 + x^15 + x^2 + 1 with the highest power first: the register moves
      up, and the polynomial 0x8005 is subtracted whenever a 1 leaves it. */
  function Divide(r: bv16, bit: bool): bv16 {
    if (r & 0x8000 == 0x8000) != bit then (r << 1) ^ 0x8005 else r << 1
  }

  function DivideBits(r: bv16, bits: seq<bool>): bv16
    decreases |bits|
  {
    if bits == [] then r else DivideBits(Divide(r, bits[0]), bits[1..])
  }

  function Reverse16(c: bv16): bv16 {
    var c1 := ((c & 0x5555) << 1) | ((c & 0xAAAA) >> 1);
    var c2 := ((c1 & 0x3333) << 2) | ((c1 & 0xCCCC) >> 2);
    var c3 := ((c2 & 0x0F0F) << 4) | ((c2 & 0xF0F0) >> 4);
    ((c3 & 0x00FF) << 8) | ((c3 & 0xFF00) >> 8)
  }

  lemma ReverseShift(c: bv16)
    ensures Reverse16(c >> 1) == Reverse16(c) << 1
    ensures Reverse16((c >> 1) ^ 0xA001) == (Reverse16(c) << 1) ^ 0x8005
    ensures c & 1 == 1 <==> Reverse16(c) & 0x8000 == 0x8000
  {}

  lemma ShiftDivides(c: bv16, bit: bool)
    ensures Reverse16(ShiftIn(c, bit)) == Divide(Reverse16(c), bit)
  {
    ReverseShift(c);
  }

  lemma {:induction false} BitsDivide(c: bv16, bits: seq<bool>)
    ensures Reverse16(CrcBits(c, bits)) == DivideBits(Reverse16(c), bits)
    decreases |bits|
  {
    if bits != [] {
      ShiftDivides(c, bits[0]);
      BitsDivide(ShiftIn(c, bits[0]), bits[1..]);
    }
  }

  /** The CRC of a buffer, with its bits reversed, is the remainder that the polynomial
      of tool/crc16.h:4-7 leaves. */
  lemma CrcIsRemainder(c: bv16, m: seq<bv8>)
    ensures Reverse16(Crc(c, m)) == DivideBits(Reverse16(c), MessageBits(m))
  {
    CrcIsCrcBits(c, m);
    BitsDivide(c, MessageBits(m));
  }

  // ---------------------------------------------------------------- bursts

  /** A difference between two registers, seen through mask m, can move down n bits
      before it may leave the register. */
  predicate Room(m: bv16, n: nat)
    decreases n
  {
    n == 0 || (m & 1 == 0 && Room((m >> 1) | 0x8000, n - 1))
  }

  lemma DifferenceArises(c: bv16, x: bool, y: bool)
    requires x != y
    ensures (ShiftIn(c, x) ^ ShiftIn(c, y)) & 0x8000 != 0
  {}

  lemma DifferenceMoves(c: bv16, d: bv16, x: bool, y: bool, m: bv16)
    requires m & 1 == 0 && (c ^ d) & m != 0
    ensures (ShiftIn(c, x) ^ ShiftIn(d, y)) & ((m >> 1) | 0x8000) != 0
  {}

  lemma {:induction false} WindowDiffers(c: bv16, d: bv16, p: seq<bool>, q: seq<bool>, m: bv16)
    requires |p| == |q| && Room(m, |p|) && (c ^ d) & m != 0
    ensures CrcBits(c, p) != CrcBits(d, q)
    decreases |p|
  {
    if p != [] {
      DifferenceMoves(c, d, p[0], q[0], m);
      WindowDiffers(ShiftIn(c, p[0]), ShiftIn(d, q[0]), p[1..], q[1..], (m >> 1) | 0x8000);
    }
  }

  lemma {:induction false} RoomForLess(m: bv16, n: nat, k: nat)
    requires Room(m, n) && k <= n
    ensures Room(m, k)
    decreases n
  {
    if k > 0 { RoomForLess((m >> 1) | 0x8000, n - 1, k - 1); }
  }

  lemma RoomFor15()
    ensures Room(0x8000, 15)
  {}

  lemma {:induction false} ShortDiffers(c: bv16, p: seq<bool>, q: seq<bool>)
    requires |p| == |q| <= 16 && p != q
    ensures CrcBits(c, p) != CrcBits(c, q)
    decreases |p|
  {
    if p[0] == q[0] {
      assert p == [p[0]] + p[1..] && q == [q[0]] + q[1..];
      ShortDiffers(ShiftIn(c, p[0]), p[1..], q[1..]);
    } else {
      DifferenceArises(c, p[0], q[0]);
      RoomFor15();
      RoomForLess(0x8000, 15, |p| - 1);
      WindowDiffers(ShiftIn(c, p[0]), ShiftIn(c, q[0]), p[1..], q[1..], 0x8000);
    }
  }

  lemma ShiftInIsInjective(c: bv16, d: bv16, x: bool)
    requires c != d
    ensures ShiftIn(c, x) != ShiftIn(d, x)
  {}

  lemma {:induction false} BitsKeepDifference(c: bv16, d: bv16, p: seq<bool>)
    requires c != d
    ensures CrcBits(c, p) != CrcBits(d, p)
    decreases |p|
  {
    if p != [] {
      ShiftInIsInjective(c, d, p[0]);
      BitsKeepDifference(ShiftIn(c, p[0]), ShiftIn(d, p[0]), p[1..]);
    }
  }

  /** Two buffers that differ in no bit outside the n bits from bit i on. */
  ghost predicate AgreeOutside(m: seq<bv8>, w: seq<bv8>, i: nat, n: nat) {
    && |m| == |w|
    && forall k :: 0 <= k < 8 * |m| && !(i <= k < i + n) ==> MessageBits(m)[k] == MessageBits(w)[k]
  }

  lemma BurstInBits(c: bv16, pre: seq<bool>, p: seq<bool>, q: seq<bool>, post: seq<bool>)
    requires |p| == |q| <= 16 && p != q
    ensures CrcBits(c, pre + p + post) != CrcBits(c, pre + q + post)
  {
    BitsSplit(c, pre + p, post);
    BitsSplit(c, pre, p);
    BitsSplit(c, pre + q, post);
    BitsSplit(c, pre, q);
    ShortDiffers(CrcBits(c, pre), p, q);
    BitsKeepDifference(CrcBits(c, pre + p), CrcBits(c, pre + q), post);
  }

  lemma SameMaskedBits(x: bv8, y: bv8)
    requires (x & 0x01 != 0) == (y & 0x01 != 0) && (x & 0x02 != 0) == (y & 0x02 != 0)
    requires (x & 0x04 != 0) == (y & 0x04 != 0) && (x & 0x08 != 0) == (y & 0x08 != 0)
    requires (x & 0x10 != 0) == (y & 0x10 != 0) && (x & 0x20 != 0) == (y & 0x20 != 0)
    requires (x & 0x40 != 0) == (y & 0x40 != 0) && (x & 0x80 != 0) == (y & 0x80 != 0)
    ensures x == y
  {}

  lemma SameBitsSameByte(x: bv8, y: bv8)
    requires BitsOf(x) == BitsOf(y)
    ensures x == y
  {
    assert forall k :: 0 <= k < 8 ==> BitsOf(x)[k] == BitsOf(y)[k];
    SameMaskedBits(x, y);
  }

  lemma {:induction false} SameBits(m: seq<bv8>, w: seq<bv8>)
    requires |m| == |w| && MessageBits(m) == MessageBits(w)
    ensures m == w
  {
    if m != [] {
      assert BitsOf(m[0]) == MessageBits(m)[..8] && BitsOf(w[0]) == MessageBits(w)[..8];
      assert MessageBits(m[1..]) == MessageBits(m)[8..] && MessageBits(w[1..]) == MessageBits(w)[8..];
      SameBitsSameByte(m[0], w[0]);
      SameBits(m[1..], w[1..]);
      assert m == [m[0]] + m[1..] && w == [w[0]] + w[1..];
    }
  }

  /** Main result: any change of a buffer, of any length, that is confined to 16
      consecutive bits changes its CRC. */
  lemma BurstDetected(c: bv16, m: seq<bv8>, w: seq<bv8>, i: nat)
    requires AgreeOutside(m, w, i, 16) && m != w
    ensures Crc(c, m) != Crc(c, w)
  {
    var a, b := MessageBits(m), MessageBits(w);
    var lo := if i <= |a| then i else |a|;
    var hi := if i + 16 <= |a| then i + 16 else |a|;
    if a == b { SameBits(m, w); }
    assert a == a[..lo] + a[lo..hi] + a[hi..];
    assert b == a[..lo] + b[lo..hi] + a[hi..];
    BurstInBits(c, a[..lo], a[lo..hi], b[lo..hi], a[hi..]);
    CrcIsCrcBits(c, m);
    CrcIsCrcBits(c, w);
  }

  lemma BitAfterFirst(m: seq<bv8>, b: nat)
    requires m != [] && b < 8 * |m| - 8
    ensures MessageBits(m)[b + 8] == MessageBits(m[1..])[b]
  {
    assert MessageBits(m) == BitsOf(m[0]) + MessageBits(m[1..]);
  }

  lemma {:induction false} BitOf(m: seq<bv8>, j: nat, b: nat)
    requires j < |m| && b < 8
    ensures MessageBits(m)[8 * j + b] == BitsOf(m[j])[b]
  {
    if j > 0 {
      BitOf(m[1..], j - 1, b);
      BitAfterFirst(m, 8 * (j - 1) + b);
    }
  }

  lemma BitOfByte(m: seq<bv8>, k: nat)
    requires k < 8 * |m|
    ensures MessageBits(m)[k] == BitsOf(m[k / 8])[k % 8]
  {
    BitOf(m, k / 8, k % 8);
  }

  /** Buffers that differ in no byte but k and k + 1. */
  ghost predicate TwoBytesApart(m: seq<bv8>, w: seq<bv8>, k: nat) {
    |m| == |w| && forall j :: 0 <= j < |m| && j != k && j != k + 1 ==> m[j] == w[j]
  }

  /** In particular, any change of two adjacent bytes changes the CRC. */
  lemma AdjacentBytesDetected(c: bv16, m: seq<bv8>, w: seq<bv8>, k: nat)
    requires TwoBytesApart(m, w, k) && m != w
    ensures Crc(c, m) != Crc(c, w)
  {
    forall b | 0 <= b < 8 * |m| && !(8 * k <= b < 8 * k + 16) ensures MessageBits(m)[b] == MessageBits(w)[b] {
      BitOfByte(m, b);
      BitOfByte(w, b);
    }
    BurstDetected(c, m, w, 8 * k);
  }

  lemma ThreeBytes(x: bv8, y: bv8, z: bv8)
    ensures Crc(0, [x, y, z]) == Byte(Byte(Byte(0, x), y), z)
  {
    assert [x, y, z][1..] == [y, z];
    TwoBytes(Byte(0, x), y, z);
  }

  /** The bound of 16 bits is exact: a change of the 17 bits of the polynomial itself
      goes unnoticed. */
  lemma SeventeenBitsEscape()
    ensures Crc(0, [0x03, 0x40, 0x01]) == Crc(0, [0x00, 0x00, 0x00])
    ensures AgreeOutside([0x03, 0x40, 0x01], [0x00, 0x00, 0x00], 0, 17)
  {
    ThreeBytes(0x03, 0x40, 0x01);
    ThreeBytes(0, 0, 0);
    var m: seq<bv8> := [0x03, 0x40, 0x01];
    var w: seq<bv8> := [0x00, 0x00, 0x00];
    forall b | 17 <= b < 24 ensures MessageBits(m)[b] == MessageBits(w)[b] {
      BitOfByte(m, b);
      BitOfByte(w, b);
    }
  }
}
