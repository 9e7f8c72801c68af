/** Frames to and from a camera head over LVDS (lvds/lvds_context.c:106-133,
    fpga/fpga.c:952-1022). A frame is the command word, the length word, the body and its
    CRC word, sent twice to fill 32 bits. All words are sent low byte first. */
module Lvds {
  import opened Crc16
  import opened ByteNumbers

  // ---------------------------------------------------------------- words

  function Word(lo: bv8, hi: bv8): bv16 {
    ((hi as bv16) << 8) | (lo as bv16)
  }

  function Le(w: bv16): (s: seq<bv8>)
    ensures |s| == 2
  {
    [Low(w), High(w)]
  }

  lemma WordOfLe(w: bv16)
    ensures Word(Low(w), High(w)) == w
  {}

  lemma LeOfWord(lo: bv8, hi: bv8)
    ensures Low(Word(lo, hi)) == lo && High(Word(lo, hi)) == hi
  {}

  /** The 16-bit number n as a word, and the number two bytes stand for. */
  function NumberWord(n: nat): bv16
    requires n < 0x1_0000
  {
    Word(ByteOf(n % 256), ByteOf(n / 256))
  }

  function Number(lo: bv8, hi: bv8): nat {
    NumberOf(lo) + 256 * NumberOf(hi)
  }

  lemma NumberOfWord(n: nat)
    requires n < 0x1_0000
    ensures Number(Low(NumberWord(n)), High(NumberWord(n))) == n
  {
    LeOfWord(ByteOf(n % 256), ByteOf(n / 256));
    NumberOfByte(n % 256);
    NumberOfByte(n / 256);
  }

  /** The bytes of consecutive words. */
  function Bytes(wire: seq<bv16>): (s: seq<bv8>)
    ensures |s| == 2 * |wire|
  {
    if wire == [] then [] else Bytes(wire[..|wire| - 1]) + Le(wire[|wire| - 1])
  }

  // ---------------------------------------------------------------- specification

  /** Command, length and body: what the CRC is computed over. */
  function Covered(head: bv16, len: bv16, body: seq<bv8>): (s: seq<bv8>)
    ensures |s| == |body| + 4
  {
    Le(head) + Le(len) + body
  }

  /** What is sent. After an odd body the CRC word is stored one byte too early, over the
      last body byte. */
  function Frame(head: bv16, len: bv16, body: seq<bv8>): (f: seq<bv8>)
    ensures |f| == |body| + 8 - |body| % 2
  {
    var p := Covered(head, len, body);
    p[..|p| - |body| % 2] + Le(Crc(0, p)) + Le(Crc(0, p))
  }

  /** The 16-bit length word that is computed from a network length: four bytes of type
      more, six of command, length and CRC less. */
  function WireLen(netLen: nat): (len: nat)
    ensures len < 0x1_0000 && (len + 2) % 0x1_0000 == netLen % 0x1_0000
  {
    (netLen + 0xFFFE) % 0x1_0000
  }

  /** What is sent for a length of 0 or 1: the CRC word takes the place of the length. */
  function ShortFrame(head: bv16, len: bv16, n: nat): (f: seq<bv8>)
    requires n < 2
    ensures |f| == 6
  {
    var crc := Crc(0, (Le(head) + Le(len))[..n + 2]);
    Le(head) + Le(crc) + Le(crc)
  }

  /** What is sent for length n; `body` is what the buffer has behind the length word. */
  function Sent(head: bv16, n: nat, body: seq<bv8>): seq<bv8>
    requires n < 0x1_0000 && n <= |body| + 2
  {
    if n < 2 then ShortFrame(head, NumberWord(n), n) else Frame(head, NumberWord(n), body[..n - 2])
  }

  /** The length a received frame declares: its body and its CRC word. */
  function Declared(f: seq<bv8>): (n: nat)
    requires |f| >= 4
  {
    Number(f[2], f[3])
  }

  predicate Fits(f: seq<bv8>) {
    |f| >= 4 && Declared(f) + 4 <= |f|
  }

  /** The CRC over the command, the length and the body agrees with the word found where
      a frame of declared length n has its CRC. */
  predicate Checks(f: seq<bv8>, n: nat)
    requires n + 4 <= |f|
  {
    Crc(0, f[..n + 2]) == Word(f[2 + 2 * (n / 2)], f[3 + 2 * (n / 2)])
  }

  predicate Accepted(f: seq<bv8>)
    requires Fits(f)
  {
    Checks(f, Declared(f))
  }

  // ---------------------------------------------------------------- code

  function Put(s: seq<bv8>, at: nat, w: bv16): (t: seq<bv8>)
    requires at + 2 <= |s|
    ensures |t| == |s|
  {
    s[..at] + Le(w) + s[at + 2..]
  }

  method StoreWord(mem: array<bv8>, at: nat, w: bv16)
    requires at + 2 <= mem.Length
    modifies mem
    ensures mem[..] == Put(old(mem[..]), at, w)
  {
    mem[at], mem[at + 1] := Low(w), High(w);
  }

  lemma PutKeeps(s: seq<bv8>, at: nat, w: bv16)
    requires at + 2 <= |s|
    ensures var t := Put(s, at, w);
            t[..at] == s[..at] && t[at..at + 2] == Le(w) && t[at + 2..] == s[at + 2..]
  {}

  lemma HeaderInPlace(s: seq<bv8>, head: bv16, len: bv16, n: nat)
    requires n + 8 <= |s|
    ensures var t := Put(Put(s, 4, head), 6, len);
            t[4..n + 8] == Covered(head, len, s[8..n + 8]) && t[..4] == s[..4] && t[8..] == s[8..]
  {
    var r := Put(s, 4, head);
    var t := Put(r, 6, len);
    PutKeeps(s, 4, head);
    PutKeeps(r, 6, len);
    assert t[4..6] == t[..6][4..] == r[4..6] && r[6..][2..] == r[8..] == s[6..][2..];
    assert t[8..n + 8] == t[8..][..n] && s[8..n + 8] == s[8..][..n];
    assert t[4..n + 8] == t[4..6] + t[6..8] + t[8..n + 8];
    assert t[..4] == t[..6][..4] && r[..4] == r[..6][..4];
  }

  lemma CrcInPlace(s: seq<bv8>, at: nat, crc: bv16)
    requires 4 <= at && at + 4 <= |s|
    ensures var t := Put(Put(s, at, crc), at + 2, crc);
            && t[4..at + 4] == s[4..at] + Le(crc) + Le(crc)
            && t[..4] == s[..4] && t[at + 4..] == s[at + 4..]
  {}

  lemma FrameInPlace(t: seq<bv8>, head: bv16, len: bv16, body: seq<bv8>, at: nat, crc: bv16)
    requires |body| + 8 <= |t| && t[4..|body| + 8] == Covered(head, len, body)
    requires at == 8 + |body| - |body| % 2 && crc == Crc(0, Covered(head, len, body))
    ensures t[4..at] + Le(crc) + Le(crc) == Frame(head, len, body)
  {
    assert t[4..at] == t[4..|body| + 8][..at - 4];
  }

  lemma WholeFrame(was: seq<bv8>, head: bv16, len: bv16, n: nat, at: nat, crc: bv16)
    requires n + 12 <= |was| && at == 8 + n - n % 2 && crc == Crc(0, Covered(head, len, was[8..n + 8]))
    ensures var u := Put(Put(Put(Put(was, 4, head), 6, len), at, crc), at + 2, crc);
            && u[4..at + 4] == Frame(head, len, was[8..n + 8])
            && u[..4] == was[..4] && u[at + 4..] == was[at + 4..]
  {
    var t := Put(Put(was, 4, head), 6, len);
    HeaderInPlace(was, head, len, n);
    CrcInPlace(t, at, crc);
    FrameInPlace(t, head, len, was[8..n + 8], at, crc);
    assert t[at + 4..] == t[8..][at - 4..] && was[at + 4..] == was[8..][at - 4..];
  }

  /** The command and the length word, and the CRC over len + 2 bytes. */
  method WriteHeader(mem: array<bv8>, head: bv16, len: nat, word: bv16) returns (crc: bv16)
    requires len + 8 <= mem.Length
    modifies mem
    ensures mem[..] == Put(Put(old(mem[..]), 4, head), 6, word)
    ensures crc == Crc(0, mem[4..len + 6])
  {
    StoreWord(mem, 4, head);
    StoreWord(mem, 6, word);
    crc := ComputeCrc(0, mem, 4, len + 2);
  }

  lemma ShortHeader(was: seq<bv8>, head: bv16, len: bv16, n: nat)
    requires n < 2 && n + 10 <= |was|
    ensures var t := Put(Put(was, 4, head), 6, len);
            && t[4..n + 6] == (Le(head) + Le(len))[..n + 2] && t[4..6] == Le(head)
            && t[..4] == was[..4] && t[10..] == was[10..]
  {
    var t := Put(Put(was, 4, head), 6, len);
    HeaderInPlace(was, head, len, 0);
    assert t[4..8] == Covered(head, len, was[8..8]) == Le(head) + Le(len);
    assert t[4..n + 6] == t[4..8][..n + 2];
    assert t[4..6] == t[4..8][..2];
    assert t[10..] == t[8..][2..] && was[10..] == was[8..][2..];
  }

  lemma ShortInPlace(was: seq<bv8>, head: bv16, len: bv16, n: nat, crc: bv16)
    requires n < 2 && n + 10 <= |was| && crc == Crc(0, Put(Put(was, 4, head), 6, len)[4..n + 6])
    ensures var u := Put(Put(Put(Put(was, 4, head), 6, len), 6, crc), 8, crc);
            u[4..10] == ShortFrame(head, len, n) && u[..4] == was[..4] && u[10..] == was[10..]
  {
    ShortHeader(was, head, len, n);
    CrcInPlace(Put(Put(was, 4, head), 6, len), 6, crc);
  }

  lemma Parity(n: nat)
    requires n >= 2
    ensures 6 + 2 * (n / 2) == 8 + (n - 2) - (n - 2) % 2
  {}

  lemma LongInPlace(was: seq<bv8>, head: bv16, word: bv16, n: nat, at: nat, crc: bv16)
    requires 2 <= n && n + 10 <= |was| && at == 6 + 2 * (n / 2)
    requires crc == Crc(0, Put(Put(was, 4, head), 6, word)[4..n + 6])
    ensures var u := Put(Put(Put(Put(was, 4, head), 6, word), at, crc), at + 2, crc);
            && u[4..at + 4] == Frame(head, word, was[8..n + 6])
            && u[..4] == was[..4] && u[at + 4..] == was[at + 4..]
  {
    Parity(n);
    HeaderInPlace(was, head, word, n - 2);
    WholeFrame(was, head, word, n - 2, at, crc);
  }

  lemma SentLong(head: bv16, len: nat, was: seq<bv8>)
    requires 2 <= len < 0x1_0000 && len + 10 <= |was|
    ensures Sent(head, len, was[8..]) == Frame(head, NumberWord(len), was[8..len + 6])
  {
    assert was[8..][..len - 2] == was[8..len + 6];
  }

  lemma SentShort(head: bv16, len: nat, rest: seq<bv8>)
    requires len < 2 && len <= |rest| + 2
    ensures Sent(head, len, rest) == ShortFrame(head, NumberWord(len), len)
  {}

  lemma StoredShort(was: seq<bv8>, head: bv16, len: nat, word: bv16, at: nat, crc: bv16)
    requires len < 2 && word == NumberWord(len) && len + 10 <= |was| && at == 6
    requires crc == Crc(0, Put(Put(was, 4, head), 6, word)[4..len + 6])
    ensures var u := Put(Put(Put(Put(was, 4, head), 6, word), at, crc), at + 2, crc);
            && u[4..at + 4] == Sent(head, len, was[8..])
            && u[..4] == was[..4] && u[at + 4..] == was[at + 4..]
  {
    ShortInPlace(was, head, word, len, crc);
    SentShort(head, len, was[8..]);
  }

  lemma StoredLong(was: seq<bv8>, head: bv16, len: nat, word: bv16, at: nat, crc: bv16)
    requires 2 <= len < 0x1_0000 && word == NumberWord(len) && len + 10 <= |was| && at == 6 + 2 * (len / 2)
    requires crc == Crc(0, Put(Put(was, 4, head), 6, word)[4..len + 6])
    ensures var u := Put(Put(Put(Put(was, 4, head), 6, word), at, crc), at + 2, crc);
            && u[4..at + 4] == Sent(head, len, was[8..])
            && u[..4] == was[..4] && u[at + 4..] == was[at + 4..]
  {
    LongInPlace(was, head, word, len, at, crc);
    SentLong(head, len, was);
  }

  lemma Stored(was: seq<bv8>, head: bv16, len: nat, word: bv16, at: nat, crc: bv16)
    requires len < 0x1_0000 && word == NumberWord(len) && len + 10 <= |was| && at == 6 + 2 * (len / 2)
    requires crc == Crc(0, Put(Put(was, 4, head), 6, word)[4..len + 6])
    ensures var u := Put(Put(Put(Put(was, 4, head), 6, word), at, crc), at + 2, crc);
            && u[4..at + 4] == Sent(head, len, was[8..])
            && u[..4] == was[..4] && u[at + 4..] == was[at + 4..]
  {
    if len < 2 { StoredShort(was, head, len, word, at, crc); } else { StoredLong(was, head, len, word, at, crc); }
  }

  function LenOf(body: seq<bv8>): bv16
    requires |body| < 0xFFFE
  {
    NumberWord(|body| + 2)
  }

  /** The frame of a body of n bytes, which come first in `rest`. */
  function BodyFrame(head: bv16, rest: seq<bv8>, n: nat): seq<bv8>
    requires n < 0xFFFE && n <= |rest|
  {
    Frame(head, LenOf(rest[..n]), rest[..n])
  }

  /** A network length whose length word does not wrap, of a body in a buffer of `size`. */
  predicate IsBodyLen(netLen: nat, size: nat) {
    4 <= netLen < 0x1_0002 && netLen + 4 <= size
  }

  lemma WireLenOfBody(netLen: nat)
    requires 4 <= netLen < 0x1_0002
    ensures WireLen(netLen) == netLen - 2
  {}

  lemma SentBody(head: bv16, n: nat, rest: seq<bv8>)
    requires 2 <= n < 0x1_0000 && n - 2 <= |rest|
    ensures Sent(head, n, rest) == BodyFrame(head, rest, n - 2)
  {
    assert |rest[..n - 2]| + 2 == n;
  }

  /** A network length counts the body and four bytes of type: the frame sent has the whole
      body, and declares it. */
  lemma WholeBodySent(head: bv16, netLen: nat, rest: seq<bv8>)
    requires 4 <= netLen < 0x1_0002 && netLen - 4 <= |rest|
    ensures WireLen(netLen) == netLen - 2
    ensures Sent(head, WireLen(netLen), rest) == BodyFrame(head, rest, netLen - 4)
  {
    WireLenOfBody(netLen);
    SentBody(head, netLen - 2, rest);
  }

  method WriteFrame(mem: array<bv8>, head: bv16, len: nat)
    requires len < 0x1_0000 && len + 10 <= mem.Length
    modifies mem
    ensures mem[4..10 + 2 * (len / 2)] == Sent(head, len, old(mem[8..]))
    ensures mem[..4] == old(mem[..4]) && mem[10 + 2 * (len / 2)..] == old(mem[10 + 2 * (len / 2)..])
  {
    ghost var was := mem[..];
    var crc := WriteHeader(mem, head, len, NumberWord(len));
    var at := 4 + 2 * ((len + 2) / 2);
    assert mem[4..len + 6] == mem[..][4..len + 6];
    StoreWord(mem, at, crc);
    StoreWord(mem, at + 2, crc);
    Stored(was, head, len, NumberWord(len), at, crc);
    assert mem[4..at + 4] == mem[..][4..at + 4];
    assert was[8..] == old(mem[8..]);
  }

  method BuildSent(mem: array<bv8>, head: bv16, netLen: nat) returns (sendLen: nat)
    requires WireLen(netLen) + 10 <= mem.Length
    modifies mem
    ensures sendLen == WireLen(netLen) / 2 + 3 && 4 + 2 * sendLen <= mem.Length
    ensures mem[4..4 + 2 * sendLen] == Sent(head, WireLen(netLen), old(mem[8..]))
    ensures mem[..4] == old(mem[..4]) && mem[4 + 2 * sendLen..] == old(mem[4 + 2 * sendLen..])
  {
    var len := WireLen(netLen);
    sendLen := len / 2 + 3;
    WriteFrame(mem, head, len);
  }

  /** Frame construction in the buffer of the network message: the type is at 0, the
      length, which counts the body and four bytes more, at 4, and the body at 8. */
  method BuildFrame(mem: array<bv8>, head: bv16, netLen: nat) returns (sendLen: nat)
    requires WireLen(netLen) + 10 <= mem.Length
    modifies mem
    ensures 4 + 2 * sendLen <= mem.Length
    ensures mem[4..4 + 2 * sendLen] == Sent(head, WireLen(netLen), old(mem[8..]))
    ensures mem[..4] == old(mem[..4]) && mem[4 + 2 * sendLen..] == old(mem[4 + 2 * sendLen..])
    ensures IsBodyLen(netLen, mem.Length) ==>
              && sendLen == (netLen - 4) / 2 + 4
              && mem[4..4 + 2 * sendLen] == BodyFrame(head, old(mem[8..]), netLen - 4)
  {
    ghost var rest := mem[8..];
    sendLen := BuildSent(mem, head, netLen);
    if IsBodyLen(netLen, mem.Length) {
      WholeBodySent(head, netLen, rest);
    }
  }

  lemma BytesGrow(wire: seq<bv16>, w: bv16)
    ensures Bytes(wire + [w]) == Bytes(wire) + Le(w)
  {
    assert (wire + [w])[..|wire|] == wire;
  }

  /** fpga_lvds1_send: the words written to the transmit register. */
  method Send(mem: array<bv8>, sendLen: nat) returns (wire: seq<bv16>)
    requires 4 + 2 * sendLen <= mem.Length
    ensures Bytes(wire) == mem[4..4 + 2 * sendLen]
  {
    wire := [];
    var left, at := sendLen, 4;
    while left > 0
      invariant 0 <= left <= sendLen && at == 4 + 2 * (sendLen - left)
      invariant Bytes(wire) == mem[4..at]
    {
      LeOfWord(mem[at], mem[at + 1]);
      BytesGrow(wire, Word(mem[at], mem[at + 1]));
      wire := wire + [Word(mem[at], mem[at + 1])];
      assert mem[4..at + 2] == mem[4..at] + [mem[at], mem[at + 1]];
      left, at := left - 1, at + 2;
    }
  }

  lemma StoredNext(was: seq<bv8>, now: seq<bv8>, wire: seq<bv16>, j: nat)
    requires j < |wire| && 2 * |wire| <= |was| == |now|
    requires now[..2 * j] == Bytes(wire[..j]) && now[2 * j..] == was[2 * j..]
    ensures var next := Put(now, 2 * j, wire[j]);
            next[..2 * j + 2] == Bytes(wire[..j + 1]) && next[2 * j + 2..] == was[2 * j + 2..]
  {
    assert wire[..j + 1] == wire[..j] + [wire[j]];
    BytesGrow(wire[..j], wire[j]);
    assert now[2 * j..][2..] == was[2 * j..][2..];
  }

  /** The words read from the receive register. */
  method Read(wire: seq<bv16>, data: array<bv8>)
    requires 2 * |wire| <= data.Length
    modifies data
    ensures data[..] == Bytes(wire) + old(data[2 * |wire|..])
  {
    ghost var was := data[..];
    var j := 0;
    while j < |wire|
      invariant 0 <= j <= |wire|
      invariant data[..][..2 * j] == Bytes(wire[..j]) && data[..][2 * j..] == was[2 * j..]
    {
      StoredNext(was, data[..], wire, j);
      StoreWord(data, 2 * j, wire[j]);
      j := j + 1;
    }
    assert wire[..j] == wire;
    assert data[..] == data[..][..2 * j] + data[..][2 * j..];
  }

  method CheckAs(data: array<bv8>, ghost f: seq<bv8>, len: nat) returns (ok: bool)
    requires len + 4 <= |f| <= data.Length && data[..|f|] == f
    ensures ok == Checks(f, len)
  {
    var crc := ComputeCrc(0, data, 0, len + 2);
    assert data[0..0 + (len + 2)] == f[..len + 2];
    var at := 2 + 2 * (len / 2);
    assert data[at] == f[at] && data[at + 1] == f[at + 1];
    ok := crc == Word(data[at], data[at + 1]);
  }

  /** The check at the end of fpga_lvds1_recv. */
  method Check(data: array<bv8>, ghost f: seq<bv8>) returns (ok: bool)
    requires Fits(f) && |f| <= data.Length && data[..|f|] == f
    ensures ok == Accepted(f)
  {
    assert data[2] == f[2] && data[3] == f[3];
    var len := Number(data[2], data[3]);
    assert len == Declared(f);
    ok := CheckAs(data, f, len);
  }

  /** What the receive buffer holds after the words received: an earlier frame's bytes
      follow. */
  function Filled(wire: seq<bv16>, was: seq<bv8>): (f: seq<bv8>)
    requires 2 * |wire| <= |was|
    ensures |f| == |was|
  {
    Bytes(wire) + was[2 * |wire|..]
  }

  /** fpga_lvds1_recv: 2 on a timeout, 1 on a CRC error, 0 if the frame is accepted. The
      declared length is taken from the buffer, whatever number of words was received. */
  method Recv(wire: seq<bv16>, arrived: bool, data: array<bv8>) returns (val: nat)
    requires arrived ==> 2 * |wire| <= data.Length && Fits(Filled(wire, data[..]))
    modifies data
    ensures data[..] == if arrived then Filled(wire, old(data[..])) else old(data[..])
    ensures val == if !arrived then 2 else if Accepted(data[..]) then 0 else 1
  {
    if !arrived {
      return 2;
    }
    Read(wire, data);
    assert data[..] == Filled(wire, old(data[..]));
    assert data[..data.Length] == data[..];
    var ok := Check(data, data[..]);
    val := if ok then 0 else 1;
  }

  // ---------------------------------------------------------------- results

  lemma FrameStarts(head: bv16, len: bv16, body: seq<bv8>)
    ensures var f := Frame(head, len, body); Le(head) == f[..2] && f[2] == Low(len) && f[3] == High(len)
  {}

  lemma FrameDeclares(head: bv16, body: seq<bv8>)
    requires |body| < 0xFFFE
    ensures var f := Frame(head, LenOf(body), body); Fits(f) && Declared(f) == |body| + 2
  {
    FrameStarts(head, LenOf(body), body);
    NumberOfWord(|body| + 2);
  }

  lemma FrameParts(head: bv16, len: bv16, body: seq<bv8>)
    ensures var f := Frame(head, len, body);
            var at := |body| + 4 - |body| % 2;
            var crc := Crc(0, Covered(head, len, body));
            && f[..at] == Covered(head, len, body)[..at] && f[at] == Low(crc) && f[at + 1] == High(crc)
  {}

  /** The frame ends with its CRC word, twice. */
  lemma CrcTwice(head: bv16, len: bv16, body: seq<bv8>)
    ensures var f := Frame(head, len, body);
            var crc := Le(Crc(0, Covered(head, len, body)));
            f[|f| - 2..] == crc && f[|f| - 4..|f| - 2] == crc
  {}

  lemma EvenChecks(f: seq<bv8>, p: seq<bv8>, n: nat)
    requires n % 2 == 0 && n + 4 <= |f| && f[..n + 2] == p
    requires f[n + 2] == Low(Crc(0, p)) && f[n + 3] == High(Crc(0, p))
    ensures Checks(f, n)
  {
    WordOfLe(Crc(0, p));
  }

  lemma EvenFrame(head: bv16, len: bv16, body: seq<bv8>)
    requires |body| % 2 == 0
    ensures var f := Frame(head, len, body); Checks(f, |body| + 2) && f[4..|body| + 4] == body
  {
    var f := Frame(head, len, body);
    var p := Covered(head, len, body);
    FrameParts(head, len, body);
    assert p[..|body| + 4] == p;
    EvenChecks(f, p, |body| + 2);
    assert f[4..|body| + 4] == f[..|body| + 4][4..] == p[4..] == body;
  }

  /** Main result: a frame built from a body of even length is accepted, and its body is
      where it was. */
  lemma EvenAccepted(head: bv16, body: seq<bv8>)
    requires |body| < 0xFFFE && |body| % 2 == 0
    ensures var f := Frame(head, LenOf(body), body);
            Fits(f) && Accepted(f) && Declared(f) == |body| + 2 && f[4..|body| + 4] == body
  {
    FrameDeclares(head, body);
    EvenFrame(head, LenOf(body), body);
  }

  lemma ChecksAt(g: seq<bv8>, m: nat)
    requires m % 2 == 0 && m + 4 <= |g|
    ensures Checks(g, m) <==> Word(g[m + 2], g[m + 3]) == Crc(0, g[..m + 2])
  {
    assert 2 * (m / 2) == m;
  }

  lemma SameLength(f: seq<bv8>, g: seq<bv8>)
    requires 4 <= |f| <= |g| && f[2] == g[2] && f[3] == g[3]
    ensures Declared(f) == Declared(g)
  {}

  lemma SameChecks(f: seq<bv8>, behind: seq<bv8>, m: nat)
    requires m % 2 == 0 && m + 4 <= |f|
    ensures Checks(f + behind, m) <==> Checks(f, m)
  {
    assert (f + behind)[..m + 2] == f[..m + 2];
    ChecksAt(f, m);
    ChecksAt(f + behind, m);
  }

  lemma BodyInFront(f: seq<bv8>, behind: seq<bv8>, n: nat)
    requires n + 4 <= |f|
    ensures (f + behind)[4..n + 4] == f[4..n + 4]
  {}

  /** Frame f passes the check and has the body whole. */
  predicate Carries(f: seq<bv8>, body: seq<bv8>) {
    Fits(f) && Accepted(f) && Declared(f) == |body| + 2 && f[4..|body| + 4] == body
  }

  lemma CarriesIf(g: seq<bv8>, body: seq<bv8>, m: nat)
    requires m == |body| + 2 && m + 4 <= |g| && Declared(g) == m && Checks(g, m) && g[4..|body| + 4] == body
    ensures Carries(g, body)
  {}

  lemma StillCarries(f: seq<bv8>, body: seq<bv8>, behind: seq<bv8>, m: nat)
    requires m % 2 == 0 && m == |body| + 2 && m + 4 <= |f| && Declared(f) == m && Checks(f, m)
    requires f[4..|body| + 4] == body
    ensures Carries(f + behind, body)
  {
    SameLength(f, f + behind);
    SameChecks(f, behind, m);
    BodyInFront(f, behind, |body|);
    CarriesIf(f + behind, body, m);
  }

  lemma FrameChecks(head: bv16, len: bv16, body: seq<bv8>, m: nat)
    requires |body| % 2 == 0 && m == |body| + 2
    ensures var f := Frame(head, len, body); m % 2 == 0 && m + 4 <= |f| && Checks(f, m) && f[4..|body| + 4] == body
  {
    EvenFrame(head, len, body);
  }

  lemma FrameCarries(head: bv16, len: bv16, body: seq<bv8>, behind: seq<bv8>, m: nat)
    requires |body| % 2 == 0 && m == |body| + 2 && Declared(Frame(head, len, body)) == m
    ensures Carries(Frame(head, len, body) + behind, body)
  {
    FrameChecks(head, len, body, m);
    StillCarries(Frame(head, len, body), body, behind, m);
  }

  /** The same in the receive buffer, whatever an earlier frame has left behind it. */
  lemma FrameArrives(head: bv16, body: seq<bv8>, behind: seq<bv8>)
    requires |body| < 0xFFFE && |body| % 2 == 0
    ensures Carries(Frame(head, LenOf(body), body) + behind, body)
  {
    FrameDeclares(head, body);
    FrameCarries(head, LenOf(body), body, behind, |body| + 2);
  }

  lemma XorInjective(c: bv16, x: bv8, y: bv8)
    requires c ^ (x as bv16) == c ^ (y as bv16)
    ensures x == y
  {}

  lemma SameByteOnly(c: bv16, x: bv8, y: bv8)
    ensures Byte(c, x) == Byte(c, y) <==> x == y
  {
    if Byte(c, x) == Byte(c, y) {
      Shift8IsInjective(c ^ (x as bv16), c ^ (y as bv16));
      XorInjective(c, x, y);
    }
  }

  lemma LastByte(m: seq<bv8>, x: bv8)
    ensures Crc(0, m + [x]) == Byte(Crc(0, m), x)
  {
    CrcSplits(0, m, [x]);
    assert Crc(Byte(Crc(0, m), x), []) == Byte(Crc(0, m), x);
    assert [x][1..] == [];
  }

  lemma OddChecks(f: seq<bv8>, p: seq<bv8>, n: nat)
    requires n % 2 == 1 && n + 4 <= |f| && |p| == n + 2 && f[..n + 1] == p[..n + 1]
    requires f[n + 1] == Low(Crc(0, p)) && f[n + 2] == High(Crc(0, p))
    ensures Checks(f, n) <==> p[n + 1] == Low(Crc(0, p))
  {
    WordOfLe(Crc(0, p));
    assert f[..n + 2] == p[..n + 1] + [f[n + 1]] && p == p[..n + 1] + [p[n + 1]];
    LastByte(p[..n + 1], f[n + 1]);
    LastByte(p[..n + 1], p[n + 1]);
    SameByteOnly(Crc(0, p[..n + 1]), f[n + 1], p[n + 1]);
  }

  lemma OddFrame(head: bv16, len: bv16, body: seq<bv8>)
    requires |body| % 2 == 1
    ensures var f := Frame(head, len, body);
            var crc := Crc(0, Covered(head, len, body));
            && f[4..|body| + 3] == body[..|body| - 1] && f[|body| + 3] == Low(crc)
            && (Checks(f, |body| + 2) <==> body[|body| - 1] == Low(crc))
  {
    var f := Frame(head, len, body);
    var p := Covered(head, len, body);
    FrameParts(head, len, body);
    assert f[4..|body| + 3] == f[..|body| + 3][4..] == p[..|body| + 3][4..] == body[..|body| - 1];
    OddChecks(f, p, |body| + 2);
  }

  /** A body of odd length loses its last byte to the CRC word, and its frame is accepted
      exactly when that byte is what was written over it. */
  lemma OddAcceptedExactly(head: bv16, body: seq<bv8>)
    requires |body| < 0xFFFE && |body| % 2 == 1
    ensures var f := Frame(head, LenOf(body), body);
            var crc := Crc(0, Covered(head, LenOf(body), body));
            && Fits(f) && f[4..|body| + 3] == body[..|body| - 1] && f[|body| + 3] == Low(crc)
            && (Accepted(f) <==> body[|body| - 1] == Low(crc))
  {
    FrameDeclares(head, body);
    OddFrame(head, LenOf(body), body);
  }

  /** A frame of even length checks exactly when it leaves no remainder up to and with its
      CRC word. */
  lemma ChecksIffNoRemainder(f: seq<bv8>, n: nat)
    requires n % 2 == 0 && n + 4 <= |f|
    ensures Checks(f, n) <==> Crc(0, f[..n + 4]) == 0
  {
    assert f[..n + 4] == f[..n + 2] + [f[n + 2], f[n + 3]];
    Residue(f[..n + 2], f[n + 2], f[n + 3]);
    WordOfLe(Crc(0, f[..n + 2]));
    LeOfWord(f[n + 2], f[n + 3]);
  }

  /** Main result: an accepted frame of even length is rejected after any change that is
      confined to 16 consecutive bits of command, body and CRC and keeps the length. */
  lemma BurstRejected(f: seq<bv8>, g: seq<bv8>, i: nat)
    requires Fits(f) && Accepted(f) && Declared(f) % 2 == 0
    requires Fits(g) && Declared(g) == Declared(f)
    requires var end := Declared(f) + 4; AgreeOutside(f[..end], g[..end], i, 16) && f[..end] != g[..end]
    ensures !Accepted(g)
  {
    var n := Declared(f);
    ChecksIffNoRemainder(f, n);
    ChecksIffNoRemainder(g, n);
    BurstDetected(0, f[..n + 4], g[..n + 4], i);
  }

  /** A frame whose length word was changed to m, and nothing else. */
  function WithLength(f: seq<bv8>, m: nat): (g: seq<bv8>)
    requires |f| >= 4 && m < 0x1_0000
    ensures |g| == |f|
  {
    f[..2] + Le(NumberWord(m)) + f[4..]
  }

  lemma CutShort(f: seq<bv8>, body: seq<bv8>, len: bv16, m: nat)
    requires |f| >= |body| + 4 && f[4..|body| + 4] == body && 2 <= m <= |body|
    ensures var g := f[..2] + Le(len) + f[4..];
            && g[..m + 2] == f[..2] + Le(len) + body[..m - 2]
            && g[m + 2] == body[m - 2] && g[m + 3] == body[m - 1]
            && g[2] == Low(len) && g[3] == High(len)
  {
    var g := f[..2] + Le(len) + f[4..];
    assert g[4..] == f[4..];
    assert g[4..m + 2] == f[4..|body| + 4][..m - 2];
    assert g[m + 2] == f[m + 2] == f[4..|body| + 4][m - 2];
    assert g[m + 3] == f[m + 3] == f[4..|body| + 4][m - 1];
    assert g[..m + 2] == f[..2] + Le(len) + g[4..m + 2];
  }

  lemma ShortenedParts(head: bv16, len: bv16, body: seq<bv8>, m: nat)
    requires |body| % 2 == 0 && 2 <= m <= |body| && m < 0x1_0000
    ensures var g := WithLength(Frame(head, len, body), m);
            && g[..m + 2] == Covered(head, NumberWord(m), body[..m - 2])
            && g[m + 2] == body[m - 2] && g[m + 3] == body[m - 1]
            && g[2] == Low(NumberWord(m)) && g[3] == High(NumberWord(m))
  {
    var f := Frame(head, len, body);
    EvenFrame(head, len, body);
    FrameStarts(head, len, body);
    assert f[..2] == Le(head);
    CutShort(f, body, NumberWord(m), m);
  }

  lemma CutChecks(g: seq<bv8>, p: seq<bv8>, m: nat, lo: bv8, hi: bv8)
    requires |g| >= m + 4 && m % 2 == 0 && m < 0x1_0000 && g[..m + 2] == p && g[m + 2] == lo && g[m + 3] == hi
    requires g[2] == Low(NumberWord(m)) && g[3] == High(NumberWord(m))
    ensures Fits(g) && Declared(g) == m && (Accepted(g) <==> Word(lo, hi) == Crc(0, p))
  {
    NumberOfWord(m);
    ChecksAt(g, m);
  }

  /** What the CRC is computed over once the length word of f is m. */
  function CoveredWith(f: seq<bv8>, m: nat): seq<bv8>
    requires |f| >= 4 && m + 4 <= |f| && m < 0x1_0000
  {
    if m < 2 then (f[..2] + Le(NumberWord(m)))[..m + 2] else f[..2] + Le(NumberWord(m)) + f[4..m + 2]
  }

  /** The word it is compared with; for m < 2 this is the length word itself. */
  function ComparedWith(f: seq<bv8>, m: nat): bv16
    requires |f| >= 4 && m + 4 <= |f| && m < 0x1_0000
  {
    if m < 2 then NumberWord(m) else Word(f[2 + 2 * (m / 2)], f[3 + 2 * (m / 2)])
  }

  lemma LengthInPlace(f: seq<bv8>, m: nat)
    requires |f| >= 4 && m + 4 <= |f| && m < 0x1_0000
    ensures var g := WithLength(f, m);
            && g[2] == Low(NumberWord(m)) && g[3] == High(NumberWord(m)) && g[4..] == f[4..]
            && g[..m + 2] == CoveredWith(f, m)
  {
    var g := WithLength(f, m);
    assert g[4..] == f[4..];
    if m >= 2 {
      assert g[4..m + 2] == g[4..][..m - 2] == f[4..][..m - 2] == f[4..m + 2];
      assert g[..m + 2] == f[..2] + Le(NumberWord(m)) + g[4..m + 2];
    }
  }

  lemma DeclaredIs(g: seq<bv8>, m: nat)
    requires |g| >= m + 4 && m < 0x1_0000
    requires g[2] == Low(NumberWord(m)) && g[3] == High(NumberWord(m))
    ensures Fits(g) && Declared(g) == m
  {
    NumberOfWord(m);
  }

  lemma BehindLength(f: seq<bv8>, g: seq<bv8>, i: nat)
    requires |f| == |g| && 4 <= i < |f| && f[4..] == g[4..]
    ensures f[i] == g[i]
  {
    assert f[i] == f[4..][i - 4] && g[i] == g[4..][i - 4];
  }

  lemma WordInPlace(f: seq<bv8>, g: seq<bv8>, m: nat)
    requires |f| == |g| >= 4 && m + 4 <= |f| && m < 0x1_0000
    requires g[2] == Low(NumberWord(m)) && g[3] == High(NumberWord(m)) && g[4..] == f[4..]
    ensures Word(g[2 + 2 * (m / 2)], g[3 + 2 * (m / 2)]) == ComparedWith(f, m)
  {
    if m < 2 {
      WordOfLe(NumberWord(m));
    } else {
      BehindLength(f, g, 2 + 2 * (m / 2));
      BehindLength(f, g, 3 + 2 * (m / 2));
    }
  }

  /** What is accepted after a change of the length word to m, and of nothing else, in any
      receive buffer, for every m that fits it: odd or even, shorter or longer. */
  lemma LengthChangedExactly(f: seq<bv8>, m: nat)
    requires |f| >= 4 && m + 4 <= |f| && m < 0x1_0000
    ensures var g := WithLength(f, m);
            && Fits(g) && Declared(g) == m
            && (Accepted(g) <==> ComparedWith(f, m) == Crc(0, CoveredWith(f, m)))
  {
    var g := WithLength(f, m);
    LengthInPlace(f, m);
    DeclaredIs(g, m);
    WordInPlace(f, g, m);
  }

  /** Exactly when a frame cut short by a changed length word is still accepted: the body
      has the CRC of the shorter frame where that frame would end. */
  lemma ShortenedExactly(head: bv16, body: seq<bv8>, m: nat)
    requires |body| < 0xFFFE && |body| % 2 == 0 && m % 2 == 0 && 2 <= m <= |body|
    ensures var g := WithLength(Frame(head, LenOf(body), body), m);
            && Fits(g) && Declared(g) == m
            && (Accepted(g) <==> Word(body[m - 2], body[m - 1]) == Crc(0, Covered(head, NumberWord(m), body[..m - 2])))
  {
    ShortenedParts(head, LenOf(body), body, m);
    CutChecks(WithLength(Frame(head, LenOf(body), body), m),
              Covered(head, NumberWord(m), body[..m - 2]), m, body[m - 2], body[m - 1]);
  }

  lemma WordBehind(s: seq<bv8>, w: bv16)
    ensures var b := s + Le(w); b[..|s|] == s && Word(b[|s|], b[|s| + 1]) == w
  {
    WordOfLe(w);
  }

  /** `body` carries the end of the shorter frame. */
  predicate CarriesEnd(head: bv16, short: seq<bv8>, body: seq<bv8>)
    requires |short| < 0xFFFC
  {
    && |body| == |short| + 2 && body[..|short|] == short
    && Word(body[|short|], body[|short| + 1]) == Crc(0, Covered(head, NumberWord(|short| + 2), short))
  }

  lemma CarryEnd(head: bv16, short: seq<bv8>) returns (body: seq<bv8>)
    requires |short| < 0xFFFC
    ensures CarriesEnd(head, short, body)
  {
    var crc := Crc(0, Covered(head, NumberWord(|short| + 2), short));
    body := short + Le(crc);
    WordBehind(short, crc);
  }

  lemma CutEscapes(head: bv16, short: seq<bv8>, body: seq<bv8>)
    requires |short| < 0xFFFC && |short| % 2 == 0 && CarriesEnd(head, short, body)
    ensures var f := Frame(head, LenOf(body), body);
            && Fits(f) && Accepted(f) && Declared(f) == |short| + 4
            && var g := WithLength(f, |short| + 2);
            && Fits(g) && Accepted(g) && Declared(g) == |short| + 2
  {
    EvenAccepted(head, body);
    ShortenedExactly(head, body, |short| + 2);
  }

  /** So a change of the length word alone can go unnoticed: for every shorter frame there
      is a body that carries its end. */
  lemma ChangedLengthEscapes(head: bv16, short: seq<bv8>) returns (body: seq<bv8>)
    requires |short| < 0xFFFC && |short| % 2 == 0
    ensures |body| == |short| + 2 && body[..|short|] == short
    ensures var f := Frame(head, LenOf(body), body);
            && Fits(f) && Accepted(f) && Declared(f) == |short| + 4
            && var g := WithLength(f, |short| + 2);
            && Fits(g) && Accepted(g) && Declared(g) == |short| + 2
  {
    body := CarryEnd(head, short);
    CutEscapes(head, short, body);
  }

  /** In particular after any change of two adjacent body bytes. */
  lemma ChangedBodyRejected(f: seq<bv8>, g: seq<bv8>, k: nat, n: nat)
    requires Fits(f) && Accepted(f) && Declared(f) == n && n % 2 == 0
    requires |g| == |f| && g != f && 4 <= k && k + 2 <= n + 2
    requires forall j :: 0 <= j < |f| && j != k && j != k + 1 ==> g[j] == f[j]
    ensures Fits(g) && !Accepted(g)
  {
    var j :| 0 <= j < |f| && f[j] != g[j];
    assert f[..n + 4][j] != g[..n + 4][j];
    ChecksIffNoRemainder(f, n);
    ChecksIffNoRemainder(g, n);
    AdjacentBytesDetected(0, f[..n + 4], g[..n + 4], k);
  }
}
