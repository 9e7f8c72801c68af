/** The serial flash driver (tool/epcs.c:122-466) and the update of the FPGA configuration
    that uses it (fpga/fpga.c:1075-1117), on the chip and the transactions of module Spi. */
module Epcs {
  import opened ByteNumbers
  import opened Spi

  /** The chip between two commands. */
  predicate Between(c: Chip) {
    Whole(c) && !c.selected && c.frame == []
  }

  /** The chip between two commands, with no operation in progress. */
  predicate Ready(c: Chip) {
    Between(c) && c.wip == 0
  }

  // ---------------------------------------------------------------- single commands

  lemma FeedByte(c: Chip, b: bv8)
    requires Whole(c)
    ensures Feed(c, [b]) == ByteIn(c, b)
  {
    assert [b][..0] == [];
  }

  /** Bytes collect in a frame while chip select is forced. */
  lemma {:induction false} FeedSelected(c: Chip, bytes: seq<bv8>)
    requires Whole(c) && c.selected && (c.frame + bytes != [] ==> (c.frame + bytes)[0] != RDSR)
    ensures Feed(c, bytes) == c.(frame := c.frame + bytes)
  {
    if bytes == [] {
      assert c.frame + bytes == c.frame;
    } else {
      var rest := bytes[..|bytes| - 1];
      assert c.frame + bytes == (c.frame + rest) + [bytes[|bytes| - 1]];
      FeedSelected(c, rest);
    }
  }

  /** epcs_write_enable. */
  method WriteEnable(spi: Controller)
    requires spi.Valid() && Ready(spi.Flash())
    modifies spi
    ensures spi.Valid() && spi.overrun == old(spi.overrun)
    ensures spi.Flash() == old(spi.Flash()).(writable := true)
  {
    assert [WREN] + Zeros(0) == [WREN];
    FeedByte(spi.Flash(), WREN);
    var none := Command(spi, [WREN], 0, false, false);
  }

  /** epcs_bulk_erase, before it waits. */
  method SendErase(spi: Controller)
    requires spi.Valid() && Ready(spi.Flash()) && spi.Flash().writable
    modifies spi
    ensures spi.Valid() && spi.overrun == old(spi.overrun)
    ensures spi.Flash() == Execute(old(spi.Flash()), [BE])
  {
    assert [BE] + Zeros(0) == [BE];
    FeedByte(spi.Flash(), BE);
    var none := Command(spi, [BE], 0, false, false);
  }

  function Less(n: nat): nat {
    if n > 0 then n - 1 else 0
  }

  lemma StatusRead(c: Chip)
    requires Between(c)
    ensures Transaction(c, [RDSR, 0], true, true) == c.(wip := Less(c.wip))
    ensures Reply(Select(c), [RDSR]) == if c.wip > 0 then 0x01 else 0x00
  {
    var c1 := Select(c);
    FeedByte(c1, RDSR);
    assert [RDSR, 0][..1] == [RDSR];
  }

  /** epcs_read_status_register: one status read, which brings the end of an operation
      one step nearer. */
  method ReadStatus(spi: Controller) returns (status: bv8)
    requires spi.Valid() && Between(spi.Flash())
    modifies spi
    ensures spi.Valid() && spi.overrun == old(spi.overrun)
    ensures spi.Flash() == old(spi.Flash()).(wip := Less(old(spi.Flash()).wip))
    ensures status == if old(spi.Flash()).wip > 0 then 0x01 else 0x00
  {
    StatusRead(spi.Flash());
    assert [RDSR] + Zeros(1) == [RDSR, 0];
    assert [RDSR, 0][..1 + 0] == [RDSR];
    var data := Command(spi, [RDSR], 1, true, true);
    status := data[0];
  }

  lemma LowBit()
    ensures (0x01 as bv8) & 0x01 == 0x01 && (0x00 as bv8) & 0x01 == 0x00
  {}

  /** epcs_await_wip_released. */
  method AwaitReleased(spi: Controller)
    requires spi.Valid() && Between(spi.Flash())
    modifies spi
    ensures spi.Valid() && spi.overrun == old(spi.overrun)
    ensures spi.Flash() == old(spi.Flash()).(wip := 0)
  {
    LowBit();
    var status := ReadStatus(spi);
    while status & 0x01 != 0
      invariant spi.Valid() && spi.overrun == old(spi.overrun) && Between(spi.Flash())
      invariant spi.Flash() == old(spi.Flash()).(wip := spi.Flash().wip)
      invariant status == 0x01 || (status == 0x00 && spi.Flash().wip == 0)
      decreases spi.Flash().wip, status
    {
      status := ReadStatus(spi);
    }
  }

  /** epcs_bulk_erase. */
  method BulkErase(spi: Controller)
    requires spi.Valid() && Ready(spi.Flash())
    modifies spi
    ensures spi.Valid() && spi.overrun == old(spi.overrun) && Ready(spi.Flash())
    ensures var c := old(spi.Flash());
            spi.Flash() == c.(mem := Erased(|c.mem|), writable := false, ops := c.ops + 1)
  {
    WriteEnable(spi);
    SendErase(spi);
    AwaitReleased(spi);
  }

  // ---------------------------------------------------------------- one page

  function Header(offset: nat): (pp: seq<bv8>)
    ensures |pp| == 4 && pp[0] == PP
  {
    [PP, ByteOf(offset / 65536 % 256), ByteOf(offset / 256 % 256), ByteOf(offset % 256)]
  }

  lemma ThreeBytesOf(n: nat)
    requires n < 0x100_0000
    ensures n / 65536 % 256 * 65536 + n / 256 % 256 * 256 + n % 256 == n
  {
    assert n / 256 == 256 * (n / 256 / 256) + n / 256 % 256;
    assert n / 256 / 256 == n / 65536;
  }

  lemma AddressOfBytes(b1: bv8, b2: bv8, b3: bv8, offset: nat, data: seq<bv8>)
    requires offset < 0x100_0000
    requires NumberOf(b1) == offset / 65536 % 256 && NumberOf(b2) == offset / 256 % 256 && NumberOf(b3) == offset % 256
    ensures Address([PP, b1, b2, b3] + data) == offset
  {
    ThreeBytesOf(offset);
  }

  lemma HeaderAddress(offset: nat, data: seq<bv8>)
    requires offset < 0x100_0000
    ensures Address(Header(offset) + data) == offset
  {
    var hi, mid, lo := offset / 65536 % 256, offset / 256 % 256, offset % 256;
    NumberOfByte(hi);
    NumberOfByte(mid);
    NumberOfByte(lo);
    AddressOfBytes(ByteOf(hi), ByteOf(mid), ByteOf(lo), offset, data);
  }

  /** The chip after a page program has ended. */
  function Programmed(c: Chip, offset: nat, data: seq<bv8>): Chip
    requires Whole(c) && offset < |c.mem|
  {
    ProgramFrame(c, offset, data).(wip := 0)
  }

  lemma ProgramFrameSent(c: Chip, offset: nat, data: seq<bv8>)
    requires Ready(c) && c.writable && data != [] && offset < |c.mem| <= 0x100_0000
    ensures Transaction(Transaction(c, Header(offset), true, false), data, false, true) == ProgramFrame(c, offset, data)
  {
    var pp := Header(offset);
    FeedSelected(Select(c), pp);
    assert [] + pp == pp;
    var c1 := Select(c).(frame := pp);
    FeedSelected(c1, data);
    HeaderAddress(offset, data);
    assert (pp + data)[4..] == data;
    assert c1.(frame := pp + data).(selected := false, frame := []) == c;
  }

  /** epcs_write_buffer: a whole page program, from write enable to the end of the
      operation. */
  method WriteBuffer(spi: Controller, offset: nat, data: seq<bv8>)
    requires spi.Valid() && Ready(spi.Flash()) && data != []
    requires offset < |spi.Flash().mem| <= 0x100_0000
    modifies spi
    ensures spi.Valid() && spi.overrun == old(spi.overrun) && Ready(spi.Flash())
    ensures spi.Flash() == Programmed(old(spi.Flash()), offset, data)
  {
    WriteEnable(spi);
    ProgramFrameSent(spi.Flash(), offset, data);
    assert Header(offset) + Zeros(0) == Header(offset) && data + Zeros(0) == data;
    var none := Command(spi, Header(offset), 0, true, false);
    none := Command(spi, data, 0, false, true);
    AwaitReleased(spi);
  }

  // ---------------------------------------------------------------- splicing

  /** `after` is `before` with `data` programmed at `off`, and nothing else changed. */
  ghost predicate Spliced<T>(op: (T, T) -> T, before: seq<T>, after: seq<T>, off: nat, data: seq<T>) {
    && |after| == |before| && off + |data| <= |before|
    && forall a :: 0 <= a < |before| ==>
         after[a] == if off <= a < off + |data| then op(before[a], data[a - off]) else before[a]
  }

  lemma SpliceOn<T>(op: (T, T) -> T, m0: seq<T>, m1: seq<T>, m2: seq<T>, off: nat, a: seq<T>, b: seq<T>)
    requires Spliced(op, m0, m1, off, a) && Spliced(op, m1, m2, off + |a|, b)
    ensures Spliced(op, m0, m2, off, a + b)
  {
    forall x | 0 <= x < |m0|
      ensures m2[x] == if off <= x < off + |a + b| then op(m0[x], (a + b)[x - off]) else m0[x]
    {
      assert m1[x] == if off <= x < off + |a| then op(m0[x], a[x - off]) else m0[x];
    }
  }

  /** A program that stays inside its page does not wrap. */
  lemma {:induction false} ProgramSplices<T>(op: (T, T) -> T, mem: seq<T>, page: nat, at: nat, data: seq<T>)
    requires at < PAGE && at + |data| <= PAGE && page + PAGE <= |mem|
    ensures Spliced(op, mem, ProgramPage(op, mem, page, at, data), page + at, data)
    decreases |data|
  {
    if data != [] {
      var one := mem[page + at := op(mem[page + at], data[0])];
      assert Spliced(op, mem, one, page + at, [data[0]]);
      if |data| > 1 {
        ProgramSplices(op, one, page, at + 1, data[1..]);
      } else {
        assert data[1..] == [] && ProgramPage(op, mem, page, at, data) == one;
      }
      SpliceOn(op, mem, one, ProgramPage(op, mem, page, at, data), page + at, [data[0]], data[1..]);
      assert [data[0]] + data[1..] == data;
    }
  }

  /** Page programs that cover `data` from `off` on: each byte once, at its address, in
      order, and none across a page boundary. */
  ghost predicate Covers(ps: seq<Program>, off: nat, data: seq<bv8>)
    decreases |ps|
  {
    if ps == [] then data == []
    else
      var n := |ps[0].bytes|;
      && ps[0].addr == off && 0 < n <= |data| && ps[0].bytes == data[..n]
      && off % PAGE + n <= PAGE && Covers(ps[1..], off + n, data[n..])
  }

  lemma {:induction false} CoversMore(ps: seq<Program>, off: nat, data: seq<bv8>, p: Program)
    requires Covers(ps, off, data) && p.addr == off + |data| && p.bytes != [] && p.addr % PAGE + |p.bytes| <= PAGE
    ensures Covers(ps + [p], off, data + p.bytes)
    decreases |ps|
  {
    if ps == [] {
      assert data + p.bytes == p.bytes && ([] + [p])[1..] == [] && p.bytes[|p.bytes|..] == [];
      assert p.bytes[..|p.bytes|] == p.bytes;
    } else {
      var n := |ps[0].bytes|;
      assert (ps + [p])[1..] == ps[1..] + [p];
      assert (data + p.bytes)[n..] == data[n..] + p.bytes;
      assert (data + p.bytes)[..n] == data[..n];
      CoversMore(ps[1..], off + n, data[n..], p);
    }
  }

  predicate Holds(p: Program, a: int) {
    p.addr <= a < p.addr + |p.bytes|
  }

  lemma {:induction false} CoversInside(ps: seq<Program>, off: nat, data: seq<bv8>)
    requires Covers(ps, off, data)
    ensures forall i, a :: 0 <= i < |ps| && Holds(ps[i], a) ==> off <= a < off + |data|
    decreases |ps|
  {
    if ps != [] {
      CoversInside(ps[1..], off + |ps[0].bytes|, data[|ps[0].bytes|..]);
    }
  }

  /** What such programs mean: every address is in exactly one of them, with its byte. */
  lemma {:induction false} CoveredOnce(ps: seq<Program>, off: nat, data: seq<bv8>, a: nat) returns (i: nat)
    requires Covers(ps, off, data) && off <= a < off + |data|
    ensures i < |ps| && Holds(ps[i], a) && ps[i].bytes[a - ps[i].addr] == data[a - off]
    ensures forall j :: 0 <= j < |ps| && Holds(ps[j], a) ==> j == i
    ensures ps[i].addr / PAGE == (ps[i].addr + |ps[i].bytes| - 1) / PAGE
    decreases |ps|
  {
    var n := |ps[0].bytes|;
    CoversInside(ps[1..], off + n, data[n..]);
    if a < off + n {
      i := 0;
      assert ps[0].bytes[a - off] == data[..n][a - off];
    } else {
      var k := CoveredOnce(ps[1..], off + n, data[n..], a);
      i := k + 1;
      forall j | 0 <= j < |ps| && Holds(ps[j], a) ensures j == i {
        assert j > 0 && ps[j] == ps[1..][j - 1];
      }
    }
  }

  // ---------------------------------------------------------------- block write

  /** alt_epcs_test_address: only the first address is tested. */
  predicate Inside(offset: int, size: nat) {
    0 <= offset < size
  }

  /** What a block write has done after `data`, from chip c0 to chip c. */
  ghost predicate Wrote(c0: Chip, c: Chip, off: nat, data: seq<bv8>) {
    && Ready(c) && Spliced(And, c0.mem, c.mem, off, data)
    && |c.programs| >= |c0.programs| && c.programs[..|c0.programs|] == c0.programs
    && Covers(c.programs[|c0.programs|..], off, data)
  }

  lemma WroteOne(c0: Chip, c: Chip, off: nat, data: seq<bv8>, more: seq<bv8>)
    requires Wrote(c0, c, off, data) && more != [] && off + |data| + |more| <= |c0.mem|
    requires (off + |data|) % PAGE + |more| <= PAGE
    ensures Wrote(c0, Programmed(c, off + |data|, more), off, data + more)
  {
    var at := off + |data|;
    var k := |c0.programs|;
    var c1 := Programmed(c, at, more);
    ProgramSplices(And, c.mem, at / PAGE * PAGE, at % PAGE, more);
    assert at / PAGE * PAGE + at % PAGE == at;
    SpliceOn(And, c0.mem, c.mem, c1.mem, off, data, more);
    CoversMore(c.programs[k..], off, data, Program(at, more));
    assert c1.programs[k..] == c.programs[k..] + [Program(at, more)];
    assert c1.programs[..k] == c.programs[..k];
  }

  /** The next page start, as computed with the mask ~(page_size - 1). */
  function NextPage(offset: nat): nat {
    (offset + PAGE) / PAGE * PAGE
  }

  lemma NextPageStarts(offset: nat)
    ensures NextPage(offset) == offset + (PAGE - offset % PAGE) && NextPage(offset) % PAGE == 0
  {}

  /** One turn of the loop: the rest of the page, or of the data. */
  method WriteChunk(spi: Controller, ghost c0: Chip, ghost offset: nat, data: seq<bv8>, done: nat, at: nat)
    returns (now: nat)
    requires done < |data| && at == offset + done && offset + |data| <= |c0.mem| <= 0x100_0000
    requires spi.Valid() && Wrote(c0, spi.Flash(), offset, data[..done])
    modifies spi
    ensures now == if |data| - done >= NextPage(at) - at then NextPage(at) - at else |data| - done
    ensures 0 < now <= |data| - done
    ensures spi.Valid() && spi.overrun == old(spi.overrun) && Wrote(c0, spi.Flash(), offset, data[..done + now])
  {
    NextPageStarts(at);
    now := if |data| - done >= NextPage(at) - at then NextPage(at) - at else |data| - done;
    WroteOne(c0, spi.Flash(), offset, data[..done], data[done..done + now]);
    assert data[..done + now] == data[..done] + data[done..done + now];
    WriteBuffer(spi, at, data[done..done + now]);
  }

  lemma WroteNothing(c: Chip, offset: nat)
    requires Ready(c) && offset < |c.mem|
    ensures Wrote(c, c, offset, [])
  {
    assert c.programs[..|c.programs|] == c.programs && c.programs[|c.programs|..] == [];
  }

  /** alt_epcs_flash_write_block: every byte is programmed once, page by page, and the
      rest of the flash stays. */
  method WriteBlock(spi: Controller, size: nat, offset: int, data: seq<bv8>) returns (ret: int)
    requires spi.Valid() && Ready(spi.Flash()) && size == |spi.Flash().mem| <= 0x100_0000
    requires Inside(offset, size) ==> offset + |data| <= size
    modifies spi
    ensures spi.Valid() && spi.overrun == old(spi.overrun)
    ensures Inside(offset, size) ==> ret == 0 && Wrote(old(spi.Flash()), spi.Flash(), offset, data)
    ensures !Inside(offset, size) ==> ret == -1 && spi.Flash() == old(spi.Flash())
  {
    if !Inside(offset, size) {
      return -1;
    }
    ghost var c0 := spi.Flash();
    ret := 0;
    var at: nat, done: nat, left: nat := offset, 0, |data|;
    WroteNothing(c0, offset);
    while left != 0
      invariant done + left == |data|
      invariant left > 0 ==> at == offset + done
      invariant spi.Valid() && spi.overrun == old(spi.overrun)
      invariant Wrote(c0, spi.Flash(), offset, data[..done])
      decreases left
    {
      var now := WriteChunk(spi, c0, offset, data, done, at);
      left, done, at := left - now, done + now, NextPage(at);
    }
    assert data[..done] == data;
  }

  // ---------------------------------------------------------------- configuration update

  lemma AndOnes(b: bv8)
    ensures And(0xFF, b) == b
  {}

  lemma ErasedTakesData(before: seq<bv8>, after: seq<bv8>, off: nat, data: seq<bv8>)
    requires Spliced(And, before, after, off, data)
    requires forall a :: off <= a < off + |data| ==> before[a] == 0xFF
    ensures after[off..off + |data|] == data
  {
    forall i | 0 <= i < |data| ensures after[off + i] == data[i] {
      AndOnes(data[i]);
    }
  }

  /** Main result: after an erase of the whole chip, a block write leaves exactly the data
      in its place. */
  method EraseAndWrite(spi: Controller, size: nat, offset: nat, data: seq<bv8>) returns (ret: int)
    requires spi.Valid() && Ready(spi.Flash()) && size == |spi.Flash().mem| <= 0x100_0000
    requires offset < size && offset + |data| <= size
    modifies spi
    ensures spi.Valid() && spi.overrun == old(spi.overrun) && ret == 0
    ensures spi.Flash().mem == Erased(size)[..offset] + data + Erased(size)[offset + |data|..]
  {
    BulkErase(spi);
    ghost var blank := spi.Flash().mem;
    ret := WriteBlock(spi, size, offset, data);
    ErasedTakesData(blank, spi.Flash().mem, offset, data);
    ghost var mem := spi.Flash().mem;
    assert mem == mem[..offset] + mem[offset..offset + |data|] + mem[offset + |data|..];
  }

  const JIC_INVALID_BYTES: nat := 173

  function Reverse8(c: bv8): bv8 {
    var c1 := ((c & 0x55) << 1) | ((c & 0xAA) >> 1);
    var c2 := ((c1 & 0x33) << 2) | ((c1 & 0xCC) >> 2);
    ((c2 & 0x0F) << 4) | ((c2 & 0xF0) >> 4)
  }

  /** reverse8 exchanges bit i with bit 7 - i, so twice is not at all. */
  lemma ReverseIsInvolution(c: bv8)
    ensures Reverse8(Reverse8(c)) == c
    ensures (Reverse8(c) & 0x80 != 0 <==> c & 0x01 != 0) && (Reverse8(c) & 0x40 != 0 <==> c & 0x02 != 0)
    ensures (Reverse8(c) & 0x20 != 0 <==> c & 0x04 != 0) && (Reverse8(c) & 0x10 != 0 <==> c & 0x08 != 0)
  {}

  /** The first n bytes of what fpga_burn programs: the image from byte 173 on, reversed as
      far as the reversing loop goes. The last 173 bytes of the chip get what lies behind
      that in memory, as it is. */
  predicate Image(mem: seq<bv8>, n: nat, size: nat, ram: seq<bv8>) {
    && n <= |mem| && n + JIC_INVALID_BYTES <= |ram|
    && forall a :: 0 <= a < n ==>
         mem[a] == if a + JIC_INVALID_BYTES < size then Reverse8(ram[a + JIC_INVALID_BYTES])
                   else ram[a + JIC_INVALID_BYTES]
  }

  /** How many bytes fpga_burn can program when `readable` bytes follow its argument: whole
      pages, until a page reads further than that. */
  function Burnable(size: nat, readable: nat): (n: nat)
    ensures n <= size && (n == size <==> readable >= size + JIC_INVALID_BYTES || size == 0)
    ensures n == size || n + JIC_INVALID_BYTES <= readable || n == 0
  {
    if readable >= size + JIC_INVALID_BYTES then size
    else if readable < JIC_INVALID_BYTES then 0
    else (readable - JIC_INVALID_BYTES) - (readable - JIC_INVALID_BYTES) % PAGE
  }

  /** Address a of the chip gets byte a + 173 of the image, reversed. */
  lemma ImageFromByte173(mem: seq<bv8>, n: nat, size: nat, ram: seq<bv8>, a: nat)
    requires Image(mem, n, size, ram) && a < n && a + 173 < size <= |ram|
    ensures mem[a] == Reverse8(ram[a + 173])
  {}

  /** The reversing loop. */
  method ReverseAll(ram: array<bv8>, size: nat)
    requires size <= ram.Length
    modifies ram
    ensures forall k :: 0 <= k < size ==> ram[k] == Reverse8(old(ram[k]))
    ensures forall k :: size <= k < ram.Length ==> ram[k] == old(ram[k])
  {
    var i := 0;
    while i < size
      invariant 0 <= i <= size
      invariant forall k :: 0 <= k < i ==> ram[k] == Reverse8(old(ram[k]))
      invariant forall k :: i <= k < ram.Length ==> ram[k] == old(ram[k])
    {
      ram[i] := Reverse8(ram[i]);
      i := i + 1;
    }
  }

  /** fpga_burn, with the size of the chip for EPCS64_BLOCK_SIZE. `behind` is what can be
      read behind the memory mapped for the image. If that does not reach far enough the
      program dies in the middle, and the chip has been erased. */
  method Burn(spi: Controller, size: nat, ram: array<bv8>, behind: seq<bv8>) returns (died: bool)
    requires spi.Valid() && Ready(spi.Flash()) && size == |spi.Flash().mem| <= 0x100_0000
    requires size <= ram.Length
    modifies spi, ram
    ensures spi.Valid() && spi.overrun == old(spi.overrun) && |spi.Flash().mem| == size
    ensures died <==> ram.Length + |behind| < size + JIC_INVALID_BYTES
    ensures var n := Burnable(size, ram.Length + |behind|);
            && (n > 0 ==> Image(spi.Flash().mem, n, size, old(ram[..]) + behind))
            && forall a :: n <= a < size ==> spi.Flash().mem[a] == 0xFF
  {
    ReverseAll(ram, size);
    var memory := ram[..] + behind;
    var n := Burnable(size, |memory|);
    died := n < size;
    if n == 0 {
      BulkErase(spi);
      return;
    }
    var data := memory[JIC_INVALID_BYTES..JIC_INVALID_BYTES + n];
    var ret := EraseAndWrite(spi, size, 0, data);
    ghost var mem := spi.Flash().mem;
    forall a | 0 <= a < n
      ensures mem[a] == memory[a + JIC_INVALID_BYTES]
    {
      assert mem[a] == data[a];
    }
  }

  /** Which bytes of the chip are read from outside a mapping of exactly its size, as
      net/net_protocol.c:827 makes it: the last 173. */
  lemma ReadsOutsideExactly(size: nat, a: nat)
    requires a < size
    ensures size <= a + JIC_INVALID_BYTES <==> size - JIC_INVALID_BYTES <= a
    ensures Burnable(size, size) == size <==> size == 0
  {}

  /** The whole image, reversed. */
  predicate Reversed(mem: seq<bv8>, ram: seq<bv8>) {
    && |mem| + JIC_INVALID_BYTES <= |ram|
    && forall a :: 0 <= a < |mem| ==> mem[a] == Reverse8(ram[a + JIC_INVALID_BYTES])
  }

  /** Main result: exactly when the chip has the whole image reversed: every byte that is
      read from behind the reversed block is its own reverse. */
  lemma BurntRightExactly(mem: seq<bv8>, ram: seq<bv8>)
    requires Image(mem, |mem|, |mem|, ram)
    ensures Reversed(mem, ram) <==>
              forall k :: |mem| <= k && JIC_INVALID_BYTES <= k < |mem| + JIC_INVALID_BYTES ==>
                Reverse8(ram[k]) == ram[k]
  {
    if Reversed(mem, ram) {
      forall k | |mem| <= k && JIC_INVALID_BYTES <= k < |mem| + JIC_INVALID_BYTES ensures Reverse8(ram[k]) == ram[k] {
        assert mem[k - JIC_INVALID_BYTES] == ram[k];
      }
    }
  }
}
