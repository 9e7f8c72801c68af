/** One SPI transaction with the serial flash (tool/epcs.c:10-120): the credit loop against
    a controller that is ready whenever it likes, and the flash chip behind it. */
module Spi {
  import opened ByteNumbers

  // ---------------------------------------------------------------- the flash chip

  const WREN: bv8 := 0x06
  const RDSR: bv8 := 0x05
  const PP: bv8 := 0x02
  const BE: bv8 := 0xC7
  const PAGE: nat := 256

  datatype Program = Program(addr: nat, bytes: seq<bv8>)

  /** A NOR flash. `wip`: how many more status reads will show the chip busy; `selected`:
      chip select is forced active; `frame`: the bytes since it was. `pace` says how long
      the next operations take, and is arbitrary. `programs` is history. */
  datatype Chip = Chip(
    mem: seq<bv8>, writable: bool, wip: nat,
    selected: bool, frame: seq<bv8>,
    pace: nat -> nat, ops: nat, programs: seq<Program>)

  function Erased(n: nat): (mem: seq<bv8>)
    ensures |mem| == n && forall i :: 0 <= i < n ==> mem[i] == 0xFF
  {
    if n == 0 then [] else Erased(n - 1) + [0xFF]
  }

  /** Programming can only clear bits. */
  function And(x: bv8, y: bv8): bv8 {
    x & y
  }

  /** Programming with `op`, wrapping around at the end of the page. */
  function ProgramPage<T>(op: (T, T) -> T, mem: seq<T>, page: nat, at: nat, data: seq<T>): (r: seq<T>)
    requires at < PAGE && page + PAGE <= |mem|
    ensures |r| == |mem|
    decreases |data|
  {
    if data == [] then mem
    else ProgramPage(op, mem[page + at := op(mem[page + at], data[0])], page, (at + 1) % PAGE, data[1..])
  }

  function Address(frame: seq<bv8>): nat
    requires |frame| >= 4
  {
    NumberOf(frame[1]) * 65536 + NumberOf(frame[2]) * 256 + NumberOf(frame[3])
  }

  predicate Whole(c: Chip) {
    |c.mem| > 0 && |c.mem| % PAGE == 0
  }

  function ProgramFrame(c: Chip, addr: nat, data: seq<bv8>): Chip
    requires Whole(c) && addr < |c.mem|
  {
    c.(mem := ProgramPage(And, c.mem, addr / PAGE * PAGE, addr % PAGE, data),
       writable := false, wip := c.pace(c.ops), ops := c.ops + 1, programs := c.programs + [Program(addr, data)])
  }

  /** The effect of a whole frame. A busy chip only answers status reads. */
  function Execute(c: Chip, f: seq<bv8>): Chip
    requires Whole(c)
  {
    if f == [] || f[0] == RDSR || c.wip > 0 then c
    else if f == [WREN] then c.(writable := true)
    else if f == [BE] && c.writable then
      c.(mem := Erased(|c.mem|), writable := false, wip := c.pace(c.ops), ops := c.ops + 1)
    else if f[0] == PP && |f| > 4 && c.writable && Address(f) < |c.mem| then ProgramFrame(c, Address(f), f[4..])
    else c
  }

  /** A byte reaches the chip: part of a frame if chip select is forced, else a frame of
      its own. */
  function ByteIn(c: Chip, b: bv8): Chip
    requires Whole(c)
  {
    if !c.selected then Execute(c, [b])
    else if c.frame != [] && c.frame[0] == RDSR then
      c.(frame := c.frame + [b], wip := if c.wip > 0 then c.wip - 1 else 0)
    else c.(frame := c.frame + [b])
  }

  /** The byte the chip shifts out meanwhile: its status after RDSR. */
  function Answer(c: Chip): bv8 {
    if c.selected && c.frame != [] && c.frame[0] == RDSR && c.wip > 0 then 0x01 else 0x00
  }

  function Select(c: Chip): Chip {
    c.(selected := true)
  }

  function Deselect(c: Chip): Chip
    requires Whole(c)
  {
    Execute(c.(selected := false, frame := []), c.frame)
  }

  lemma StaysWhole(c: Chip, b: bv8)
    requires Whole(c)
    ensures Whole(ByteIn(c, b)) && Whole(Deselect(c))
  {}

  function Feed(c: Chip, bytes: seq<bv8>): (r: Chip)
    requires Whole(c)
    ensures Whole(r)
  {
    if bytes == [] then c
    else
      StaysWhole(Feed(c, bytes[..|bytes| - 1]), bytes[|bytes| - 1]);
      ByteIn(Feed(c, bytes[..|bytes| - 1]), bytes[|bytes| - 1])
  }

  /** What the chip shifts out after `bytes` have gone in. */
  function Reply(c: Chip, bytes: seq<bv8>): bv8 {
    if Whole(c) then Answer(Feed(c, bytes)) else 0
  }

  lemma {:induction false} FeedTwice(c: Chip, a: seq<bv8>, b: seq<bv8>)
    requires Whole(c)
    ensures Feed(c, a + b) == Feed(Feed(c, a), b)
  {
    if b == [] {
      assert a + b == a;
    } else {
      assert (a + b)[..|a + b| - 1] == a + b[..|b| - 1];
      FeedTwice(c, a, b[..|b| - 1]);
    }
  }

  // ---------------------------------------------------------------- the controller

  function Zeros(n: nat): (z: seq<bv8>)
    ensures |z| == n && forall i :: 0 <= i < n ==> z[i] == 0
  {
    if n == 0 then [] else Zeros(n - 1) + [0]
  }

  /** The Avalon SPI registers, and the chip as the bytes `tx` written since it was in
      state `base` have left it; `reply` is how it answers them. A byte written to TXDATA
      is `waiting` until its answer has been read from RXDATA; a second one written before
      that sets `overrun`. The status bits come up after any finite number of status
      reads. */
  class Controller {
    var base: Chip
    var tx: seq<bv8>
    var reply: seq<bv8> -> bv8
    var waiting: bool
    var overrun: bool
    var txIn: nat
    var rxIn: nat
    var tmtIn: nat
    var clock: nat
    const pace: nat -> nat

    constructor (chip: Chip, pace: nat -> nat)
      requires Whole(chip)
      ensures Valid() && Flash() == chip && !waiting && !overrun && this.pace == pace
    {
      base, tx, this.pace := chip, [], pace;
      reply := (sent: seq<bv8>) => Reply(chip, sent);
      waiting, overrun := false, false;
      txIn, rxIn, tmtIn, clock := 0, 0, 0, 0;
    }

    ghost predicate Valid() reads this {
      Whole(base) && !waiting && forall sent: seq<bv8> :: reply(sent) == Reply(base, sent)
    }

    ghost function Flash(): (c: Chip)
      requires Valid()
      reads this
      ensures Whole(c)
    {
      Feed(base, tx)
    }

    method Status() returns (trdy: bool, rrdy: bool, tmt: bool)
      modifies `txIn, `rxIn, `tmtIn
      ensures trdy == (old(txIn) == 0) && rrdy == (waiting && old(rxIn) == 0) && tmt == (old(tmtIn) == 0)
      ensures txIn == if old(txIn) > 0 then old(txIn) - 1 else 0
      ensures rxIn == if old(rxIn) > 0 then old(rxIn) - 1 else 0
      ensures tmtIn == if old(tmtIn) > 0 then old(tmtIn) - 1 else 0
    {
      trdy, rrdy, tmt := txIn == 0, waiting && rxIn == 0, tmtIn == 0;
      txIn := if txIn > 0 then txIn - 1 else 0;
      rxIn := if rxIn > 0 then rxIn - 1 else 0;
      tmtIn := if tmtIn > 0 then tmtIn - 1 else 0;
    }

    method WriteTx(b: bv8)
      modifies `tx, `waiting, `overrun, `txIn, `rxIn, `tmtIn, `clock
      ensures tx == old(tx) + [b] && waiting && overrun == (old(overrun) || old(waiting))
    {
      overrun := overrun || waiting;
      tx, waiting := tx + [b], true;
      txIn, rxIn, tmtIn, clock := pace(clock), pace(clock + 1), pace(clock + 2), clock + 3;
    }

    /** With nothing outstanding, RXDATA is stale. */
    method ReadRx() returns (b: bv8)
      modifies `waiting
      ensures !waiting && (old(waiting) && tx != [] ==> b == reply(tx[..|tx| - 1]))
    {
      b := if waiting && tx != [] then reply(tx[..|tx| - 1]) else 0;
      waiting := false;
    }

    method Control(sso: bool)
      requires Valid()
      modifies `base, `tx, `reply
      ensures Valid() && Flash() == if sso then Select(old(Flash())) else Deselect(old(Flash()))
      ensures tx == []
    {
      var chip := Feed(base, tx);
      StaysWhole(chip, 0);
      base := if sso then Select(chip) else Deselect(chip);
      tx := [];
      var now := base;
      reply := (sent: seq<bv8>) => Reply(now, sent);
    }
  }

  /** What a transaction does to the chip: chip select is forced at the start with one
      flag and given up at the end with the other. */
  function Transaction(c: Chip, bytes: seq<bv8>, toggle: bool, merge: bool): Chip
    requires Whole(c)
  {
    var c1 := Feed(if toggle then Select(c) else c, bytes);
    if merge then Deselect(c1) else c1
  }

  // ---------------------------------------------------------------- the credit loop

  /** The variables of the loop: credits, bytes and zeros still to be written, answers
      still to be ignored and to be stored. */
  datatype Turn = Turn(credits: int, bytes: nat, zeros: nat, ignore: nat, store: nat, done: bool)

  /** One turn of the loop, after a status with these two bits has ended the polling. */
  function Step(l: Turn, trdy: bool, rrdy: bool): Turn {
    var l1 :=
      if trdy && l.credits > 0 then
        if l.bytes > 0 then l.(credits := l.credits - 1, bytes := l.bytes - 1)
        else if l.zeros > 0 then l.(credits := l.credits - 1, zeros := l.zeros - 1)
        else l.(credits := -1024)
      else l;
    if !rrdy then l1
    else if l1.ignore > 0 then
      l1.(credits := l1.credits + 1, ignore := l1.ignore - 1, done := l1.ignore == 1 && l1.store == 0)
    else
      l1.(credits := l1.credits + 1, store := if l1.store > 0 then l1.store - 1 else 0, done := l1.store == 1)
  }

  /** Polling ends: with no answer outstanding the transmitter becomes ready, otherwise
      the answer arrives. */
  method Poll(spi: Controller, credits: int) returns (trdy: bool, rrdy: bool)
    requires credits <= 0 ==> spi.waiting
    modifies spi`txIn, spi`rxIn, spi`tmtIn
    ensures (trdy && credits != 0) || rrdy
    ensures rrdy ==> spi.waiting
  {
    var tmt;
    trdy, rrdy, tmt := spi.Status();
    while (!trdy || credits == 0) && !rrdy
      invariant rrdy ==> spi.waiting
      decreases if spi.waiting then (if rrdy then 0 else spi.rxIn + 1) else if trdy then 0 else spi.txIn + 1
    {
      trdy, rrdy, tmt := spi.Status();
    }
  }

  method AwaitTransmitted(spi: Controller)
    modifies spi`txIn, spi`rxIn, spi`tmtIn
  {
    var trdy, rrdy, tmt := spi.Status();
    while !tmt
      decreases spi.tmtIn, !tmt
    {
      trdy, rrdy, tmt := spi.Status();
    }
  }

  /** The loop of alt_avalon_spi_command. */
  method Exchange(spi: Controller, writeData: seq<bv8>, readLength: nat, ghost whole: seq<bv8>)
      returns (readData: seq<bv8>)
    requires !spi.waiting && |writeData| + readLength > 0
    requires whole == spi.tx + writeData + Zeros(readLength)
    modifies spi`tx, spi`waiting, spi`overrun, spi`txIn, spi`rxIn, spi`tmtIn, spi`clock
    ensures spi.tx == whole && !spi.waiting && spi.overrun == old(spi.overrun)
    ensures |readData| == readLength
    ensures forall i :: 0 <= i < readLength ==>
              readData[i] == spi.reply(whole[..|old(spi.tx)| + |writeData| + i])
  {
    var at, zeros, ignore, credits := 0, readLength, |writeData|, 1;
    readData := [];
    ghost var n := |spi.tx|;
    ghost var turn := Turn(1, |writeData|, readLength, |writeData|, readLength, false);
    var done := false;
    while !done
      invariant 0 <= at <= |writeData| && 0 <= zeros <= readLength && 0 <= ignore <= |writeData|
      invariant |readData| <= readLength
      invariant turn == Turn(credits, |writeData| - at, zeros, ignore, readLength - |readData|, done)
      invariant spi.tx == whole[..n + at + (readLength - zeros)]
      invariant at < |writeData| ==> zeros == readLength
      invariant ignore > 0 ==> readData == []
      invariant credits == if spi.waiting then 0 else 1
      invariant at + (readLength - zeros) == (|writeData| - ignore) + |readData| + (if spi.waiting then 1 else 0)
      invariant done <==> ignore == 0 && |readData| == readLength
      invariant forall i :: 0 <= i < |readData| ==> readData[i] == spi.reply(whole[..n + |writeData| + i])
      invariant spi.overrun == old(spi.overrun)
      decreases ignore + (readLength - |readData|), (|writeData| - at) + zeros
    {
      var trdy, rrdy := Poll(spi, credits);
      if trdy && credits > 0 {
        credits := credits - 1;
        if at < |writeData| {
          spi.WriteTx(writeData[at]);
          at := at + 1;
        } else if zeros > 0 {
          zeros := zeros - 1;
          spi.WriteTx(0);
        } else {
          credits := -1024;
        }
      }
      if rrdy {
        assert spi.tx[..|spi.tx| - 1] == whole[..|spi.tx| - 1];
        var rxData := spi.ReadRx();
        if ignore > 0 {
          ignore := ignore - 1;
        } else {
          readData := readData + [rxData];
        }
        credits := credits + 1;
        done := ignore == 0 && |readData| == readLength;
      }
      turn := Step(turn, trdy, rrdy);
    }
  }

  /** The answers to a transaction of `bytes`, after the first w. */
  predicate Answers(readData: seq<bv8>, start: Chip, bytes: seq<bv8>, w: nat)
    requires w <= |bytes|
  {
    |readData| == |bytes| - w && forall i :: 0 <= i < |readData| ==> readData[i] == Reply(start, bytes[..w + i])
  }

  lemma AnswersShift(base: Chip, before: seq<bv8>, all: seq<bv8>, whole: seq<bv8>, readData: seq<bv8>, w: nat)
    requires Whole(base) && w <= |all| && |readData| == |all| - w && whole == before + all
    requires forall i :: 0 <= i < |readData| ==> readData[i] == Reply(base, whole[..|before| + w + i])
    ensures Answers(readData, Feed(base, before), all, w) && Feed(base, whole) == Feed(Feed(base, before), all)
  {
    FeedTwice(base, before, all);
    forall i | 0 <= i < |readData| ensures readData[i] == Reply(Feed(base, before), all[..w + i]) {
      FeedTwice(base, before, all[..w + i]);
      assert whole[..|before| + w + i] == before + all[..w + i];
    }
  }

  /** The transaction between the two chip select writes. */
  method Transfer(spi: Controller, writeData: seq<bv8>, readLength: nat) returns (readData: seq<bv8>)
    requires spi.Valid() && |writeData| + readLength > 0
    modifies spi
    ensures spi.Valid() && spi.overrun == old(spi.overrun)
    ensures spi.Flash() == Feed(old(spi.Flash()), writeData + Zeros(readLength))
    ensures Answers(readData, old(spi.Flash()), writeData + Zeros(readLength), |writeData|)
  {
    ghost var all, before, base := writeData + Zeros(readLength), spi.tx, spi.base;
    ghost var whole := before + writeData + Zeros(readLength);
    assert whole == before + all;
    var stale := spi.ReadRx();
    readData := Exchange(spi, writeData, readLength, whole);
    AwaitTransmitted(spi);
    AnswersShift(base, before, all, whole, readData, |writeData|);
  }

  /** alt_avalon_spi_command: exactly the given bytes and then zeros go out, one
      outstanding at a time, and exactly the answers after the first |writeData| ones are
      stored. */
  method Command(spi: Controller, writeData: seq<bv8>, readLength: nat, toggle: bool, merge: bool)
      returns (readData: seq<bv8>)
    requires spi.Valid() && |writeData| + readLength > 0
    modifies spi
    ensures spi.Valid() && spi.overrun == old(spi.overrun)
    ensures spi.Flash() == Transaction(old(spi.Flash()), writeData + Zeros(readLength), toggle, merge)
    ensures Answers(readData, if toggle then Select(old(spi.Flash())) else old(spi.Flash()),
                    writeData + Zeros(readLength), |writeData|)
  {
    if toggle {
      spi.Control(true);
    }
    readData := Transfer(spi, writeData, readLength);
    if merge {
      spi.Control(false);
    }
  }

  // ---------------------------------------------------------------- zero bytes

  function Steps(l: Turn, ready: seq<bool>): Turn
    decreases |ready|
  {
    if ready == [] then l else Steps(Step(l, ready[0], false), ready[1..])
  }

  /** A transaction of no bytes at all never ends: nothing is ever received, and the
      first ready transmitter takes the credits to -1024. */
  lemma {:induction false} NoBytesNeverEnd(l: Turn, ready: seq<bool>)
    requires l.credits == 1 || l.credits == -1024
    requires l.bytes == 0 && l.zeros == 0 && l.ignore == 0 && l.store == 0 && !l.done
    ensures !Steps(l, ready).done
    ensures Steps(l, ready).credits == if true in ready then -1024 else l.credits
    decreases |ready|
  {
    if ready != [] {
      NoBytesNeverEnd(Step(l, ready[0], false), ready[1..]);
      assert true in ready <==> ready[0] || true in ready[1..];
    }
  }
}
