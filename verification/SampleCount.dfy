/** Numbering the samples (image/sample_count.c, image/video_context.c:76-80 and
    326-364, fpga/fpga.c:93-107). Two actors share two counters and a ring of 16
    slots: the overclock interrupt records a trigger number for which there is no
    image, and the capture task gives a number to an image, skipping recorded ones. */
module SampleCount {

  const MAX_COUNT_ARRAY: nat := 16
  const U32: nat := 0x1_0000_0000

  type u32 = x: nat | x < U32

  datatype Slot = Slot(valid: bool, count: u32)

  datatype Counter = Counter(slots: seq<Slot>, index: nat, shoot: u32, sum: u32)

  datatype Outcome = Numbered(n: u32) | Discarded | Unnumbered

  function Blank(n: nat): (s: seq<Slot>)
    ensures |s| == n && forall i :: 0 <= i < n ==> s[i] == Slot(false, 0)
  {
    if n == 0 then [] else Blank(n - 1) + [Slot(false, 0)]
  }

  const INIT := Counter(Blank(MAX_COUNT_ARRAY), 0, 0, 0)

  function Inc(n: u32): u32 {
    (n + 1) % U32
  }

  predicate Hit(s: Slot, count: u32) {
    s.valid && s.count == count
  }

  /** The first slot from i on that holds `count`, or the number of slots. */
  function Find(slots: seq<Slot>, count: u32, i: nat): (r: nat)
    requires i <= |slots|
    ensures i <= r <= |slots|
    ensures r < |slots| ==> Hit(slots[r], count)
    ensures forall k :: i <= k < r ==> !Hit(slots[k], count)
    decreases |slots| - i
  {
    if i == |slots| || Hit(slots[i], count) then i else Find(slots, count, i + 1)
  }

  /** find_current_count: clears the slot it finds. */
  function Forget(slots: seq<Slot>, count: u32): seq<Slot> {
    var i := Find(slots, count, 0);
    if i == |slots| then slots else slots[i := Slot(false, slots[i].count)]
  }

  predicate Recorded(slots: seq<Slot>, count: u32) {
    Find(slots, count, 0) < |slots|
  }

  /** write_sample_count. */
  function Write(c: Counter, count: u32): Counter
    requires c.index < |c.slots|
  {
    c.(slots := c.slots[c.index := Slot(true, count)],
       index := if c.index + 1 >= MAX_COUNT_ARRAY then 0 else c.index + 1)
  }

  /** The overclock arm of sig_handler: read the trigger count and record it. */
  function Overclock(c: Counter, reading: u32): Counter
    requires c.index < |c.slots|
  {
    Write(c.(sum := reading), reading)
  }

  /** The capture task numbers an image. `reading` is the trigger count, read in the
      first branch only. */
  function Capture(c: Counter, reading: u32): (Counter, Outcome) {
    if c.shoot == c.sum then
      if reading == 0 then (c.(shoot := 0, sum := 0), Discarded)
      else (c.(shoot := Inc(c.shoot), sum := reading), Numbered(Inc(c.shoot)))
    else if c.shoot < c.sum then
      var next := Inc(c.shoot);
      if !Recorded(c.slots, next) then (c.(shoot := c.sum), Numbered(next))
      else (c.(slots := Forget(c.slots, next), shoot := Inc(c.sum), sum := Inc(c.sum)), Numbered(Inc(c.sum)))
    else (c, Unnumbered)
  }

  function Reset(c: Counter): Counter {
    c.(shoot := 0, sum := 0)
  }

  // ---------------------------------------------------------------- the code, in place

  class SampleCounter {
    const countArray: array<Slot>
    var index: nat
    var shoot: u32
    var sum: u32

    ghost predicate Valid() reads this {
      countArray.Length == MAX_COUNT_ARRAY && index < MAX_COUNT_ARRAY
    }

    ghost function Model(): Counter reads this, countArray {
      Counter(countArray[..], index, shoot, sum)
    }

    /** sample_count_init. */
    constructor ()
      ensures Valid() && fresh(countArray) && Model() == INIT
    {
      countArray := new Slot[MAX_COUNT_ARRAY](_ => Slot(false, 0));
      index, shoot, sum := 0, 0, 0;
    }

    method FindCurrentCount(count: u32) returns (ret: int)
      requires Valid()
      modifies countArray
      ensures Valid() && ret == (if old(Recorded(countArray[..], count)) then 0 else -1)
      ensures countArray[..] == old(Forget(countArray[..], count))
    {
      ghost var before := countArray[..];
      var i := 0;
      while i < MAX_COUNT_ARRAY
        invariant 0 <= i <= MAX_COUNT_ARRAY && countArray[..] == before
        invariant Find(before, count, 0) == Find(before, count, i)
      {
        if countArray[i].valid {
          if countArray[i].count == count {
            countArray[i] := Slot(false, countArray[i].count);
            assert countArray[..] == before[i := Slot(false, before[i].count)];
            return 0;
          }
        }
        i := i + 1;
      }
      return -1;
    }

    method WriteSampleCount(count: u32)
      requires Valid()
      modifies this`index, countArray
      ensures Valid() && Model() == Write(old(Model()), count)
    {
      countArray[index] := Slot(true, count);
      assert countArray[..] == old(countArray[..])[index := Slot(true, count)];
      index := index + 1;
      if index >= MAX_COUNT_ARRAY {
        index := 0;
      }
    }

    method RecordOverclock(reading: u32)
      requires Valid()
      modifies this, countArray
      ensures Valid() && Model() == Overclock(old(Model()), reading)
    {
      sum := reading;
      WriteSampleCount(sum);
    }

    /** The branch chain of image_capture_tsk. */
    method NumberImage(reading: u32) returns (outcome: Outcome)
      requires Valid()
      modifies this, countArray
      ensures Valid() && (Model(), outcome) == Capture(old(Model()), reading)
    {
      if shoot == sum {
        shoot := Inc(shoot);
        outcome := Numbered(shoot);
        sum := reading;
        if sum == 0 {
          shoot := 0;
          outcome := Discarded;
        }
      } else if shoot < sum {
        var missed := FindCurrentCount(Inc(shoot));
        if missed != 0 {
          outcome := Numbered(Inc(shoot));
          shoot := sum;
        } else {
          shoot := Inc(sum);
          outcome := Numbered(shoot);
          sum := shoot;
        }
      } else {
        outcome := Unnumbered;
      }
    }

    method SampleCountReset()
      requires Valid()
      modifies this
      ensures Valid() && Model() == Reset(old(Model()))
    {
      shoot := 0;
      sum := 0;
    }
  }

  // ---------------------------------------------------------------- runs

  datatype Event = EvOverclock(reading: u32) | EvCapture(reading: u32) | EvReset

  /** A counter with its history since the last reset. A capture that reads 0 resets,
      too. `rec`: the overclock numbers recorded, in order; `given`: the numbers given
      to images, each with how many overclock numbers had been recorded by then;
      `last`: the latest reading; `base`: how many were recorded before the reset. */
  datatype History = History(c: Counter, rec: seq<u32>, given: seq<(u32, nat)>, last: u32, base: nat)

  const START := History(INIT, [], [], 0, 0)

  predicate Sized(h: History) {
    |h.c.slots| == MAX_COUNT_ARRAY && h.c.index < MAX_COUNT_ARRAY
  }

  function Step(h: History, e: Event): (h': History)
    requires Sized(h)
    ensures Sized(h')
  {
    match e
    case EvOverclock(r) => h.(c := Overclock(h.c, r), rec := h.rec + [r], last := r)
    case EvReset => History(Reset(h.c), [], [], 0, h.base + |h.rec|)
    case EvCapture(r) =>
      var (c', o) := Capture(h.c, r);
      match o
      case Numbered(n) =>
        h.(c := c', given := h.given + [(n, |h.rec|)], last := if h.c.shoot == h.c.sum then r else h.last)
      case Discarded => History(c', [], [], 0, h.base + |h.rec|)
      case Unnumbered => h.(c := c')
  }

  /** A reset, or an image thrown away because the trigger count reads 0. */
  predicate Resets(h: History, e: Event) {
    e.EvReset? || (e.EvCapture? && Capture(h.c, e.reading).1 == Discarded)
  }

  /** Neither counter is about to wrap when an image is numbered. */
  predicate NoWrap(h: History, e: Event) {
    e.EvCapture? ==> h.c.shoot < U32 - 1 && h.c.sum < U32 - 1
  }

  ghost predicate Increasing(h: History) {
    && Sized(h)
    && (forall i, j :: 0 <= i < j < |h.given| ==> h.given[i].0 < h.given[j].0)
    && (forall i :: 0 <= i < |h.given| ==> h.given[i].0 <= h.c.shoot)
  }

  /** For arbitrary readings, and overclock interrupts anywhere: numbers given to
      images strictly increase between resets, sample_count_shoot never decreases, and
      the error branch changes nothing and gives no number. */
  lemma StepIncreasing(h: History, e: Event)
    requires Increasing(h) && NoWrap(h, e)
    ensures Increasing(Step(h, e))
    ensures !Resets(h, e) ==> Step(h, e).c.shoot >= h.c.shoot
    ensures e.EvCapture? && Capture(h.c, e.reading).1.Numbered? ==>
              h.c.shoot < Capture(h.c, e.reading).1.n <= Step(h, e).c.shoot
    ensures e.EvCapture? && h.c.shoot > h.c.sum ==> Step(h, e) == h
  {}

  ghost predicate Run(h: History, es: seq<Event>, t: History)
    decreases |es|
  {
    if es == [] then h == t
    else Sized(h) && NoWrap(h, es[0]) && Run(Step(h, es[0]), es[1..], t)
  }

  lemma {:induction false} NumbersIncrease(h: History, es: seq<Event>, t: History)
    requires Increasing(h) && Run(h, es, t)
    ensures Increasing(t)
    decreases |es|
  {
    if es != [] {
      StepIncreasing(h, es[0]);
      NumbersIncrease(Step(h, es[0]), es[1..], t);
    }
  }

  // ---------------------------------------------------------------- no clash with overclock numbers

  /** The trigger counter does not run backwards. */
  predicate Forward(h: History, e: Event) {
    match e
    case EvOverclock(r) => r >= h.last
    case EvCapture(r) => h.c.shoot == h.c.sum ==> r == 0 || r >= h.last
    case EvReset => true
  }

  /** The slot that was written for the j-th number recorded since the reset. */
  function SlotOf(h: History, j: nat): nat {
    (h.base + j) % MAX_COUNT_ARRAY
  }

  /** One of the last 16 numbers recorded is still in its slot, and still valid
      unless sample_count_shoot has passed it. */
  predicate EntryOk(h: History, j: nat)
    requires Sized(h) && j < |h.rec|
  {
    var s := h.c.slots[SlotOf(h, j)];
    s.count == h.rec[j] && (s.valid || h.rec[j] <= h.c.shoot)
  }

  ghost predicate RingOk(h: History) {
    && Sized(h) && h.c.index == SlotOf(h, |h.rec|)
    && (forall j :: 0 <= j < |h.rec| && |h.rec| - MAX_COUNT_ARRAY <= j ==> EntryOk(h, j))
  }

  ghost predicate Ascending(rec: seq<u32>) {
    forall i, j :: 0 <= i < j < |rec| ==> rec[i] <= rec[j]
  }

  ghost predicate OrderOk(h: History) {
    && h.last <= h.c.sum
    && (forall j :: 0 <= j < |h.rec| ==> h.rec[j] <= h.last)
    && Ascending(h.rec)
  }

  /** Every number given differs from the overclock numbers recorded before it. */
  ghost predicate NoClash(h: History) {
    forall i :: 0 <= i < |h.given| ==> h.given[i].1 <= |h.rec| && h.given[i].0 !in h.rec[..h.given[i].1]
  }

  function CountAbove(rec: seq<u32>, bound: nat): nat {
    if rec == [] then 0 else (if rec[0] > bound then 1 else 0) + CountAbove(rec[1..], bound)
  }

  /** At most 16 of the recorded numbers exceed sample_count_shoot. */
  predicate Roomy(h: History, e: Event) {
    e.EvCapture? ==> CountAbove(h.rec, h.c.shoot) <= MAX_COUNT_ARRAY
  }

  lemma NextSlot(h: History, j: nat)
    ensures SlotOf(h, j + 1) == if SlotOf(h, j) + 1 >= MAX_COUNT_ARRAY then 0 else SlotOf(h, j) + 1
  {}

  lemma OtherSlot(h: History, i: nat, j: nat)
    requires i < j < i + MAX_COUNT_ARRAY
    ensures SlotOf(h, i) != SlotOf(h, j)
  {}

  lemma OverclockKeepsRing(h: History, r: u32)
    requires RingOk(h)
    ensures RingOk(Step(h, EvOverclock(r)))
  {
    var h' := Step(h, EvOverclock(r));
    NextSlot(h, |h.rec|);
    forall j | 0 <= j < |h'.rec| && |h'.rec| - MAX_COUNT_ARRAY <= j ensures EntryOk(h', j) {
      if j < |h.rec| {
        assert EntryOk(h, j);
        OtherSlot(h, j, |h.rec|);
      }
    }
  }

  lemma CaptureKeepsRing(h: History, r: u32)
    requires RingOk(h) && NoWrap(h, EvCapture(r))
    ensures RingOk(Step(h, EvCapture(r)))
  {
    var h' := Step(h, EvCapture(r));
    if !Resets(h, EvCapture(r)) {
      forall j | 0 <= j < |h'.rec| && |h'.rec| - MAX_COUNT_ARRAY <= j ensures EntryOk(h', j) {
        assert EntryOk(h, j);
      }
    }
  }

  lemma StepKeepsHistory(h: History, e: Event)
    requires RingOk(h) && OrderOk(h) && NoWrap(h, e) && Forward(h, e)
    ensures RingOk(Step(h, e)) && OrderOk(Step(h, e))
  {
    match e {
      case EvOverclock(r) => OverclockKeepsRing(h, r);
      case EvCapture(r) => CaptureKeepsRing(h, r);
      case EvReset =>
    }
  }

  /** n is one of the last 16 numbers recorded since the reset. */
  ghost predicate InWindow(h: History, n: u32) {
    exists j :: 0 <= j < |h.rec| && |h.rec| - MAX_COUNT_ARRAY <= j && h.rec[j] == n
  }

  /** Slot k was not written since the reset. */
  ghost predicate Unwritten(h: History, k: nat) {
    forall j :: 0 <= j < |h.rec| && |h.rec| - MAX_COUNT_ARRAY <= j ==> SlotOf(h, j) != k
  }

  /** n was recorded before the reset, in a slot not written since. */
  ghost predicate Stale(h: History, n: u32)
    requires Sized(h)
  {
    exists k :: 0 <= k < MAX_COUNT_ARRAY && Hit(h.c.slots[k], n) && Unwritten(h, k)
  }

  /** What the ring knows of a number that sample_count_shoot has not passed: whether it
      is among the last 16 recorded since the reset, or left over from before it. */
  lemma RecordedExactly(h: History, n: u32)
    requires RingOk(h) && n > h.c.shoot
    ensures Recorded(h.c.slots, n) <==> InWindow(h, n) || Stale(h, n)
  {
    var k := Find(h.c.slots, n, 0);
    if k < MAX_COUNT_ARRAY && !Unwritten(h, k) {
      var j :| 0 <= j < |h.rec| && |h.rec| - MAX_COUNT_ARRAY <= j && SlotOf(h, j) == k;
      assert EntryOk(h, j);
    }
    if InWindow(h, n) {
      var j :| 0 <= j < |h.rec| && |h.rec| - MAX_COUNT_ARRAY <= j && h.rec[j] == n;
      assert EntryOk(h, j);
    }
  }

  lemma SameSlot(first: nat, k: nat)
    requires k < MAX_COUNT_ARRAY
    ensures (first + (k - first) % MAX_COUNT_ARRAY) % MAX_COUNT_ARRAY == k
  {}

  /** Which entry of the last 16 slot k holds, once 16 have been recorded. */
  lemma WindowCovers(h: History, k: nat)
    requires |h.rec| >= MAX_COUNT_ARRAY && k < MAX_COUNT_ARRAY
    ensures !Unwritten(h, k)
  {
    var first := h.base + |h.rec| - MAX_COUNT_ARRAY;
    var j := |h.rec| - MAX_COUNT_ARRAY + (k - first) % MAX_COUNT_ARRAY;
    SameSlot(first, k);
    assert SlotOf(h, j) == k;
  }

  lemma {:induction false} CountTail(rec: seq<u32>, bound: nat, j: nat)
    requires j <= |rec| && forall k :: j <= k < |rec| ==> rec[k] > bound
    ensures CountAbove(rec, bound) >= |rec| - j
  {
    if rec != [] {
      forall k | (if j == 0 then 0 else j - 1) <= k < |rec[1..]| ensures rec[1..][k] > bound {
        assert rec[1..][k] == rec[k + 1];
      }
      CountTail(rec[1..], bound, if j == 0 then 0 else j - 1);
    }
  }

  /** Of numbers in ascending order, those above a bound come last. */
  lemma {:induction false} AboveIsTail(rec: seq<u32>, bound: nat, m: nat)
    requires Ascending(rec) && CountAbove(rec, bound) >= m
    ensures |rec| >= m && forall j :: |rec| - m <= j < |rec| ==> rec[j] > bound
  {
    if rec != [] {
      if rec[0] > bound {
        AboveIsTail(rec[1..], bound, if m == 0 then 0 else m - 1);
      } else {
        AboveIsTail(rec[1..], bound, m);
        forall j | |rec| - m <= j < |rec| ensures rec[j] > bound { assert rec[1..][j - 1] == rec[j]; }
      }
    }
  }

  /** The next number was recorded, and 16 larger ones after it: the ring has lost it. */
  predicate Overrun(h: History) {
    && h.c.shoot < h.c.sum && Inc(h.c.shoot) in h.rec
    && CountAbove(h.rec, Inc(h.c.shoot)) >= MAX_COUNT_ARRAY
  }

  lemma OverrunIsLost(h: History)
    requires RingOk(h) && OrderOk(h) && h.c.shoot < U32 - 1 && Overrun(h)
    ensures !Recorded(h.c.slots, Inc(h.c.shoot))
  {
    var n := Inc(h.c.shoot);
    AboveIsTail(h.rec, n, MAX_COUNT_ARRAY);
    RecordedExactly(h, n);
    forall k: nat | k < MAX_COUNT_ARRAY ensures !Unwritten(h, k) { WindowCovers(h, k); }
  }

  lemma LostIsOverrun(h: History)
    requires RingOk(h) && OrderOk(h) && h.c.shoot < h.c.sum && h.c.shoot < U32 - 1
    requires Inc(h.c.shoot) in h.rec && !Recorded(h.c.slots, Inc(h.c.shoot))
    ensures Overrun(h)
  {
    var n := Inc(h.c.shoot);
    RecordedExactly(h, n);
    var j :| 0 <= j < |h.rec| && h.rec[j] == n;
    assert j < |h.rec| - MAX_COUNT_ARRAY;
    forall k | |h.rec| - MAX_COUNT_ARRAY <= k < |h.rec| ensures h.rec[k] > n {
      assert h.rec[k] != n;
    }
    CountTail(h.rec, n, |h.rec| - MAX_COUNT_ARRAY);
  }

  /** Main result: an image is given a number already recorded for an overclocked sample
      if and only if the next number has been recorded, and 16 larger ones since. */
  lemma ClashExactly(h: History, r: u32)
    requires RingOk(h) && OrderOk(h) && NoWrap(h, EvCapture(r))
    requires Capture(h.c, r).1.Numbered?
    ensures Capture(h.c, r).1.n in h.rec <==> Overrun(h)
  {
    var n := Inc(h.c.shoot);
    if Overrun(h) { OverrunIsLost(h); }
    if h.c.shoot < h.c.sum && n in h.rec && !Recorded(h.c.slots, n) { LostIsOverrun(h); }
  }

  /** So none is lost while at most 16 recorded numbers exceed the shoot count. */
  lemma RoomyIsEnough(h: History, e: Event)
    requires OrderOk(h) && NoWrap(h, e) && e.EvCapture? && Roomy(h, e)
    ensures !Overrun(h)
  {
    if Overrun(h) {
      var n := Inc(h.c.shoot);
      var j :| 0 <= j < |h.rec| && h.rec[j] == n;
      AboveIsTail(h.rec, n, MAX_COUNT_ARRAY);
      CountTail(h.rec, h.c.shoot, j);
      assert false;
    }
  }

  /** The trigger count never runs backwards, and no image is numbered in an overrun. */
  ghost predicate Disciplined(h: History, es: seq<Event>)
    decreases |es|
  {
    es == [] || (Sized(h) && Forward(h, es[0]) && (es[0].EvCapture? ==> !Overrun(h))
                 && Disciplined(Step(h, es[0]), es[1..]))
  }

  lemma StepKeepsNoClash(h: History, e: Event)
    requires RingOk(h) && OrderOk(h) && NoClash(h) && NoWrap(h, e) && (e.EvCapture? ==> !Overrun(h))
    ensures NoClash(Step(h, e))
  {
    var h' := Step(h, e);
    if e.EvCapture? && Capture(h.c, e.reading).1.Numbered? {
      ClashExactly(h, e.reading);
      assert h.rec[..|h.rec|] == h.rec;
    }
    forall i | 0 <= i < |h'.given| ensures h'.given[i].1 <= |h'.rec| && h'.given[i].0 !in h'.rec[..h'.given[i].1] {
      if i < |h.given| {
        assert h'.rec[..h'.given[i].1] == h.rec[..h.given[i].1];
      }
    }
  }

  /** Main result: then no image is ever given a number already recorded for an
      overclocked sample since the last reset. */
  lemma {:induction false} NoClashEver(h: History, es: seq<Event>, t: History)
    requires RingOk(h) && OrderOk(h) && NoClash(h)
    requires Run(h, es, t) && Disciplined(h, es)
    ensures NoClash(t)
    decreases |es|
  {
    if es != [] {
      StepKeepsHistory(h, es[0]);
      StepKeepsNoClash(h, es[0]);
      NoClashEver(Step(h, es[0]), es[1..], t);
    }
  }

  lemma StartOk()
    ensures RingOk(START) && OrderOk(START) && NoClash(START) && Increasing(START)
  {}

  /** From the start: numbers given to images increase strictly, and differ from the
      overclock numbers recorded before them if the run is disciplined. */
  lemma NumbersFromStart(es: seq<Event>, t: History)
    requires Run(START, es, t)
    ensures forall i, j :: 0 <= i < j < |t.given| ==> t.given[i].0 < t.given[j].0
    ensures Disciplined(START, es) ==> NoClash(t)
  {
    StartOk();
    NumbersIncrease(START, es, t);
    if Disciplined(START, es) { NoClashEver(START, es, t); }
  }

  // ---------------------------------------------------------------- how the counters catch up

  /** After an image that is numbered behind the trigger count, both counters agree: on that
      count, or on the number of an image that was pushed behind it. */
  lemma CatchesUp(c: Counter, r: u32)
    requires c.shoot < c.sum < U32 - 1
    ensures var (c', o) := Capture(c, r);
            && o.Numbered? && c'.shoot == c'.sum
            && (Recorded(c.slots, Inc(c.shoot)) ==> o.n == c'.sum == c.sum + 1)
            && (!Recorded(c.slots, Inc(c.shoot)) ==> o.n == c.shoot + 1 && c'.sum == c.sum)
  {}

  /** So the image after it gets the number behind that, whatever was missed before. */
  lemma NextAfterCatchUp(c: Counter, r: u32, reading: u32)
    requires c.shoot < c.sum < U32 - 2 && reading != 0
    ensures var c' := Capture(c, r).0;
            Capture(c', reading).1 == Numbered(if Recorded(c.slots, Inc(c.shoot)) then c.sum + 2 else c.sum + 1)
  {
    CatchesUp(c, r);
  }

  /** n images in a row, each taken when the trigger count is its own number. */
  function InStep(h: History, n: nat): (h': History)
    requires Sized(h)
    ensures Sized(h')
  {
    if n == 0 then h else var t := InStep(h, n - 1); Step(t, EvCapture(Inc(t.c.shoot)))
  }

  /** The n numbers behind `start`, given after `at` recordings. */
  function Row(start: nat, n: nat, at: nat): (row: seq<(u32, nat)>)
    requires start + n < U32
    ensures |row| == n && forall i :: 0 <= i < n ==> row[i].0 == start + i + 1 && row[i].1 == at
  {
    if n == 0 then [] else Row(start, n - 1, at) + [(start + n, at)]
  }

  lemma InStepOnce(h: History)
    requires Sized(h) && h.c.shoot == h.c.sum && h.c.shoot < U32 - 1
    ensures var t := Step(h, EvCapture(Inc(h.c.shoot)));
            && t.c.shoot == t.c.sum == h.c.shoot + 1 && t.rec == h.rec
            && t.given == h.given + [(h.c.shoot + 1, |h.rec|)]
  {}

  /** Main result: as long as no trigger is missed, images get consecutive numbers, and the
      counters stay together. */
  lemma {:induction false} Consecutive(h: History, n: nat)
    requires Sized(h) && h.c.shoot == h.c.sum && h.c.shoot + n < U32
    ensures var t := InStep(h, n);
            && t.c.shoot == t.c.sum == h.c.shoot + n && t.rec == h.rec
            && t.given == h.given + Row(h.c.shoot, n, |h.rec|)
  {
    if n > 0 {
      Consecutive(h, n - 1);
      InStepOnce(InStep(h, n - 1));
    }
  }

  /** An image that is taken when the trigger count is ahead still gets the next number;
      the one after it continues behind the count. */
  lemma MissedTriggers(c: Counter, ahead: u32, r: u32, reading: u32)
    requires c.shoot == c.sum < U32 - 2 && c.sum + 1 < ahead < U32 - 1 && reading != 0
    requires !Recorded(c.slots, c.sum + 2)
    ensures var (c1, o1) := Capture(c, ahead);
            var (c2, o2) := Capture(c1, r);
            o1 == Numbered(c.sum + 1) && o2 == Numbered(c.sum + 2) && Capture(c2, reading).1 == Numbered(ahead + 1)
  {}

  function Hits(slots: seq<Slot>, count: u32): nat {
    if slots == [] then 0 else (if Hit(slots[0], count) then 1 else 0) + Hits(slots[1..], count)
  }

  lemma {:induction false} HitsAfter(slots: seq<Slot>, k: nat, s: Slot, count: u32)
    requires k < |slots|
    ensures Hits(slots[k := s], count) + (if Hit(slots[k], count) then 1 else 0)
            == Hits(slots, count) + (if Hit(s, count) then 1 else 0)
  {
    if k > 0 {
      HitsAfter(slots[1..], k - 1, s, count);
      assert slots[k := s][1..] == slots[1..][k - 1 := s];
    } else {
      assert slots[k := s][1..] == slots[1..];
    }
  }

  lemma {:induction false} NoHits(slots: seq<Slot>, count: u32)
    ensures Hits(slots, count) > 0 <==> exists k :: 0 <= k < |slots| && Hit(slots[k], count)
  {
    if slots != [] {
      NoHits(slots[1..], count);
      if Hits(slots[1..], count) > 0 {
        var k :| 0 <= k < |slots[1..]| && Hit(slots[1..][k], count);
        assert Hit(slots[k + 1], count);
      }
      if k :| 0 <= k < |slots| && Hit(slots[k], count) {
        if k > 0 { assert Hit(slots[1..][k - 1], count); }
      }
    }
  }

  /** find_current_count uses up exactly one recording of the number it looks for, if there
      is one, and none of any other. */
  lemma ForgetsOne(slots: seq<Slot>, count: u32, other: u32)
    ensures Hits(Forget(slots, count), other)
            == Hits(slots, other) - (if other == count && Hits(slots, count) > 0 then 1 else 0)
  {
    NoHits(slots, count);
    var i := Find(slots, count, 0);
    if i < |slots| { HitsAfter(slots, i, Slot(false, slots[i].count), other); }
  }

  // ---------------------------------------------------------------- the other way round

  ghost predicate Gave(h: History, n: u32) {
    exists i :: 0 <= i < |h.given| && h.given[i].0 == n
  }

  /** sample_count_sum is the latest reading, but for the third branch; and every number
      between the latest reading and the shoot count has been given to an image. */
  ghost predicate GivenOk(h: History) {
    && Increasing(h) && (h.c.sum == h.last || (h.c.sum == h.c.shoot && h.c.shoot == h.last + 1))
    && forall v: u32 :: h.last < v <= h.c.shoot ==> Gave(h, v)
  }

  lemma GaveStill(h: History, h': History, v: u32)
    requires Gave(h, v) && |h'.given| >= |h.given| && h'.given[..|h.given|] == h.given
    ensures Gave(h', v)
  {
    var i :| 0 <= i < |h.given| && h.given[i].0 == v;
    assert h'.given[..|h.given|][i] == h'.given[i];
  }

  lemma GaveNow(h: History, n: u32)
    requires |h.given| > 0 && h.given[|h.given| - 1].0 == n
    ensures Gave(h, n)
  {}

  lemma CaptureGives(h: History, r: u32)
    requires GivenOk(h) && NoWrap(h, EvCapture(r)) && Forward(h, EvCapture(r)) && !Resets(h, EvCapture(r))
    ensures GivenOk(Step(h, EvCapture(r)))
  {
    var h' := Step(h, EvCapture(r));
    StepIncreasing(h, EvCapture(r));
    forall v: u32 | h'.last < v <= h'.c.shoot ensures Gave(h', v) {
      if v <= h.c.shoot { GaveStill(h, h', v); } else { GaveNow(h', v); }
    }
  }

  lemma StepGives(h: History, e: Event)
    requires GivenOk(h) && NoWrap(h, e) && Forward(h, e)
    ensures GivenOk(Step(h, e))
  {
    if e.EvCapture? && !Resets(h, e) {
      CaptureGives(h, e.reading);
    } else if e.EvOverclock? {
      var h' := Step(h, e);
      forall v: u32 | h'.last < v <= h'.c.shoot ensures Gave(h', v) { GaveStill(h, h', v); }
    }
  }

  /** The trigger count never runs backwards. */
  ghost predicate Steady(h: History, es: seq<Event>)
    decreases |es|
  {
    es == [] || (Sized(h) && Forward(h, es[0]) && Steady(Step(h, es[0]), es[1..]))
  }

  lemma {:induction false} RunGives(h: History, es: seq<Event>, t: History)
    requires GivenOk(h) && Run(h, es, t) && Steady(h, es)
    ensures GivenOk(t)
    decreases |es|
  {
    if es != [] {
      StepGives(h, es[0]);
      RunGives(Step(h, es[0]), es[1..], t);
    }
  }

  /** Main result: in every run from the start with a steady trigger count, a new count r
      that is recorded for an overclocked sample has already been given to an image if
      and only if it does not exceed the shoot count, which is the case after the third
      branch (r == sum) and after a first branch whose reading lags behind. */
  lemma RepeatsExactly(es: seq<Event>, t: History, r: u32)
    requires Run(START, es, t) && Steady(START, es) && r > t.last
    ensures Gave(t, r) <==> r <= t.c.shoot
  {
    RunGives(START, es, t);
  }

  lemma SkippedIfHit(slots: seq<Slot>, count: u32, k: nat)
    requires k < |slots| && Hit(slots[k], count)
    ensures Recorded(slots, count)
  {}

  /** It does happen: an overclock number 1, and an image that skips to 2 because of it,
      before a second overclock number 2. */
  lemma OverclockRepeatsImage(r: u32)
    ensures var h := Step(Step(START, EvOverclock(1)), EvCapture(r));
            h.given == [(2, 1)] && h.last == 1 && h.c.shoot == 2 && Forward(h, EvOverclock(2)) && Gave(h, 2)
  {
    var h := Step(START, EvOverclock(1));
    assert h.c.slots[0] == Slot(true, 1);
    SkippedIfHit(h.c.slots, 1, 0);
    GaveNow(Step(h, EvCapture(r)), 2);
  }

  // ---------------------------------------------------------------- numbers from before a reset

  /** Exactly when an image is pushed behind the newest overclock number: its own number
      is among the last 16 recorded, or a reset has left it in the ring. */
  lemma SkipsExactly(h: History, r: u32)
    requires RingOk(h) && NoWrap(h, EvCapture(r)) && h.c.shoot < h.c.sum
    ensures var o := Capture(h.c, r).1;
            o.Numbered? && (o.n == h.c.sum + 1 <==> InWindow(h, Inc(h.c.shoot)) || Stale(h, Inc(h.c.shoot)))
  {
    RecordedExactly(h, Inc(h.c.shoot));
  }

  /** sample_count_reset leaves the ring as it is: an overclock number 1 recorded before
      the reset makes the first image after it skip to m + 1 once an overclock number m
      is recorded, though number 1 was not recorded since; without it the image is 1. */
  lemma ResetLeavesStale(m: u32, r: u32)
    requires 1 < m < U32 - 1
    ensures var h := Step(Step(Step(START, EvOverclock(1)), EvReset), EvOverclock(m));
            Capture(h.c, r).1 == Numbered(m + 1) && 1 !in h.rec && Stale(h, 1)
    ensures Capture(Step(START, EvOverclock(m)).c, r).1 == Numbered(1)
  {
    var h1 := Step(START, EvOverclock(1));
    var h := Step(Step(h1, EvReset), EvOverclock(m));
    assert h.c.slots[0] == Slot(true, 1);
    assert Unwritten(h, 0);
    SkippedIfHit(h.c.slots, 1, 0);
  }

  // ---------------------------------------------------------------- numbering that is not one step

  /** The capture task overtakes the handler between fpga/fpga.c:102 and 107: the trigger
      count r is already in sample_count_sum, but not in the ring. */
  function Overtaking(c: Counter, r: u32, reading: u32): Outcome {
    Capture(c.(sum := r), reading).1
  }

  /** Exactly then image and overclocked sample are both given r. */
  lemma OvertakingExactly(c: Counter, r: u32, reading: u32)
    requires c.shoot < U32 - 1 && r < U32 - 1
    ensures var o := Overtaking(c, r, reading);
            o.Numbered? && o.n == r <==> r == c.shoot + 1 && !Recorded(c.slots, r)
  {}

  /** The handler records r between image/video_context.c:327 and 329. */
  function InterruptedFirst(c: Counter, r: u32, reading: u32): (Counter, Outcome)
    requires c.shoot == c.sum && c.index < |c.slots|
  {
    var c1 := Overclock(c, r);
    if reading == 0 then (c1.(shoot := 0, sum := 0), Discarded)
    else (c1.(shoot := Inc(c1.shoot), sum := reading), Numbered(Inc(c1.shoot)))
  }

  /** The handler records r between lines 345 and 349: sample_count_shoot becomes r. */
  function InterruptedSecond(c: Counter, r: u32): (Counter, Outcome)
    requires c.shoot < c.sum && !Recorded(c.slots, Inc(c.shoot)) && c.index < |c.slots|
  {
    var c1 := Overclock(c, r);
    (c1.(shoot := c1.sum), Numbered(Inc(c.shoot)))
  }

  /** The handler records r between lines 345 and 354: the image goes behind r. */
  function InterruptedSkip(c: Counter, r: u32): (Counter, Outcome)
    requires c.shoot < c.sum && Recorded(c.slots, Inc(c.shoot)) && c.index < |c.slots|
  {
    var c1 := Overclock(c.(slots := Forget(c.slots, Inc(c.shoot))), r);
    (c1.(shoot := Inc(c1.sum), sum := Inc(c1.sum)), Numbered(Inc(c1.sum)))
  }

  /** The handler records r between lines 354 and 356; sample_count_sum is overwritten. */
  function InterruptedThird(c: Counter, r: u32): (Counter, Outcome)
    requires c.shoot < c.sum && Recorded(c.slots, Inc(c.shoot)) && c.index < |c.slots|
  {
    var c1 := Overclock(c.(slots := Forget(c.slots, Inc(c.shoot)), shoot := Inc(c.sum)), r);
    (c1.(sum := c1.shoot), Numbered(c1.shoot))
  }

  /** Exactly when an interrupt inside the first branch gives the image its own number. */
  lemma InterruptedFirstExactly(h: History, r: u32, reading: u32)
    requires Sized(h) && OrderOk(h) && h.c.shoot == h.c.sum && h.c.shoot < U32 - 1 && reading != 0
    ensures var (c, o) := InterruptedFirst(h.c, r, reading);
            o.Numbered? && (o.n in h.rec + [r] <==> r == h.c.shoot + 1)
  {}

  /** Exactly when one inside the second branch gives the image a recorded number: in an
      overrun, as without it, or its own; the next image goes behind r in any case. */
  lemma InterruptedSecondExactly(h: History, r: u32, reading: u32)
    requires RingOk(h) && OrderOk(h) && h.c.shoot < h.c.sum && h.c.shoot < U32 - 1 && h.last <= r < U32 - 1
    requires !Recorded(h.c.slots, Inc(h.c.shoot)) && reading != 0
    ensures var (c, o) := InterruptedSecond(h.c, r);
            && o == Numbered(h.c.shoot + 1)
            && (o.n in h.rec + [r] <==> Overrun(h) || r == h.c.shoot + 1)
            && Capture(c, reading).1 == Numbered(r + 1) && r + 1 !in h.rec + [r]
  {
    var n := Inc(h.c.shoot);
    if n in h.rec { LostIsOverrun(h); }
    if Overrun(h) { OverrunIsLost(h); }
  }

  /** One before the third branch sets the shoot count never does. */
  lemma InterruptedSkipExactly(h: History, r: u32, reading: u32)
    requires Sized(h) && OrderOk(h) && h.c.shoot < h.c.sum && Recorded(h.c.slots, Inc(h.c.shoot))
    requires h.last <= r < U32 - 2 && reading != 0
    ensures var (c, o) := InterruptedSkip(h.c, r);
            && o == Numbered(r + 1) && r + 1 !in h.rec + [r]
            && Capture(c, reading).1 == Numbered(r + 2) && r + 2 !in h.rec + [r]
  {}

  /** Exactly when one inside the third branch makes the next image repeat a number. */
  lemma InterruptedThirdExactly(h: History, r: u32, reading: u32)
    requires Sized(h) && OrderOk(h) && h.c.shoot < h.c.sum < U32 - 2 && Recorded(h.c.slots, Inc(h.c.shoot))
    requires reading != 0
    ensures var (c, o) := InterruptedThird(h.c, r);
            && o == Numbered(h.c.sum + 1) && Capture(c, reading).1.Numbered?
            && (Capture(c, reading).1.n in h.rec + [r] <==> r == h.c.sum + 2)
  {}

  // ---------------------------------------------------------------- how much room there is

  /** n overclock interrupts in a row, numbered 1 to n, and no image between them. */
  function Missed(n: nat): History
    requires n < U32 - 1
    ensures Sized(Missed(n))
  {
    if n == 0 then START else Step(Missed(n - 1), EvOverclock(n))
  }

  lemma {:induction false} MissedNumbers(n: nat)
    requires n < U32 - 1
    ensures var h := Missed(n);
            && RingOk(h) && OrderOk(h) && h.base == 0 && h.c.shoot == 0 && h.c.sum == n == h.last
            && |h.rec| == n && forall j :: 0 <= j < n ==> h.rec[j] == j + 1
  {
    if n > 0 {
      MissedNumbers(n - 1);
      StepKeepsHistory(Missed(n - 1), EvOverclock(n));
    }
  }

  /** The bound of 16 is sharp: after n missed samples the next image is given a number
      of one of them if and only if there were more than 16. */
  lemma SeventeenMissedClash(n: nat, r: u32)
    requires 0 < n < U32 - 1
    ensures var o := Capture(Missed(n).c, r).1;
            o.Numbered? && (o.n in Missed(n).rec <==> n > MAX_COUNT_ARRAY)
  {
    var h := Missed(n);
    MissedNumbers(n);
    ClashExactly(h, r);
    assert h.rec[0] == 1;
    if n > MAX_COUNT_ARRAY { CountTail(h.rec, 1, 1); }
    if Overrun(h) { AboveIsTail(h.rec, 1, MAX_COUNT_ARRAY); }
  }
}
