/** Releases of one two-image group by several tasks at once (image/video_context.c:123-156)
    with the two locked halves and the unlocked recycle test as separate steps, in any
    interleaving. */
module ReleaseRace {
  import opened Counting
  import GroupStore

  /** A releaser: before the first image, between the two, before the test, through. */
  datatype Stage = First | Second | Test | Done

  /** `queued0`, `queued1` and `recycles` are history: how often each image went back to
      its driver queue, and these releasers gave the group to the pool. `reused0` and
      `reused1`: the capture task has taken the image again, for another group.
      `refilled`: the recycled group has been produced again and points at other images,
      with counts `new0` and `new1`. */
  datatype State = State(
    r0: nat, r1: nat, at: seq<Stage>,
    queued0: nat, queued1: nat, recycles: nat, reused0: bool, reused1: bool,
    refilled: bool, new0: nat, new1: nat)

  /** `Reuse`: captured again with three references. `Return`: one of these is released.
      `Refill`: the group, once recycled, is produced again and filled with other images.
      `Let`: a reference of one of those is released. */
  datatype Event =
    | Half0(k: nat) | Half1(k: nat) | Judge(k: nat)
    | Reuse0 | Reuse1 | Return0 | Return1 | Refill | Let0 | Let1

  function Copies(x: Stage, n: nat): (q: seq<Stage>)
    ensures |q| == n && forall i :: 0 <= i < n ==> q[i] == x
  {
    if n == 0 then [] else Copies(x, n - 1) + [x]
  }

  /** n references of a group that passed line 384, and one releaser for each. */
  function Start(n: nat): State {
    State(n, n, Copies(First, n), 0, 0, 0, false, false, false, 0, 0)
  }

  predicate Enabled(s: State, e: Event) {
    match e
    case Half0(k) => k < |s.at| && s.at[k] == First
    case Half1(k) => k < |s.at| && s.at[k] == Second
    case Judge(k) => k < |s.at| && s.at[k] == Test
    case Reuse0 => s.queued0 > 0 && !s.reused0
    case Reuse1 => s.queued1 > 0 && !s.reused1
    case Return0 => s.reused0
    case Return1 => s.reused1
    case Refill => s.recycles > 0
    case Let0 => s.refilled && s.new0 > 0
    case Let1 => s.refilled && s.new1 > 0
  }

  /** What the test finds through the pointers of the group: both counts are 0. */
  predicate FindsZero(s: State) {
    if s.refilled then s.new0 == 0 && s.new1 == 0 else s.r0 == 0 && s.r1 == 0
  }

  function Next(s: State, e: Event): State
    requires Enabled(s, e)
  {
    match e
    case Half0(k) => s.(r0 := GroupStore.Dec32(s.r0), at := s.at[k := Second],
                          queued0 := s.queued0 + One(GroupStore.Dec32(s.r0) == 0))
    case Half1(k) => s.(r1 := GroupStore.Dec32(s.r1), at := s.at[k := Test],
                          queued1 := s.queued1 + One(GroupStore.Dec32(s.r1) == 0))
    case Judge(k) => s.(at := s.at[k := Done], recycles := s.recycles + One(FindsZero(s)))
    case Reuse0 => s.(r0 := 3, reused0 := true)
    case Reuse1 => s.(r1 := 3, reused1 := true)
    case Return0 => s.(r0 := GroupStore.Dec32(s.r0), reused0 := GroupStore.Dec32(s.r0) != 0)
    case Return1 => s.(r1 := GroupStore.Dec32(s.r1), reused1 := GroupStore.Dec32(s.r1) != 0)
    case Refill => s.(refilled := true, new0 := 3, new1 := 3)
    case Let0 => s.(new0 := s.new0 - 1)
    case Let1 => s.(new1 := s.new1 - 1)
  }

  ghost predicate Run(s: State, es: seq<Event>, t: State)
    decreases |es|
  {
    if es == [] then s == t else Enabled(s, es[0]) && Run(Next(s, es[0]), es[1..], t)
  }

  // ---------------------------------------------------------------- counting releasers

  function Count(at: seq<Stage>, x: Stage): (n: nat)
    ensures n <= |at|
  {
    if at == [] then 0 else Count(at[..|at| - 1], x) + One(at[|at| - 1] == x)
  }

  lemma {:induction false} CountMoves(at: seq<Stage>, k: nat, x: Stage, y: Stage)
    requires k < |at|
    ensures Count(at[k := x], y) == Count(at, y) - One(at[k] == y) + One(x == y)
    ensures at[k] == y ==> Count(at, y) > 0
  {
    var rest := at[..|at| - 1];
    if k < |rest| {
      CountMoves(rest, k, x, y);
      assert at[k := x][..|at| - 1] == rest[k := x];
    } else {
      assert at[k := x][..|at| - 1] == rest;
    }
  }

  /** Every releaser is at one of the four stages. */
  lemma {:induction false} CountAll(at: seq<Stage>)
    ensures Count(at, First) + Count(at, Second) + Count(at, Test) + Count(at, Done) == |at|
  {
    if at != [] { CountAll(at[..|at| - 1]); }
  }

  lemma {:induction false} CountCopies(x: Stage, n: nat, y: Stage)
    ensures Count(Copies(x, n), y) == if x == y then n else 0
  {
    if n > 0 {
      assert Copies(x, n)[..n - 1] == Copies(x, n - 1);
      CountCopies(x, n - 1, y);
    }
  }

  /** How many releasers have a half before them. */
  function Halves(at: seq<Stage>): nat {
    Count(at, First) + Count(at, Second)
  }

  /** Each image has a reference for every releaser that has not reached it; it is queued
      once none is left, and only then can it be reused, and the group recycled. */
  ghost predicate Inv(s: State) {
    var before0 := Count(s.at, First);
    var before1 := Halves(s.at);
    && (!s.reused0 ==> s.r0 == before0) && (!s.reused1 ==> s.r1 == before1)
    && s.queued0 == One(before0 == 0) && s.queued1 == One(before1 == 0)
    && (s.reused0 ==> before0 == 0 && 0 < s.r0 <= 3) && (s.reused1 ==> before1 == 0 && 0 < s.r1 <= 3)
    && (s.recycles > 0 ==> before1 == 0) && (s.refilled ==> s.recycles > 0)
  }

  lemma StepInv(s: State, e: Event)
    requires Inv(s) && Enabled(s, e)
    ensures Inv(Next(s, e))
  {
    match e {
      case Half0(k) => CountMoves(s.at, k, Second, First); CountMoves(s.at, k, Second, Second);
      case Half1(k) => CountMoves(s.at, k, Test, First); CountMoves(s.at, k, Test, Second);
      case Judge(k) => CountMoves(s.at, k, Done, First); CountMoves(s.at, k, Done, Second);
      case _ =>
    }
  }

  lemma StartInv(n: nat)
    requires n > 0
    ensures Inv(Start(n))
  {
    CountCopies(First, n, First);
    CountCopies(First, n, Second);
  }

  lemma {:induction false} RunInv(s: State, es: seq<Event>, t: State)
    requires Inv(s) && Run(s, es, t)
    ensures Inv(t) && |t.at| == |s.at|
    decreases |es|
  {
    if es != [] {
      StepInv(s, es[0]);
      RunInv(Next(s, es[0]), es[1..], t);
    }
  }

  /** Main result: in every interleaving each image goes back to its driver queue at most
      once, and exactly once when all releasers are through. */
  lemma QueuedOnce(n: nat, es: seq<Event>, t: State)
    requires n > 0 && Run(Start(n), es, t)
    ensures t.queued0 <= 1 && t.queued1 <= 1
    ensures t.at == Copies(Done, n) ==> t.queued0 == 1 && t.queued1 == 1
  {
    StartInv(n);
    RunInv(Start(n), es, t);
    CountCopies(Done, n, First);
    CountCopies(Done, n, Second);
  }

  // ---------------------------------------------------------------- the recycle test

  /** One call without interruption. */
  function Atomic(s: State, k: nat): State
    requires Enabled(s, Half0(k))
  {
    Next(Next(Next(s, Half0(k)), Half1(k)), Judge(k))
  }

  predicate Waiting(s: State, ks: seq<nat>) {
    && (forall i :: 0 <= i < |ks| ==> ks[i] < |s.at| && s.at[ks[i]] == First)
    && (forall i, j :: 0 <= i < j < |ks| ==> ks[i] != ks[j])
  }

  function AtomicAll(s: State, ks: seq<nat>): State
    requires Waiting(s, ks)
    decreases |ks|
  {
    if ks == [] then s else AtomicAll(Atomic(s, ks[0]), ks[1..])
  }

  /** If calls are atomic, in any order, only the one that drops the last reference
      recycles the group. */
  lemma {:induction false} AtomicRecyclesOnce(s: State, ks: seq<nat>)
    requires Waiting(s, ks) && s.r0 == s.r1 >= |ks| && s.recycles == 0 && !s.refilled && s.r0 > 0
    ensures AtomicAll(s, ks).recycles == One(s.r0 == |ks|)
    decreases |ks|
  {
    if |ks| == 1 {
      assert ks[1..] == [];
    } else if ks != [] {
      AtomicRecyclesOnce(Atomic(s, ks[0]), ks[1..]);
    }
  }

  /** Two releasers that have done both their halves, and none of the tests. */
  function BothBeforeTests(): State {
    State(0, 0, [Test, Test], 1, 1, 0, false, false, false, 0, 0)
  }

  lemma TwoBeforeTests()
    ensures Run(Start(2), [Half0(0), Half1(0), Half0(1), Half1(1)], BothBeforeTests())
  {
    var s := Start(2);
    assert Copies(First, 2) == [First, First];
    assert s.at[0 := Second] == [Second, First];
    var s1 := Next(s, Half0(0));
    assert s1 == s.(r0 := 1, at := [Second, First]);
    assert s1.at[0 := Test] == [Test, First];
    var s2 := Next(s1, Half1(0));
    assert s2 == s1.(r1 := 1, at := [Test, First]);
    assert s2.at[1 := Second] == [Test, Second];
    var s3 := Next(s2, Half0(1));
    assert s3 == s2.(r0 := 0, at := [Test, Second], queued0 := 1);
    assert s3.at[1 := Test] == [Test, Test];
    assert Next(s3, Half1(1)) == BothBeforeTests();
    assert Run(s3, [Half1(1)], BothBeforeTests());
    assert Run(s2, [Half0(1), Half1(1)], BothBeforeTests());
    assert Run(s1, [Half1(0), Half0(1), Half1(1)], BothBeforeTests());
  }

  /** Without atomicity two releasers that both pass their halves before either tests
      recycle the group twice. */
  lemma CanRecycleTwice()
    ensures Run(Start(2), [Half0(0), Half1(0), Half0(1), Half1(1)], BothBeforeTests())
    ensures var t := Next(Next(BothBeforeTests(), Judge(0)), Judge(1));
            t.recycles == 2 && t.at == [Done, Done]
  {
    TwoBeforeTests();
    var s := BothBeforeTests();
    assert s.at[0 := Done] == [Done, Test];
    var s1 := Next(s, Judge(0));
    assert s1 == s.(at := [Done, Test], recycles := 1);
    assert s1.at[1 := Done] == [Done, Done];
  }

  /** And a single last releaser does not recycle it at all, if the first image is captured
      again between its first half and its test. */
  lemma CanLoseGroup()
    ensures var t := Next(Next(Next(Next(Start(1), Half0(0)), Reuse0), Half1(0)), Judge(0));
            t.recycles == 0 && t.at == [Done]
  {
    var s := Start(1);
    assert Copies(First, 1) == [First];
    assert s.at[0 := Second] == [Second];
    var s1 := Next(s, Half0(0));
    assert s1 == s.(r0 := 0, at := [Second], queued0 := 1);
    var s2 := Next(s1, Reuse0);
    assert s2 == s1.(r0 := 3, reused0 := true);
    assert s2.at[0 := Test] == [Test];
    var s3 := Next(s2, Half1(0));
    assert s3 == s2.(r1 := 0, at := [Test], queued1 := 1);
    assert s3.at[0 := Done] == [Done];
  }

  /** Exactly when a test recycles the group. While it has not been produced again: all
      halves are done, and neither image is out again for another group. Afterwards: the
      other images it now has are both unreferenced. */
  lemma JudgeExactly(s: State, k: nat)
    requires Inv(s) && Enabled(s, Judge(k))
    ensures Next(s, Judge(k)).recycles == s.recycles + One(
              if s.refilled then s.new0 == 0 && s.new1 == 0
              else Halves(s.at) == 0 && !s.reused0 && !s.reused1)
  {}

  predicate NoReuse(es: seq<Event>) {
    forall i :: 0 <= i < |es| ==> !es[i].Reuse0? && !es[i].Reuse1?
  }

  /** How many tests of the run find an image or the group in use again. */
  function Late(s: State, es: seq<Event>): nat
    decreases |es|
  {
    if es == [] || !Enabled(s, es[0]) then 0
    else One(es[0].Judge? && !FindsZero(s)) + Late(Next(s, es[0]), es[1..])
  }

  ghost predicate NoneOut(s: State) {
    !s.reused0 && !s.reused1
  }

  lemma NoReuseTail(es: seq<Event>)
    requires NoReuse(es) && es != []
    ensures NoReuse(es[1..]) && !es[0].Reuse0? && !es[0].Reuse1?
  {
    assert forall i :: 0 <= i < |es[1..]| ==> es[1..][i] == es[i + 1];
  }

  /** While halves are left no test recycles, and the step that does the last one puts
      its releaser before the test. */
  lemma StepBefore(s: State, e: Event)
    requires Inv(s) && Enabled(s, e) && Halves(s.at) > 0 && s.recycles == 0
    ensures var t := Next(s, e);
            && Inv(t) && t.recycles == 0 && !t.refilled
            && (NoneOut(s) && !e.Reuse0? && !e.Reuse1? ==> NoneOut(t))
            && (Halves(t.at) == 0 ==> e.Half1? && Count(t.at, Test) > 0)
  {
    StepInv(s, e);
    match e {
      case Half0(k) => CountMoves(s.at, k, Second, First); CountMoves(s.at, k, Second, Second);
      case Half1(k) =>
        CountMoves(s.at, k, Test, First); CountMoves(s.at, k, Test, Second); CountMoves(s.at, k, Test, Test);
      case Judge(k) => CountMoves(s.at, k, Done, First); CountMoves(s.at, k, Done, Second);
      case _ =>
    }
  }

  /** The state in which the last half has just been done. */
  lemma {:induction false} LastHalf(s: State, es: seq<Event>, t: State) returns (i: nat, m: State)
    requires Inv(s) && Run(s, es, t) && Halves(s.at) > 0 && Halves(t.at) == 0 && s.recycles == 0
    ensures 0 < i <= |es| && es[i - 1].Half1? && Run(s, es[..i], m) && Run(m, es[i..], t)
    ensures Inv(m) && Halves(m.at) == 0 && Count(m.at, Test) > 0 && |m.at| == |s.at|
    ensures m.recycles == 0 && !m.refilled
    ensures NoneOut(s) && NoReuse(es) ==> NoneOut(m)
    decreases |es|
  {
    var next := Next(s, es[0]);
    StepBefore(s, es[0]);
    if NoReuse(es) { NoReuseTail(es); }
    if Halves(next.at) == 0 {
      i, m := 1, next;
      assert Run(next, [], m);
    } else {
      var j;
      j, m := LastHalf(next, es[1..], t);
      i := j + 1;
      assert es[1..][j..] == es[i..];
    }
    assert es[..i][1..] == es[1..][..i - 1];
  }

  lemma StepAfter(s: State, e: Event)
    requires Inv(s) && Enabled(s, e) && Halves(s.at) == 0
    ensures var t := Next(s, e);
            && Inv(t) && Halves(t.at) == 0 && (s.refilled ==> t.refilled)
            && t.recycles + Count(t.at, Test) + One(e.Judge? && !FindsZero(s)) == s.recycles + Count(s.at, Test)
            && (NoneOut(s) && !e.Reuse0? && !e.Reuse1? ==> NoneOut(t))
            && (NoneOut(s) && !s.refilled ==> FindsZero(s))
  {
    StepInv(s, e);
    match e {
      case Half0(k) => CountMoves(s.at, k, Second, First);
      case Half1(k) => CountMoves(s.at, k, Test, Second);
      case Judge(k) =>
        CountMoves(s.at, k, Done, First); CountMoves(s.at, k, Done, Second); CountMoves(s.at, k, Done, Test);
      case _ =>
    }
  }

  /** From then on every test recycles, or comes too late. */
  lemma {:induction false} TestsRecycle(s: State, es: seq<Event>, t: State)
    requires Inv(s) && Run(s, es, t) && Halves(s.at) == 0
    ensures Inv(t) && t.recycles + Count(t.at, Test) + Late(s, es) == s.recycles + Count(s.at, Test)
    ensures !t.refilled ==> !s.refilled
    ensures !t.refilled && NoneOut(s) && NoReuse(es) ==> Late(s, es) == 0
    decreases |es|
  {
    if es != [] {
      StepAfter(s, es[0]);
      if NoReuse(es) { NoReuseTail(es); }
      TestsRecycle(Next(s, es[0]), es[1..], t);
    }
  }

  /** Main result, over every run: let m be the state in which the last half has just been
      done. When all are through, the group has been recycled once for every releaser that
      is before its test in m, except those that come too late, because an image is out
      again for another group, or because the group is in use again, produced by the
      capture task after an earlier of these recyclings: exactly once if and only if all
      the other tests were made by m or come too late. */
  lemma RecycledExactly(n: nat, es: seq<Event>, t: State) returns (i: nat, m: State)
    requires n > 0 && Run(Start(n), es, t) && t.at == Copies(Done, n)
    ensures 0 < i <= |es| && es[i - 1].Half1? && Run(Start(n), es[..i], m) && Run(m, es[i..], t)
    ensures Halves(m.at) == 0 && |m.at| == n && Inv(m) && !m.refilled && Count(m.at, Test) > 0
    ensures t.recycles == Count(m.at, Test) - Late(m, es[i..])
    ensures t.recycles == 1 <==> Count(m.at, Done) + Late(m, es[i..]) == n - 1
    ensures NoReuse(es) && !t.refilled ==> Late(m, es[i..]) == 0
    ensures Inv(t)
  {
    StartInv(n);
    CountCopies(First, n, First);
    CountCopies(Done, n, First);
    CountCopies(Done, n, Second);
    CountCopies(Done, n, Test);
    i, m := LastHalf(Start(n), es, t);
    assert NoReuse(es) ==> NoReuse(es[i..]);
    TestsRecycle(m, es[i..], t);
    CountAll(m.at);
  }

  /** So without an image captured again never less than once and never more than once per
      releaser. */
  lemma RecycledBetween(n: nat, es: seq<Event>, t: State)
    requires n > 0 && Run(Start(n), es, t) && t.at == Copies(Done, n) && NoReuse(es)
    ensures 1 <= t.recycles <= n
  {
    var i, m := RecycledExactly(n, es, t);
  }

  /** The new images keep a reference from state s on. */
  predicate StaysInUse(s: State, es: seq<Event>)
    decreases |es|
  {
    s.refilled && s.new0 + s.new1 > 0
    && (es == [] || (Enabled(s, es[0]) && StaysInUse(Next(s, es[0]), es[1..])))
  }

  /** In particular, all tests that are left when the group is filled again come too late,
      as long as its new images are in use. */
  lemma {:induction false} AllLate(s: State, es: seq<Event>, t: State)
    requires Inv(s) && Run(s, es, t) && StaysInUse(s, es)
    ensures Late(s, es) == Count(s.at, Test) - Count(t.at, Test) && t.recycles == s.recycles
    decreases |es|
  {
    if es != [] {
      match es[0] {
        case Half0(k) => CountMoves(s.at, k, Second, First);
        case Half1(k) => CountMoves(s.at, k, Test, Second);
        case Judge(k) => CountMoves(s.at, k, Done, Test);
        case _ =>
      }
      StepInv(s, es[0]);
      AllLate(Next(s, es[0]), es[1..], t);
    }
  }

  /** So two releasers that are both before their tests recycle the group once, not twice,
      if it is produced and filled again between the two tests. */
  lemma CanRecycleOnceOnly()
    ensures var t := Next(Next(Next(BothBeforeTests(), Judge(0)), Refill), Judge(1));
            t.recycles == 1 && t.at == [Done, Done]
  {
    var s := BothBeforeTests();
    assert s.at[0 := Done] == [Done, Test];
    var s1 := Next(s, Judge(0));
    assert s1 == s.(at := [Done, Test], recycles := 1);
    assert s1.at[1 := Done] == [Done, Done];
  }
}
