/** Two video channels: the branch that skips an image while a reset is in progress
    (image/video_context.c:295-299) drops its group, and an empty pool returns with the
    pool lock held (image/sample_factory.c:27-28), which is never undone. */
module PipelineLock {
  import opened Counting
  import opened GroupStore
  import opened Pipeline
  import opened PipelineInv
  import opened PipelineResults
  import opened PipelineBounds

  // ---------------------------------------------------------------- exactly when the lock is left held

  lemma SkipKeepsLock(s: State)
    requires CanSkip(s)
    ensures SkipStep(s).store.locked == s.store.locked && SkipStep(s).store.pool == s.store.pool
  {}

  /** The two callers of sample_factory_produce. */
  predicate Produces(e: Event) {
    e.CapTake? || e.OverTake?
  }

  lemma ProduceNeedsLock(s: State, e: Event)
    requires Enabled(s, e) && Produces(e)
    ensures !s.store.locked && (s.store.pool == [] ==> Next(s, e).store == s.store.(locked := true))
    ensures s.store.pool != [] ==> !Next(s, e).store.locked
  {}

  /** A step leaves the pool lock held if and only if it asks for a group while the pool
      is empty, or the lock was held before: no step gives it back. */
  lemma LockExactly(s: State, e: Event)
    requires Enabled(s, e)
    ensures Next(s, e).store.locked <==> s.store.locked || (Produces(e) && s.store.pool == [])
  {
    if Produces(e) { ProduceNeedsLock(s, e); }
    else if e.CapSkip? { SkipKeepsLock(s); }
    else { MostAreHarmless(s, e); }
  }

  lemma SkipDrops(s: State)
    requires Inv(s) && CanSkip(s)
    ensures s.cap.g !in s.dropped && SkipStep(s).dropped == s.dropped + {s.cap.g}
  {
    assert GroupOwed(s, s.cap.g);
  }

  /** How often the run gives back a first image during a reset. */
  function Skips(es: seq<Event>): nat {
    if es == [] then 0 else One(es[0].CapSkip?) + Skips(es[1..])
  }

  lemma DroppedStep(s: State, e: Event)
    requires Inv(s) && Enabled(s, e)
    ensures |Next(s, e).dropped| == |s.dropped| + One(e.CapSkip?)
  {
    if Produces(e) && s.store.pool == [] { assert Next(s, e).dropped == s.dropped; }
    else if e.CapSkip? { SkipDrops(s); }
    else { MostAreHarmless(s, e); }
  }

  lemma LockedStepNeedsDrops(s: State, e: Event)
    requires Inv(s) && Enabled(s, e) && s.store.channels == Both
    requires s.store.locked ==> |s.dropped| >= GROUPS - VID2_BUF_MAX - 2
    ensures Next(s, e).store.locked ==> |Next(s, e).dropped| >= GROUPS - VID2_BUF_MAX - 2
  {
    LockExactly(s, e);
    DroppedStep(s, e);
    PoolBound(s);
  }

  /** Main result: with two channels the pool has 23 groups besides those skipped images
      have cost, so it cannot be empty, and the lock cannot be left held, before 23
      images have been skipped. */
  lemma {:induction false} LockNeedsSkips(s: State, es: seq<Event>, t: State)
    requires Inv(s) && s.store.channels == Both && Run(s, es, t)
    requires s.store.locked ==> |s.dropped| >= GROUPS - VID2_BUF_MAX - 2
    ensures |t.dropped| == |s.dropped| + Skips(es)
    ensures |t.store.pool| >= GROUPS - VID2_BUF_MAX - 2 - |s.dropped| - Skips(es)
    ensures t.store.locked ==> |s.dropped| + Skips(es) >= GROUPS - VID2_BUF_MAX - 2
    decreases |es|
  {
    if es == [] {
      PoolBound(t);
    } else {
      StepInv(s, es[0]);
      ChannelsStay(s, es[0]);
      DroppedStep(s, es[0]);
      LockedStepNeedsDrops(s, es[0]);
      LockNeedsSkips(Next(s, es[0]), es[1..], t);
    }
  }

  /** The interrupt fails for want of a group only along with the lock. */
  predicate CrashLocks(s: State) {
    s.over == OCrashed ==> s.store.locked
  }

  lemma CrashLocksStep(s: State, e: Event)
    requires Enabled(s, e) && CrashLocks(s)
    ensures CrashLocks(Next(s, e))
  {
    LockExactly(s, e);
    if !Produces(e) && !e.CapSkip? { MostAreHarmless(s, e); }
  }

  lemma {:induction false} CrashLocksRun(s: State, es: seq<Event>, t: State)
    requires CrashLocks(s) && Run(s, es, t)
    ensures CrashLocks(t)
    decreases |es|
  {
    if es != [] {
      CrashLocksStep(s, es[0]);
      CrashLocksRun(Next(s, es[0]), es[1..], t);
    }
  }

  // ---------------------------------------------------------------- what it means

  lemma ReleaseWhileLocked(st: Store, g: nat)
    requires Pointers(st, g) && st.locked && CanRelease(st, g)
    ensures Release(st, g).pool == st.pool
  {}

  lemma VictimCanBeReleased(s: State, e: Event)
    requires Enabled(s, e) && Victim(s, e) != -1
    ensures 0 <= Victim(s, e) < GROUPS && Pointers(s.store, Victim(s, e)) && CanRelease(s.store, Victim(s, e))
  {}

  lemma FillingKeepsPool(s: State, e: Event)
    requires Enabled(s, e) && (e.CapFirst? || e.CapSecond? || e.CapSkip? || e.OverFill?)
    ensures Next(s, e).store.pool == s.store.pool
  {}

  lemma WritingKeepsPool(s: State, e: Event)
    requires Enabled(s, e) && (e.CapNumber? || e.CapJudge? || e.WorkFinish?)
    ensures Next(s, e).store.pool == s.store.pool
  {}

  lemma OthersKeepPool(s: State, e: Event)
    requires Enabled(s, e) && Victim(s, e) == -1 && !Produces(e)
    ensures Next(s, e).store.pool == s.store.pool
  {
    if e.CapFirst? || e.CapSecond? || e.CapSkip? || e.OverFill? { FillingKeepsPool(s, e); }
    else if e.CapNumber? || e.CapJudge? || e.WorkFinish? { WritingKeepsPool(s, e); }
  }

  /** The capture task leaves the top of its loop only with a group. */
  lemma TopStays(s: State, e: Event)
    requires Enabled(s, e) && s.cap == CTop && !e.CapTake?
    ensures Next(s, e).cap == CTop
  {}

  lemma LockedStep(s: State, e: Event)
    requires Enabled(s, e) && s.store.locked
    ensures !Produces(e) && Next(s, e).store.locked && Next(s, e).store.pool == s.store.pool
    ensures s.cap == CTop ==> Next(s, e).cap == CTop
  {
    if Produces(e) { ProduceNeedsLock(s, e); }
    LockExactly(s, e);
    if Victim(s, e) == -1 {
      OthersKeepPool(s, e);
    } else {
      VictimCanBeReleased(s, e);
      VictimIsReleased(s, e);
      ReleaseWhileLocked(s.store, Victim(s, e));
    }
    if s.cap == CTop { TopStays(s, e); }
  }

  /** Main result: once the pool lock is left held, by the capture task or by the
      interrupt and wherever the capture task is, no group is taken and none is recycled
      any more; a capture task at the top of its loop stays there. */
  lemma {:induction false} LockedForever(s: State, es: seq<Event>, t: State)
    requires s.store.locked && Run(s, es, t)
    ensures t.store.locked && t.store.pool == s.store.pool && !CanProduce(t)
    ensures forall i :: 0 <= i < |es| ==> !Produces(es[i])
    ensures s.cap == CTop ==> t.cap == CTop
    decreases |es|
  {
    if es != [] {
      LockedStep(s, es[0]);
      LockedForever(Next(s, es[0]), es[1..], t);
      assert forall i :: 0 < i < |es| ==> es[i] == es[1..][i - 1];
    }
  }

  /** The lock is held and the capture task waits for it. */
  predicate Locked(s: State) {
    s.store.locked && s.cap == CTop
  }

  // ---------------------------------------------------------------- how it comes to that

  /** The capture task at `cap`, with an image of channel 1 waiting in the driver. */
  predicate Ready(s: State, cap: Capture, b: nat) {
    s.store.channels == Both && s.cap == cap && !s.store.locked && b < BUFS && s.store.queue1[b] > 0
  }

  lemma SkipTake(s: State, b: nat)
    requires Inv(s) && Ready(s, CTop, b) && s.store.pool != []
    ensures Enabled(s, CapTake) && Inv(Next(s, CapTake)) && Ready(Next(s, CapTake), CRaw(s.store.pool[0]), b)
    ensures Next(s, CapTake) == s.(store := TakeGroup(s.store), cap := CRaw(s.store.pool[0]))
  {
    TakeGroupKeeps(s.store, Phases(s));
    StepInv(s, CapTake);
  }

  /** One image of channel 1 taken and given back during a reset. */
  lemma SkipFirst(s: State, b: nat)
    requires Inv(s) && s.cap.CRaw? && Ready(s, s.cap, b)
    ensures CanFirst(s, b) && CanSkip(FirstStep(s, b))
    ensures var t := SkipStep(FirstStep(s, b));
            && Inv(t) && Ready(t, CTop, b) && t.store.pool == s.store.pool && |t.dropped| == |s.dropped| + 1
  {
    assert GroupOwed(s, s.cap.g);
    FirstKeeps(s, b);
    SkipKeeps(FirstStep(s, b));
    assert FirstStep(s, b).store.queue1 + multiset{b} == s.store.queue1;
  }

  lemma SkipRun(s: State, b: nat, es: seq<Event>, t: State)
    requires CanFirst(s, b) && CanSkip(FirstStep(s, b)) && Run(SkipStep(FirstStep(s, b)), es, t)
    ensures Run(s, [CapFirst(b), CapSkip] + es, t)
  {
    RunCons(FirstStep(s, b), CapSkip, es, t);
    RunCons(s, CapFirst(b), [CapSkip] + es, t);
    assert [CapFirst(b)] + ([CapSkip] + es) == [CapFirst(b), CapSkip] + es;
  }

  lemma TakeLocks(s: State)
    requires s.cap == CTop && CanProduce(s) && s.store.pool == []
    ensures Run(s, [CapTake], TakeStep(s)) && Locked(TakeStep(s))
    ensures TakeStep(s) == s.(store := s.store.(locked := true))
  {
    assert Run(Next(s, CapTake), [], TakeStep(s));
  }

  function AfterSkip(s: State, b: nat): State
    requires CanFirst(s, b) && CanSkip(FirstStep(s, b))
  {
    SkipStep(FirstStep(s, b))
  }

  lemma OneTrip(s: State, b: nat)
    requires Inv(s) && Ready(s, CTop, b) && s.store.pool != []
    ensures Enabled(s, CapTake) && CanFirst(Next(s, CapTake), b) && CanSkip(FirstStep(Next(s, CapTake), b))
    ensures var t := AfterSkip(Next(s, CapTake), b);
            Inv(t) && Ready(t, CTop, b) && t.store.pool == s.store.pool[1..] && |t.dropped| == |s.dropped| + 1
  {
    SkipTake(s, b);
    SkipFirst(Next(s, CapTake), b);
  }

  /** Main result: with two channels, images skipped one after another drain the pool,
      and the next image leaves the lock held: no more than one waiting image of channel
      1 is needed, and no other task takes part. */
  lemma {:induction false} SkipsEndLocked(s: State, b: nat) returns (es: seq<Event>, t: State)
    requires Inv(s) && Ready(s, CTop, b)
    ensures Run(s, es, t) && Locked(t) && t.store.pool == []
    ensures |es| == 3 * |s.store.pool| + 1 && |t.dropped| == |s.dropped| + |s.store.pool|
    decreases |s.store.pool|
  {
    if s.store.pool == [] {
      TakeLocks(s);
      es, t := [CapTake], TakeStep(s);
    } else {
      OneTrip(s, b);
      var s1 := Next(s, CapTake);
      var rest;
      rest, t := SkipsEndLocked(AfterSkip(s1, b), b);
      SkipRun(s1, b, rest, t);
      es := [CapTake] + ([CapFirst(b), CapSkip] + rest);
      RunCons(s, CapTake, [CapFirst(b), CapSkip] + rest, t);
    }
  }

  /** From the start, 97 steps of the capture task are enough. */
  lemma ResetsCanStopCapture(s: State) returns (es: seq<Event>, t: State)
    requires IsInit(s) && s.store.channels == Both
    ensures |es| == 97 && Run(s, es, t) && Locked(t) && t.store.pool == []
  {
    InitInv(s);
    es, t := SkipsEndLocked(s, 0);
  }
}
