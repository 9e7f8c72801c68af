/** How far the group pool can run down: with one video channel it never runs out
    (image/sample_factory.c:20-46, image/video_context.h:11). */
module PipelineBounds {
  import opened GroupStore
  import opened Pipeline
  import opened PipelineInv
  import opened PipelineResults
  import D = DspProtocol

  // ---------------------------------------------------------------- counting groups

  ghost function OwedGroups(s: State): set<nat>
    requires D.Sized(s.dsp)
  {
    set g: nat | g < GROUPS && PhaseOf(s, g).Owed?
  }

  ghost function Pooled(s: State): set<nat> {
    set g | g in s.store.pool
  }

  /** The image of a group from its last channel. */
  function LastImage(gr: Group): nat {
    if gr.imageNum == 2 then gr.image1 else gr.image0
  }

  /** Groups with pairwise different images are no more than the images. */
  lemma {:induction false} Pigeonhole(st: Store, held: set<nat>, images: set<nat>)
    requires Sized(st) && forall g :: g in held ==> g < GROUPS && LastImage(st.group[g]) in images
    requires forall g, h :: g in held && h in held && g != h ==> LastImage(st.group[g]) != LastImage(st.group[h])
    ensures |held| <= |images|
    decreases |held|
  {
    if held != {} {
      var g :| g in held;
      Pigeonhole(st, held - {g}, images - {LastImage(st.group[g])});
    }
  }

  function Between(lo: nat, hi: nat): (range: set<nat>)
    requires lo <= hi
    ensures |range| == hi - lo && forall b: nat :: b in range <==> lo <= b < hi
    decreases hi - lo
  {
    if lo == hi then {} else Between(lo, hi - 1) + {hi - 1}
  }

  /** The buffers a LastImage can be: 17 with channel 1 alone, otherwise 7. */
  function ChannelImages(ch: Channels): (images: set<nat>)
    ensures |images| == if ch == Only1 then VID1_BUF_MAX else VID2_BUF_MAX
    ensures forall b: nat :: b in images ==> InUse(ch, b)
    ensures ch != Both ==> forall b: nat :: b in images <==> InUse(ch, b)
  {
    Between(if ch == Only1 then 0 else VID1_BUF_MAX, if ch == Only1 then VID1_BUF_MAX else VP_BUFS)
  }

  lemma OwedImage(s: State, g: nat)
    requires Inv(s) && g < GROUPS && PhaseOf(s, g).Owed?
    ensures CameraImages(s.store.channels, s.store.group[g])
    ensures Holds(s.store.group[g], Phases(s)[g], LastImage(s.store.group[g]))
    ensures LastImage(s.store.group[g]) in ChannelImages(s.store.channels)
  {
    OthersImages(s.store, Phases(s), g, g);
  }

  /** No more groups share images than there are images they could share. */
  lemma OwedFit(s: State, groups: set<nat>, images: set<nat>)
    requires Inv(s) && groups <= OwedGroups(s)
    requires forall g :: g in groups ==> LastImage(s.store.group[g]) in images
    ensures |groups| <= |images|
  {
    forall g, h | g in groups && h in groups && g != h
      ensures LastImage(s.store.group[g]) != LastImage(s.store.group[h])
    {
      OwedImage(s, g);
      OwedImage(s, h);
      OthersImages(s.store, Phases(s), g, h);
    }
    Pigeonhole(s.store, groups, images);
  }

  lemma {:induction false} PooledFit(q: seq<nat>, groups: set<nat>)
    requires forall g :: g in groups ==> g in q
    ensures |groups| <= |q|
  {
    if q != [] {
      assert forall g :: g in groups - {q[0]} ==> g in q[1..];
      PooledFit(q[1..], groups - {q[0]});
      assert groups <= (groups - {q[0]}) + {q[0]};
    } else {
      assert groups == {};
    }
  }

  // ---------------------------------------------------------------- the pool is never empty

  lemma Subset(a: set<nat>, b: set<nat>)
    requires a <= b
    ensures |a| <= |b|
  {
    assert b == a + (b - a);
  }

  lemma LeftInPool(pool: seq<nat>, all: set<nat>, pooled: set<nat>, owed: set<nat>, unshared: set<nat>)
    requires forall g :: g in pooled ==> g in pool
    requires forall g :: g in all - pooled ==> g in owed + unshared
    ensures |pool| >= |all| - |owed| - |unshared|
  {
    Subset(all, pooled + (owed + unshared));
    PooledFit(pool, pooled);
  }

  /** Groups that the capture task or the interrupt has and nobody shares. */
  ghost function Unshared(s: State): set<nat> {
    (if s.cap.CRaw? || s.cap.CHalf? then {s.cap.g} else {})
    + (if s.over.OGot? || s.over.OFilled? then {s.over.g} else {})
  }

  lemma UnsharedAreFew(s: State)
    ensures |Unshared(s)| <= 2
  {
    var a := if s.cap.CRaw? || s.cap.CHalf? then {s.cap.g} else {};
    var b := if s.over.OGot? || s.over.OFilled? then {s.over.g} else {};
    assert |a| <= 1 && |b| <= 1 && |a + b| <= |a| + |b|;
  }

  lemma OutOfPool(s: State, g: nat)
    requires Inv(s) && g < GROUPS && g !in s.store.pool
    ensures g in OwedGroups(s) || g in Unshared(s) + s.dropped
  {
    InPoolIffFree(s, g);
  }

  lemma OwedAreFew(s: State)
    requires Inv(s)
    ensures |OwedGroups(s)| <= |ChannelImages(s.store.channels)|
  {
    forall g | g in OwedGroups(s) ensures LastImage(s.store.group[g]) in ChannelImages(s.store.channels) {
      OwedImage(s, g);
    }
    OwedFit(s, OwedGroups(s), ChannelImages(s.store.channels));
  }

  lemma Spread(s: State, all: set<nat>)
    requires Inv(s) && forall g :: g in all ==> g < GROUPS
    ensures forall g :: g in all - Pooled(s) ==> g in OwedGroups(s) + (Unshared(s) + s.dropped)
  {
    forall g | g in all - Pooled(s) ensures g in OwedGroups(s) + (Unshared(s) + s.dropped) {
      OutOfPool(s, g);
    }
  }

  /** What is left in the pool, with one channel or two: the groups that share images are
      no more than the images, one waits for an image, one belongs to the interrupt. */
  lemma PoolBound(s: State)
    requires Inv(s)
    ensures |s.store.pool| >= GROUPS - |ChannelImages(s.store.channels)| - 2 - |s.dropped|
  {
    var all := Between(0, |s.store.group|);
    Spread(s, all);
    OwedAreFew(s);
    UnsharedAreFew(s);
    LeftInPool(s.store.pool, all, Pooled(s), OwedGroups(s), Unshared(s) + s.dropped);
    assert |Unshared(s) + s.dropped| <= |Unshared(s)| + |s.dropped|;
  }

  /** No group has been dropped, and the pool lock is not left held. */
  ghost predicate Intact(s: State) {
    Inv(s) && s.dropped == {} && !s.store.locked && s.over != OCrashed
  }

  /** One video channel is enabled. */
  ghost predicate SoleOk(s: State) {
    Intact(s) && s.store.channels != Both
  }

  lemma PoolIsLarge(s: State)
    requires SoleOk(s)
    ensures |s.store.pool| >= GROUPS - VID1_BUF_MAX - 2
  {
    PoolBound(s);
  }

  /** Only an empty pool makes the lock stick or the interrupt crash, only the skip
      branch drops a group, and no step changes the channels. */
  ghost predicate Harmless(s: State, s': State) {
    && s'.store.channels == s.store.channels && s'.store.locked == s.store.locked
    && s'.dropped == s.dropped && (s.over != OCrashed ==> s'.over != OCrashed)
  }

  lemma TakingIsHarmless(s: State, e: Event)
    requires Enabled(s, e) && s.store.pool != [] && (e.CapTake? || e.OverTake?)
    ensures Harmless(s, Next(s, e))
  {}

  lemma FillingIsHarmless(s: State, e: Event)
    requires Enabled(s, e) && (e.CapFirst? || e.CapSecond? || e.OverFill?)
    ensures Harmless(s, Next(s, e))
  {
    match e {
      case CapFirst(b) => assert Next(s, e) == FirstStep(s, b);
      case CapSecond(b) => assert Next(s, e) == SecondStep(s, b);
      case OverFill(wheel) => assert Next(s, e) == OverFillStep(s, wheel);
    }
  }

  lemma WritingIsHarmless(s: State, e: Event)
    requires Enabled(s, e) && (e.CapNumber? || e.CapJudge? || e.WorkFinish?)
    ensures Harmless(s, Next(s, e))
  {}

  lemma ReleasingKeepsDropped(s: State, e: Event)
    requires Enabled(s, e) && Victim(s, e) != -1 && (e.CapDiscard? || e.CapRoute? || e.CapSend? || e.OverSend?)
    ensures Next(s, e).dropped == s.dropped && (s.over != OCrashed ==> Next(s, e).over != OCrashed)
  {}

  lemma RoutesKeepDropped(s: State, e: Event)
    requires Enabled(s, e) && (e.ShowHand? || e.UiFinish? || e.SendHand? || e.WorkReport? || e.WorkRoute?)
    ensures Next(s, e).dropped == s.dropped && Next(s, e).over == s.over
  {}

  lemma ReleasingIsHarmless(s: State, e: Event)
    requires Enabled(s, e) && Victim(s, e) != -1
    ensures Harmless(s, Next(s, e))
  {
    VictimIsReleased(s, e);
    ReleaseKeepsGroups(s.store, Victim(s, e));
    if e.CapDiscard? || e.CapRoute? || e.CapSend? || e.OverSend? {
      ReleasingKeepsDropped(s, e);
    } else {
      RoutesKeepDropped(s, e);
    }
  }

  lemma MailIsHarmless(s: State, e: Event)
    requires Enabled(s, e) && Victim(s, e) == -1 && (e.CapShow? || e.CapRoute? || e.SendPend?)
    ensures Harmless(s, Next(s, e))
  {}

  lemma ShowIsHarmless(s: State, e: Event)
    requires Enabled(s, e) && Victim(s, e) == -1 && (e.ShowPend? || e.ShowHand? || e.UiPend?)
    ensures Harmless(s, Next(s, e))
  {}

  lemma WorkRouteIsHarmless(s: State, d: nat, upload: bool)
    requires CanWorkRoute(s, d, upload) && (s.sendMode == 2 ==> upload)
    ensures Harmless(s, WorkRouteStep(s, d, upload))
  {
    assert WorkRouteStep(s, d, upload).store == s.store;
  }

  lemma InnerIsHarmless(s: State, e: Event)
    requires Enabled(s, e) && (e.UiReady? || e.DspStep? || e.NetStep? || e.CounterReset? || e.SetModes?)
    ensures Harmless(s, Next(s, e))
  {}

  lemma MostAreHarmless(s: State, e: Event)
    requires Enabled(s, e) && !e.CapSkip? && (e.CapTake? || e.OverTake? ==> s.store.pool != [])
    ensures Harmless(s, Next(s, e))
  {
    if Victim(s, e) != -1 { ReleasingIsHarmless(s, e); }
    else if e.CapTake? || e.OverTake? { TakingIsHarmless(s, e); }
    else if e.CapFirst? || e.CapSecond? || e.OverFill? { FillingIsHarmless(s, e); }
    else if e.CapNumber? || e.CapJudge? || e.WorkFinish? { WritingIsHarmless(s, e); }
    else if e.UiReady? || e.DspStep? || e.NetStep? || e.CounterReset? || e.SetModes? { InnerIsHarmless(s, e); }
    else if e.WorkRoute? { WorkRouteIsHarmless(s, e.d, e.upload); }
    else if e.ShowPend? || e.ShowHand? || e.UiPend? { ShowIsHarmless(s, e); }
    else { MailIsHarmless(s, e); }
  }

  lemma ChannelsStay(s: State, e: Event)
    requires Enabled(s, e)
    ensures Next(s, e).store.channels == s.store.channels
  {
    if !e.CapSkip? && (e.CapTake? || e.OverTake? ==> s.store.pool != []) { MostAreHarmless(s, e); }
  }

  lemma IntactStep(s: State, e: Event)
    requires Intact(s) && Enabled(s, e) && !e.CapSkip?
    ensures Intact(Next(s, e)) && Next(s, e).store.channels == s.store.channels
  {
    PoolBound(s);
    StepInv(s, e);
    MostAreHarmless(s, e);
  }

  lemma SoleStep(s: State, e: Event)
    requires SoleOk(s) && Enabled(s, e)
    ensures SoleOk(Next(s, e))
  {
    IntactStep(s, e);
  }

  /** Main result: with one video channel the pool of 32 groups always has at least 13
      left, so that neither the capture task nor the interrupt ever finds it empty: the
      branch that returns with the lock held is not reached. */
  lemma {:induction false} PoolNeverEmpty(s: State, es: seq<Event>, t: State)
    requires IsInit(s) || SoleOk(s)
    requires s.store.channels != Both && Run(s, es, t)
    ensures SoleOk(t) && |t.store.pool| >= GROUPS - VID1_BUF_MAX - 2
    decreases |es|
  {
    if IsInit(s) { InitInv(s); }
    if es == [] {
      PoolIsLarge(t);
    } else {
      SoleStep(s, es[0]);
      PoolNeverEmpty(Next(s, es[0]), es[1..], t);
    }
  }
}
