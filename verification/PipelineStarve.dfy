/** How many lost groups and buffers stop the capture task, with one channel and with two:
    exactly as many as the last channel has buffers. */
module PipelineStarve {
  import opened GroupStore
  import opened Pipeline
  import opened PipelineInv
  import opened PipelineResults
  import opened PipelineBounds
  import opened PipelineLimits
  import opened PipelineLeaks

  // ---------------------------------------------------------------- how much can be lost

  /** The driver queue of the last channel enabled. A pair waits there with its first
      image; its buffers are ChannelImages. */
  function LastQueue(st: Store): multiset<nat> {
    if st.channels == Only1 then st.queue1 else st.queue2
  }

  ghost function LastStray(s: State): set<nat> {
    s.store.stray * ChannelImages(s.store.channels)
  }

  /** How many images of the last channel are lost. */
  ghost function Lost(s: State): nat {
    |Forgotten(s)| + |LastStray(s)|
  }

  /** The capture task can go on with buffer b of the last channel. */
  predicate CanLast(s: State, b: nat) {
    if s.store.channels == Both then CanSecond(s, b) else CanFirst(s, b)
  }

  lemma QueuedInUse(st: Store, ph: seq<Phase>, b: nat)
    requires StoreInv(st, ph) && LastQueue(st)[b] > 0
    ensures b in ChannelImages(st.channels) && b !in st.stray && Queued(st, b) == 1
  {
    assert BufferOk(st, ph, b);
  }

  lemma OfLastQueue(st: Store, ph: seq<Phase>, b: nat)
    requires StoreInv(st, ph) && b in ChannelImages(st.channels)
    ensures LastQueue(st)[b] == Queued(st, b) <= 1 && InUse(st.channels, b)
  {
    assert BufferOk(st, ph, b);
  }

  /** A queued buffer is neither stray nor an image of a forgotten group. */
  lemma HeldElsewhere(s: State, g: nat, b: nat)
    requires Inv(s) && g in Forgotten(s) && Queued(s.store, b) > 0
    ensures g in OwedGroups(s) && LastImage(s.store.group[g]) in ChannelImages(s.store.channels) - {b} - s.store.stray
  {
    ForgottenIsHeld(s, g);
    OwedImage(s, g);
    NotHeld(s.store, Phases(s), b);
    assert BufferOk(s.store, Phases(s), LastImage(s.store.group[g]));
  }

  lemma AllHeldElsewhere(s: State, b: nat)
    requires Inv(s) && Queued(s.store, b) > 0
    ensures |Forgotten(s)| <= |ChannelImages(s.store.channels) - {b} - s.store.stray|
  {
    var left := ChannelImages(s.store.channels) - {b} - s.store.stray;
    forall g | g in Forgotten(s) ensures g in OwedGroups(s) && LastImage(s.store.group[g]) in left {
      HeldElsewhere(s, g, b);
    }
    OwedFit(s, Forgotten(s), left);
  }

  lemma Remaining(all: set<nat>, b: nat, stray: set<nat>)
    requires b in all && b !in stray
    ensures |all - {b} - stray| == |all| - 1 - |stray * all|
  {
    assert all == (all - {b} - stray) + (stray * all) + {b};
    assert |(stray * all) + {b}| == |stray * all| + 1;
  }

  lemma QueuedMeansRoom(s: State, b: nat)
    requires Inv(s) && LastQueue(s.store)[b] > 0
    ensures Lost(s) < |ChannelImages(s.store.channels)|
  {
    QueuedInUse(s.store, Phases(s), b);
    AllHeldElsewhere(s, b);
    Remaining(ChannelImages(s.store.channels), b, s.store.stray);
  }

  lemma {:induction false} LossesGrow(s: State, es: seq<Event>, t: State)
    requires Inv(s) && Run(s, es, t)
    ensures Inv(t) && Forgotten(s) <= Forgotten(t) && s.store.stray <= t.store.stray
    ensures t.store.channels == s.store.channels
    decreases |es|
  {
    if es != [] {
      StepInv(s, es[0]);
      ForgottenExactly(s, es[0]);
      JudgeForgets(s, es[0]);
      StrayExactly(s, es[0]);
      ChannelsStay(s, es[0]);
      LossesGrow(Next(s, es[0]), es[1..], t);
    }
  }

  /** Nothing is handed out any more once as much is lost as there is. */
  lemma NothingQueued(s: State, b: nat)
    requires Inv(s) && Lost(s) >= |ChannelImages(s.store.channels)|
    ensures LastQueue(s.store)[b] == 0 && !CanLast(s, b)
  {
    if LastQueue(s.store)[b] > 0 { QueuedMeansRoom(s, b); }
  }

  lemma LossesCount(forgotten: set<nat>, stray: set<nat>, forgotten': set<nat>, stray': set<nat>)
    requires forgotten <= forgotten' && stray <= stray'
    ensures |forgotten'| + |stray'| >= |forgotten| + |stray|
  {
    Subset(forgotten, forgotten');
    Subset(stray, stray');
  }

  /** Main result: as many forgotten groups and stray buffers as the last channel has
      buffers, 17 or 7, stop the capture task for good: the queue it takes the last
      image of a group from is empty in every continuation. */
  lemma LeaksStarveCapture(s: State, es: seq<Event>, t: State, b: nat)
    requires Inv(s) && Run(s, es, t) && Lost(s) >= |ChannelImages(s.store.channels)|
    ensures LastQueue(t.store)[b] == 0 && !CanLast(t, b)
  {
    LossesGrow(s, es, t);
    LossesCount(Forgotten(s), LastStray(s), Forgotten(t), LastStray(t));
    NothingQueued(t, b);
  }

  /** One image each of a set of groups. */
  ghost function ImagesOf(st: Store, groups: set<nat>, image: Group -> nat): set<nat>
    requires Sized(st)
  {
    set g | g in groups && g < GROUPS :: image(st.group[g])
  }

  lemma {:induction false} ImagesAreFew(st: Store, groups: set<nat>, image: Group -> nat)
    requires Sized(st)
    ensures |ImagesOf(st, groups, image)| <= |groups|
    decreases |groups|
  {
    if groups == {} {
      assert ImagesOf(st, groups, image) == {};
    } else {
      var g :| g in groups;
      ImagesAreFew(st, groups - {g}, image);
      var rest := ImagesOf(st, groups - {g}, image);
      var one := if g < GROUPS then {image(st.group[g])} else {};
      assert ImagesOf(st, groups, image) == rest + one;
      assert |rest + one| <= |rest| + |one|;
    }
  }

  lemma OnlyImage(s: State, g: nat, b: nat)
    requires Inv(s) && g < GROUPS && PhaseOf(s, g).Owed?
    requires b in Images(s.store.group[g]) && b in ChannelImages(s.store.channels)
    ensures b == LastImage(s.store.group[g])
  {
    OwedImage(s, g);
  }

  /** The first image of a pair is not of the last channel. */
  lemma PartnerIsFirst(s: State, b: nat)
    requires Inv(s) && b in ChannelImages(s.store.channels)
    ensures !AwaitsPartner(s, b)
  {
    if s.cap.CHalf? {
      assert GroupOwed(s, s.cap.g);
      assert GroupOk(s.store, Phases(s)[s.cap.g], s.cap.g);
    }
  }

  lemma LostAtRest(s: State, b: nat)
    requires Inv(s) && AtRest(s) && b in ChannelImages(s.store.channels) && LastQueue(s.store)[b] == 0
    ensures b in ImagesOf(s.store, Forgotten(s), LastImage) + LastStray(s)
  {
    OfLastQueue(s.store, Phases(s), b);
    PartnerIsFirst(s, b);
    RestQueue(s, b);
    if b !in s.store.stray {
      var g :| g in Forgotten(s) && g < GROUPS && b in Images(s.store.group[g]);
      ForgottenIsHeld(s, g);
      OnlyImage(s, g, b);
    }
  }

  lemma Leftover(all: set<nat>, lost: set<nat>) returns (b: nat)
    requires |lost| < |all|
    ensures b in all && b !in lost
  {
    if all <= lost { Subset(all, lost); }
    b :| b in all && b !in lost;
  }

  lemma RoomMeansQueued(s: State) returns (b: nat)
    requires Inv(s) && AtRest(s) && Lost(s) < |ChannelImages(s.store.channels)|
    ensures LastQueue(s.store)[b] > 0
  {
    var all := ChannelImages(s.store.channels);
    var lost := ImagesOf(s.store, Forgotten(s), LastImage) + LastStray(s);
    ImagesAreFew(s.store, Forgotten(s), LastImage);
    assert |lost| <= |ImagesOf(s.store, Forgotten(s), LastImage)| + |LastStray(s)|;
    b := Leftover(all, lost);
    if LastQueue(s.store)[b] == 0 { LostAtRest(s, b); }
  }

  // ---------------------------------------------------------------- the first channel of two

  /** The strays of channel 1, when channel 2 is the last. */
  ghost function FirstStray(s: State): set<nat> {
    s.store.stray - ChannelImages(s.store.channels)
  }

  /** With two channels, buffers go astray in pairs. */
  ghost predicate InPairs(s: State) {
    s.store.channels == Both ==> |FirstStray(s)| == |LastStray(s)|
  }

  lemma DiscardedPair(s: State)
    requires Inv(s) && CanDiscard(s) && s.store.channels == Both
    ensures var gr := s.store.group[s.cap.g];
            && gr.image0 !in ChannelImages(Both) && gr.image1 in ChannelImages(Both)
            && Images(gr) == [gr.image0, gr.image1]
            && gr.image0 !in s.store.stray && gr.image1 !in s.store.stray
  {
    var g := s.cap.g;
    DiscardOwed(s);
    OthersImages(s.store, Phases(s), g, g);
    assert BufferOk(s.store, Phases(s), s.store.group[g].image0);
    assert BufferOk(s.store, Phases(s), s.store.group[g].image1);
  }

  lemma PairAdded(stray: set<nat>, all: set<nat>, a: nat, b: nat)
    requires a !in stray && b !in stray && a !in all && b in all
    ensures var more := stray + {a, b};
            |more - all| == |stray - all| + 1 && |more * all| == |stray * all| + 1
  {
    assert (stray + {a, b}) - all == (stray - all) + {a};
    assert (stray + {a, b}) * all == (stray * all) + {b};
  }

  lemma PairBalanced(stray: set<nat>, all: set<nat>, gr: Group)
    requires Images(gr) == [gr.image0, gr.image1] && gr.image0 !in stray && gr.image1 !in stray
    requires gr.image0 !in all && gr.image1 in all && |stray - all| == |stray * all|
    ensures var more := stray + set b | b in Images(gr);
            |more - all| == |more * all|
  {
    assert (set b | b in Images(gr)) == {gr.image0, gr.image1};
    assert stray + (set b | b in Images(gr)) == stray + {gr.image0, gr.image1};
    PairAdded(stray, all, gr.image0, gr.image1);
  }

  lemma LosesPair(s: State)
    requires Inv(s) && CanDiscard(s) && s.store.channels == Both && InPairs(s)
    ensures var more := s.store.stray + set b | b in Images(s.store.group[s.cap.g]);
            |more - ChannelImages(Both)| == |more * ChannelImages(Both)|
  {
    DiscardedPair(s);
    PairBalanced(s.store.stray, ChannelImages(Both), s.store.group[s.cap.g]);
  }

  lemma PairsStep(s: State, e: Event)
    requires Inv(s) && Enabled(s, e) && InPairs(s)
    ensures InPairs(Next(s, e))
  {
    StrayExactly(s, e);
    ChannelsStay(s, e);
    if LosesImages(s, e) && s.store.channels == Both { LosesPair(s); }
  }

  lemma InitInPairs(s: State)
    requires IsInit(s)
    ensures Inv(s) && InPairs(s)
  {
    InitInv(s);
  }

  /** In every reachable state. */
  lemma {:induction false} StraysInPairs(s: State, es: seq<Event>, t: State)
    requires Inv(s) && InPairs(s) && Run(s, es, t)
    ensures Inv(t) && InPairs(t)
    decreases |es|
  {
    if es != [] {
      StepInv(s, es[0]);
      PairsStep(s, es[0]);
      StraysInPairs(Next(s, es[0]), es[1..], t);
    }
  }

  lemma OfFirstQueue(st: Store, ph: seq<Phase>, b: nat)
    requires StoreInv(st, ph) && st.channels == Both && b < VID1_BUF_MAX
    ensures st.queue1[b] == Queued(st, b) <= 1 && InUse(st.channels, b) && b !in ChannelImages(st.channels)
  {
    assert BufferOk(st, ph, b);
  }

  function FirstImage(gr: Group): nat {
    gr.image0
  }

  /** The first image, if any, that waits for its partner. */
  ghost function Partner(s: State): set<nat> {
    if s.cap.CHalf? && s.cap.g < |s.store.group| then {s.store.group[s.cap.g].image0} else {}
  }

  ghost function FirstLost(s: State): set<nat>
    requires Sized(s.store)
  {
    ImagesOf(s.store, Forgotten(s), FirstImage) + FirstStray(s) + Partner(s)
  }

  lemma FirstLostAtRest(s: State, b: nat)
    requires Inv(s) && AtRest(s) && s.store.channels == Both && b < VID1_BUF_MAX && s.store.queue1[b] == 0
    ensures b in FirstLost(s)
  {
    OfFirstQueue(s.store, Phases(s), b);
    RestQueue(s, b);
    if b !in s.store.stray && !AwaitsPartner(s, b) {
      var g :| g in Forgotten(s) && g < GROUPS && b in Images(s.store.group[g]);
      ForgottenIsHeld(s, g);
      OwedImage(s, g);
    }
  }

  lemma UnionIsSmall(a: set<nat>, b: set<nat>, c: set<nat>)
    ensures |a + b + c| <= |a| + |b| + |c|
  {
    assert |a + b| <= |a| + |b|;
  }

  lemma FewFirstLost(s: State)
    requires Sized(s.store) && s.store.channels == Both && InPairs(s)
    ensures |FirstLost(s)| <= Lost(s) + 1
  {
    ImagesAreFew(s.store, Forgotten(s), FirstImage);
    UnionIsSmall(ImagesOf(s.store, Forgotten(s), FirstImage), FirstStray(s), Partner(s));
    assert |Partner(s)| <= 1;
  }

  /** Channel 1 has ten buffers more, so it does not run out before channel 2 does. */
  lemma FirstQueued(s: State) returns (b: nat)
    requires Inv(s) && AtRest(s) && s.store.channels == Both && InPairs(s) && Lost(s) < VID2_BUF_MAX
    ensures s.store.queue1[b] > 0
  {
    FewFirstLost(s);
    b := Leftover(Between(0, VID1_BUF_MAX), FirstLost(s));
    if s.store.queue1[b] == 0 { FirstLostAtRest(s, b); }
  }

  // ---------------------------------------------------------------- the exact threshold

  /** The driver has what the capture task needs to complete a group. */
  ghost predicate Supplied(s: State) {
    && (exists b: nat :: LastQueue(s.store)[b] > 0)
    && (s.store.channels == Both && !s.cap.CHalf? ==> exists b: nat :: s.store.queue1[b] > 0)
  }

  /** Main result: that threshold is exact. At rest, and a capture task blocked in the
      driver is at rest, the driver has an image for every channel if and only if fewer
      groups are forgotten and buffers stray than the last channel has buffers. */
  lemma StarvedExactly(s: State)
    requires Inv(s) && AtRest(s) && InPairs(s)
    ensures Supplied(s) <==> Lost(s) < |ChannelImages(s.store.channels)|
  {
    if Lost(s) < |ChannelImages(s.store.channels)| {
      var b := RoomMeansQueued(s);
      if s.store.channels == Both {
        var a := FirstQueued(s);
      }
    }
    if b: nat :| LastQueue(s.store)[b] > 0 { QueuedMeansRoom(s, b); }
  }

  /** After every run from the start. */
  lemma ReachableStarvedExactly(s: State, es: seq<Event>, t: State)
    requires IsInit(s) && Run(s, es, t) && AtRest(t)
    ensures Inv(t) && (Supplied(t) <==> Lost(t) < |ChannelImages(t.store.channels)|)
  {
    InitInPairs(s);
    StraysInPairs(s, es, t);
    StarvedExactly(t);
  }

  /** With one channel every stray buffer is of it, and its queue is the only one. */
  lemma SoleLosses(s: State)
    requires Inv(s) && s.store.channels != Both
    ensures Lost(s) == |Forgotten(s)| + |s.store.stray|
    ensures forall b: nat :: LastQueue(s.store)[b] == Queued(s.store, b)
  {
    forall b | b in s.store.stray ensures b in ChannelImages(s.store.channels) {
      assert BufferOk(s.store, Phases(s), b);
    }
    assert LastStray(s) == s.store.stray;
    forall b: nat ensures LastQueue(s.store)[b] == Queued(s.store, b) {
      assert BufferOk(s.store, Phases(s), b);
    }
  }
}
