/** Runs from the initial state, with one video channel and with two, that end in the losses
    of PipelineLimits, PipelineLeaks and PipelineStarve. */
module PipelineRuns {
  import opened Counting
  import opened GroupStore
  import opened Pipeline
  import opened PipelineInv
  import opened PipelineResults
  import opened PipelineBounds
  import opened PipelineLimits
  import opened PipelineLeaks
  import opened PipelineStarve
  import D = DspProtocol

  /** What taking one image changes outside the store, the capture task, the numbering,
      the uploads and the UI mailbox: nothing. */
  ghost predicate SameElse(s: State, s': State) {
    && s'.sendMode == s.sendMode && s'.judgeMode == s.judgeMode && s'.dsp == s.dsp
    && s'.stuckImage == s.stuckImage && s'.stuckResult == s.stuckResult
    && s'.store.stray == s.store.stray && s'.store.channels == s.store.channels
  }

  /** Only buffers a and b left the driver queues. */
  ghost predicate Took(s: State, s': State, a: nat, b: nat) {
    forall c: nat :: c != a && c != b ==>
      s'.store.queue1[c] == s.store.queue1[c] && s'.store.queue2[c] == s.store.queue2[c]
  }

  /** Buffer a is there for the first image and, with two channels, b for the second. */
  predicate Offered(s: State, a: nat, b: nat) {
    && a < BUFS && FirstQueue(s.store)[a] > 0
    && (s.store.channels == Both ==> b < BUFS && s.store.queue2[b] > 0)
  }

  predicate CanTake(s: State, a: nat, b: nat) {
    CanProduce(s) && s.cap == CTop && s.store.pool != [] && Offered(s, a, b)
  }

  /** The steps up to a complete group: with two channels one more. */
  function TakeEvents(ch: Channels, a: nat, b: nat): (es: seq<Event>)
    ensures |es| == if ch == Both then 3 else 2
  {
    [CapTake, CapFirst(a)] + (if ch == Both then [CapSecond(b)] else [])
  }

  function Taken(s: State, a: nat, b: nat): State
    requires CanTake(s, a, b)
  {
    var t := FirstStep(TakeStep(s), a);
    if s.store.channels == Both then SecondStep(t, b) else t
  }

  lemma TakeIsPossible(s: State, a: nat, b: nat)
    requires Intact(s) && s.cap == CTop && Offered(s, a, b)
    ensures CanTake(s, a, b) && s.store.pool[0] !in Forgotten(s)
  {
    PoolBound(s);
    InPoolIffFree(s, s.store.pool[0]);
    if s.store.pool[0] in Forgotten(s) { ForgottenIsHeld(s, s.store.pool[0]); }
  }

  lemma FirstTakenKeeps(s: State, a: nat, b: nat)
    requires Intact(s) && CanTake(s, a, b)
    ensures Intact(FirstStep(TakeStep(s), a))
  {
    IntactStep(s, CapTake);
    IntactStep(TakeStep(s), CapFirst(a));
  }

  lemma SecondTakenKeeps(s: State, b: nat)
    requires Intact(s) && CanSecond(s, b)
    ensures Intact(SecondStep(s, b))
  {
    IntactStep(s, CapSecond(b));
  }

  lemma TakenKeeps(s: State, a: nat, b: nat)
    requires Intact(s) && CanTake(s, a, b)
    ensures Intact(Taken(s, a, b))
  {
    FirstTakenKeeps(s, a, b);
    if s.store.channels == Both { SecondTakenKeeps(FirstStep(TakeStep(s), a), b); }
  }

  function ImagesTaken(ch: Channels, a: nat, b: nat): seq<nat> {
    if ch == Both then [a, b] else [a]
  }

  lemma FirstIsTaken(s: State, a: nat, b: nat)
    requires CanTake(s, a, b)
    ensures var t := FirstStep(TakeStep(s), a);
            && SameElse(s, t) && t.num == s.num && Took(s, t, a, a) && |t.store.group| == |s.store.group|
            && t.store.group[s.store.pool[0]].source == s.store.group[s.store.pool[0]].source
            && t.store.group[s.store.pool[0]].image0 == a
            && if s.store.channels == Both then t.cap == CHalf(s.store.pool[0])
               else t.cap == CGot(s.store.pool[0]) && Images(t.store.group[s.store.pool[0]]) == [a]
  {}

  lemma SecondIsTaken(s: State, b: nat)
    requires CanSecond(s, b)
    ensures var t := SecondStep(s, b);
            && t.cap == CGot(s.cap.g) && SameElse(s, t) && t.num == s.num && Took(s, t, b, b)
            && |t.store.group| == |s.store.group|
            && t.store.group[t.cap.g].source == s.store.group[t.cap.g].source
            && Images(t.store.group[t.cap.g]) == [s.store.group[t.cap.g].image0, b]
  {}

  lemma WhatIsTaken(s: State, a: nat, b: nat)
    requires CanTake(s, a, b)
    ensures var t := Taken(s, a, b);
            && t.cap == CGot(s.store.pool[0]) && SameElse(s, t) && t.num == s.num && Took(s, t, a, b)
            && |t.store.group| == |s.store.group|
            && t.store.group[t.cap.g].source == s.store.group[t.cap.g].source
            && Images(t.store.group[t.cap.g]) == ImagesTaken(s.store.channels, a, b)
  {
    FirstIsTaken(s, a, b);
    if s.store.channels == Both { SecondIsTaken(FirstStep(TakeStep(s), a), b); }
  }

  lemma TakeOne(s: State, a: nat, b: nat)
    requires Intact(s) && s.cap == CTop && Offered(s, a, b)
    ensures CanTake(s, a, b) && s.store.pool[0] !in Forgotten(s)
    ensures var t := Taken(s, a, b);
            && Intact(t) && t.cap == CGot(s.store.pool[0]) && SameElse(s, t) && Took(s, t, a, b)
  {
    TakeIsPossible(s, a, b);
    TakenKeeps(s, a, b);
    WhatIsTaken(s, a, b);
  }

  lemma SecondRun(s: State, b: nat, es: seq<Event>, t: State)
    requires CanSecond(s, b) && Run(SecondStep(s, b), es, t)
    ensures Run(s, [CapSecond(b)] + es, t)
  {
    RunCons(s, CapSecond(b), es, t);
  }

  lemma FirstRun(s: State, a: nat, b: nat, es: seq<Event>, t: State)
    requires CanTake(s, a, b) && Run(FirstStep(TakeStep(s), a), es, t)
    ensures Run(s, [CapTake, CapFirst(a)] + es, t)
  {
    RunCons(TakeStep(s), CapFirst(a), es, t);
    RunCons(s, CapTake, [CapFirst(a)] + es, t);
    assert [CapTake] + ([CapFirst(a)] + es) == [CapTake, CapFirst(a)] + es;
  }

  lemma TakeRun(s: State, a: nat, b: nat, es: seq<Event>, t: State)
    requires CanTake(s, a, b) && Run(Taken(s, a, b), es, t)
    ensures Run(s, TakeEvents(s.store.channels, a, b) + es, t)
  {
    if s.store.channels == Both {
      SecondRun(FirstStep(TakeStep(s), a), b, es, t);
      FirstRun(s, a, b, [CapSecond(b)] + es, t);
      assert [CapTake, CapFirst(a)] + ([CapSecond(b)] + es) == TakeEvents(Both, a, b) + es;
    } else {
      FirstRun(s, a, b, es, t);
      assert TakeEvents(s.store.channels, a, b) == [CapTake, CapFirst(a)];
    }
  }

  // ---------------------------------------------------------------- a stray buffer

  lemma Discarded(s: State, wheel: nat)
    requires Intact(s) && s.cap.CGot? && s.num.c.shoot == s.num.c.sum
    ensures CanNumber(s)
    ensures var t := NumberStep(s, 0, wheel);
            && Intact(t) && t.cap == CDiscard(s.cap.g, 3) && t.store == s.store
  {
    assert GroupOwed(s, s.cap.g);
    IntactStep(s, CapNumber(0, wheel));
  }

  lemma CanDiscardNow(s: State)
    requires Intact(s) && s.cap.CDiscard?
    ensures CanDiscard(s)
  {
    assert GroupOwed(s, s.cap.g);
    OwedImage(s, s.cap.g);
  }

  lemma DiscardOne(s: State)
    requires Intact(s) && s.cap.CDiscard? && s.cap.left > 1
    ensures CanDiscard(s)
    ensures var t := DiscardStep(s);
            && Intact(t) && t.cap == CDiscard(s.cap.g, s.cap.left - 1) && CanDiscard(t)
            && t.store == s.store.(rCount := t.store.rCount)
  {
    CanDiscardNow(s);
    DiscardOwed(s);
    assert Phases(s)[s.cap.g] == PhaseOf(s, s.cap.g);
    ReleaseCounts(s.store, Phases(s), s.cap.g);
    IntactStep(s, CapDiscard);
    CanDiscardNow(DiscardStep(s));
  }

  lemma ThriceRun(s: State, wheel: nat, s1: State, s2: State, t: State)
    requires CanNumber(s) && s1 == NumberStep(s, 0, wheel)
    requires CanDiscard(s1) && s2 == DiscardStep(s1) && CanDiscard(s2) && t == DiscardStep(s2)
    ensures Run(s, [CapNumber(0, wheel), CapDiscard, CapDiscard], t)
  {
    RunCons(s2, CapDiscard, [], t);
    RunCons(s1, CapDiscard, [CapDiscard], t);
    RunCons(s, CapNumber(0, wheel), [CapDiscard, CapDiscard], t);
    assert [CapNumber(0, wheel)] + [CapDiscard, CapDiscard] == [CapNumber(0, wheel), CapDiscard, CapDiscard];
  }

  lemma DiscardRun(s: State, wheel: nat) returns (t: State)
    requires Intact(s) && s.cap.CGot? && s.num.c.shoot == s.num.c.sum
    ensures Run(s, [CapNumber(0, wheel), CapDiscard, CapDiscard], t)
    ensures Intact(t) && t.cap == CDiscard(s.cap.g, 1) && CanDiscard(t) && t.store == s.store.(rCount := t.store.rCount)
  {
    Discarded(s, wheel);
    var s1 := NumberStep(s, 0, wheel);
    DiscardOne(s1);
    var s2 := DiscardStep(s1);
    DiscardOne(s2);
    t := DiscardStep(s2);
    ThriceRun(s, wheel, s1, s2, t);
  }

  function Lose(wheel: nat): seq<Event> {
    [CapNumber(0, wheel), CapDiscard, CapDiscard]
  }

  lemma Strays(s: State)
    requires Intact(s) && CanDiscard(s) && s.cap.left == 1 && s.store.group[s.cap.g].source != 0
    requires s.store.stray == {}
    ensures LosesImages(s, CapDiscard)
    ensures DiscardStep(s).store.stray == set b | b in Images(s.store.group[s.cap.g])
  {
    StrayExactly(s, CapDiscard);
  }

  lemma StraysFrom(s: State, a: nat, b: nat, wheel: nat) returns (t: State)
    requires Intact(s) && s.cap == CTop && s.num.c.shoot == s.num.c.sum && s.store.stray == {}
    requires CanTake(s, a, b) && s.store.group[s.store.pool[0]].source != 0
    ensures Run(s, TakeEvents(s.store.channels, a, b) + Lose(wheel), t)
    ensures Intact(t) && CanDiscard(t) && LosesImages(t, CapDiscard)
    ensures DiscardStep(t).store.stray == set c | c in ImagesTaken(s.store.channels, a, b)
  {
    TakenKeeps(s, a, b);
    WhatIsTaken(s, a, b);
    var taken := Taken(s, a, b);
    t := DiscardRun(taken, wheel);
    TakeRun(s, a, b, Lose(wheel), t);
    Strays(t);
  }

  /** An image taken while the trigger count reads 0 is lost to the driver as soon as its
      group still says, from an earlier use, that the image is not the camera's: from
      the initial state, at the sixth step, or with two channels at the seventh. */
  lemma ImageStrays(s: State, a: nat, b: nat, wheel: nat) returns (t: State)
    requires IsInit(s) && Offered(s, a, b) && s.store.group[0].source != 0
    ensures Run(s, TakeEvents(s.store.channels, a, b) + Lose(wheel), t)
    ensures Inv(t) && CanDiscard(t) && LosesImages(t, CapDiscard)
    ensures DiscardStep(t).store.stray == set c | c in ImagesTaken(s.store.channels, a, b)
  {
    InitInv(s);
    t := StraysFrom(s, a, b, wheel);
  }

  // ---------------------------------------------------------------- a forgotten reference

  /** Send mode 2 with judge mode 0, while the DSP takes no image. */
  ghost predicate Overload(s: State) {
    Intact(s) && Carries(s) && !Accepts(s)
  }

  /** The steps from the numbering of an image to its decision. */
  function ToJudge(wheel: nat): seq<Event> {
    [CapNumber(1, wheel), CapShow, CapRoute]
  }

  lemma WhatIsNumbered(s: State, wheel: nat)
    requires CanNumber(s)
    ensures var t := NumberStep(s, 1, wheel);
            && t.cap == CNumbered(s.cap.g) && SameElse(s, t)
            && t.store.queue1 == s.store.queue1 && t.store.queue2 == s.store.queue2
  {}

  lemma NumberOne(s: State, wheel: nat)
    requires Overload(s) && s.cap.CGot?
    ensures CanNumber(s) && Overload(NumberStep(s, 1, wheel))
  {
    assert GroupOwed(s, s.cap.g);
    WhatIsNumbered(s, wheel);
    IntactStep(s, CapNumber(1, wheel));
  }

  lemma ShowOne(s: State)
    requires Overload(s) && s.cap.CNumbered?
    ensures var t := ShowStep(s);
            Overload(t) && t.cap == CShown(s.cap.g) && SameElse(s, t) && t.store == s.store
  {
    IntactStep(s, CapShow);
  }

  lemma RouteOne(s: State)
    requires Overload(s) && s.cap.CShown?
    ensures CanRoute(s)
    ensures var t := RouteStep(s);
            Overload(t) && t.cap == CRouted(s.cap.g) && CanJudge(t) && SameElse(s, t) && t.store == s.store
  {
    IntactStep(s, CapRoute);
    assert GroupOwed(s, s.cap.g);
  }

  lemma ToJudgeSteps(s: State, wheel: nat, s1: State, s2: State, t: State)
    requires CanNumber(s) && s1 == NumberStep(s, 1, wheel)
    requires s1.cap.CNumbered? && s2 == ShowStep(s1) && CanRoute(s2) && t == RouteStep(s2)
    ensures Run(s, ToJudge(wheel), t)
  {
    RunCons(s2, CapRoute, [], t);
    RunCons(s1, CapShow, [CapRoute], t);
    RunCons(s, CapNumber(1, wheel), [CapShow, CapRoute], t);
    assert [CapNumber(1, wheel)] + [CapShow, CapRoute] == ToJudge(wheel);
  }

  lemma ToJudgeRun(s: State, wheel: nat) returns (t: State)
    requires Overload(s) && s.cap.CGot?
    ensures Run(s, ToJudge(wheel), t)
    ensures Overload(t) && t.cap == CRouted(s.cap.g) && CanJudge(t) && SameElse(s, t)
    ensures t.store.queue1 == s.store.queue1 && t.store.queue2 == s.store.queue2
  {
    NumberOne(s, wheel);
    WhatIsNumbered(s, wheel);
    var s1 := NumberStep(s, 1, wheel);
    ShowOne(s1);
    var s2 := ShowStep(s1);
    RouteOne(s2);
    t := RouteStep(s2);
    ToJudgeSteps(s, wheel, s1, s2, t);
  }

  /** The overload branch of the capture task, and its upload. */
  lemma JudgeOne(s: State)
    requires Overload(s) && CanJudge(s)
    ensures var t := JudgeStep(s);
            && Overload(t) && t.cap == CJudged(s.cap.g)
            && t.stuckImage == s.stuckImage + {s.cap.g} && t.stuckResult == s.stuckResult
            && t.store == s.store.(group := t.store.group)
  {
    IntactStep(s, CapJudge);
  }

  lemma SendNow(s: State)
    requires Overload(s) && s.cap.CJudged? && s.cap.g in s.stuckImage
    ensures CanCapSend(s)
    ensures var t := Release(s.store, s.cap.g); t == s.store.(rCount := t.rCount)
  {
    var g := s.cap.g;
    assert GroupOwed(s, g);
    assert Phases(s)[g] == PhaseOf(s, g) == Owed(Owes(s, g), true);
    assert Owes(s, g) >= 2;
    OwedImage(s, g);
    ReleaseCounts(s.store, Phases(s), g);
  }

  lemma SendOne(s: State)
    requires Overload(s) && s.cap.CJudged? && s.cap.g in s.stuckImage
    ensures CanCapSend(s)
    ensures var t := CapSendStep(s, true, true);
            && Overload(t) && t.cap == CTop && t.stuckImage == s.stuckImage && t.stuckResult == s.stuckResult
            && t.store == s.store.(rCount := t.store.rCount)
  {
    SendNow(s);
    IntactStep(s, CapSend(true, true));
  }

  lemma JudgeSteps(s: State, t: State)
    requires CanJudge(s) && CanCapSend(JudgeStep(s)) && t == CapSendStep(JudgeStep(s), true, true)
    ensures Run(s, [CapJudge, CapSend(true, true)], t)
  {
    RunCons(JudgeStep(s), CapSend(true, true), [], t);
    RunCons(s, CapJudge, [CapSend(true, true)], t);
    assert [CapJudge] + [CapSend(true, true)] == [CapJudge, CapSend(true, true)];
  }

  lemma JudgeRun(s: State) returns (t: State)
    requires Overload(s) && CanJudge(s)
    ensures Run(s, [CapJudge, CapSend(true, true)], t)
    ensures Overload(t) && t.cap == CTop && Forgotten(t) == Forgotten(s) + {s.cap.g}
    ensures t.store == s.store.(group := t.store.group, rCount := t.store.rCount)
  {
    JudgeOne(s);
    var s1 := JudgeStep(s);
    SendOne(s1);
    t := CapSendStep(s1, true, true);
    JudgeSteps(s, t);
  }

  /** The steps for n groups. */
  function StepsFor(ch: Channels, n: nat): nat {
    if ch == Both then 8 * n else 7 * n
  }

  /** All steps of the capture task for one group. */
  function OneImage(ch: Channels, a: nat, b: nat): (es: seq<Event>)
    ensures |es| == StepsFor(ch, 1)
  {
    TakeEvents(ch, a, b) + (ToJudge(0) + [CapJudge, CapSend(true, true)])
  }

  lemma WorkedOff(s: State) returns (t: State)
    requires Overload(s) && s.cap.CGot?
    ensures Run(s, ToJudge(0) + [CapJudge, CapSend(true, true)], t)
    ensures Overload(t) && t.cap == CTop && Forgotten(t) == Forgotten(s) + {s.cap.g}
    ensures t.store.queue1 == s.store.queue1 && t.store.queue2 == s.store.queue2
    ensures t.store.stray == s.store.stray && t.store.channels == s.store.channels
  {
    var s1 := ToJudgeRun(s, 0);
    t := JudgeRun(s1);
    RunJoins(s, ToJudge(0), s1, [CapJudge, CapSend(true, true)], t);
  }

  lemma Added(forgotten: set<nat>, g: nat)
    requires g !in forgotten
    ensures |forgotten + {g}| == |forgotten| + 1
  {}

  /** One image, or pair, during an overload costs one group. */
  lemma OneMore(s: State, a: nat, b: nat) returns (t: State)
    requires Overload(s) && s.cap == CTop && Offered(s, a, b)
    ensures Run(s, OneImage(s.store.channels, a, b), t)
    ensures Overload(t) && t.cap == CTop && |Forgotten(t)| == |Forgotten(s)| + 1 && Took(s, t, a, b)
    ensures t.store.stray == s.store.stray && t.store.channels == s.store.channels
  {
    TakeOne(s, a, b);
    var taken := Taken(s, a, b);
    t := WorkedOff(taken);
    Added(Forgotten(s), taken.cap.g);
    TakeRun(s, a, b, ToJudge(0) + [CapJudge, CapSend(true, true)], t);
  }

  /** The first buffer of the last channel, and the one behind its last. */
  function StartOf(ch: Channels): nat {
    if ch == Only1 then 0 else VID1_BUF_MAX
  }

  function EndOf(ch: Channels): nat {
    if ch == Only1 then VID1_BUF_MAX else VP_BUFS
  }

  /** The buffer of the first image taken along with buffer b of the last channel. */
  function With(ch: Channels, b: nat): nat {
    if ch == Both && b >= VID1_BUF_MAX then b - VID1_BUF_MAX else b
  }

  /** The buffers from b on are all with the driver. */
  ghost predicate QueuedFrom(s: State, b: nat) {
    forall c: nat :: b <= c < EndOf(s.store.channels) ==> Offered(s, With(s.store.channels, c), c)
  }

  lemma StillQueued(s: State, t: State, b: nat)
    requires QueuedFrom(s, b) && StartOf(s.store.channels) <= b < EndOf(s.store.channels)
    requires t.store.channels == s.store.channels && Took(s, t, With(s.store.channels, b), b)
    ensures QueuedFrom(t, b + 1)
  {
    var ch := s.store.channels;
    forall c: nat | b + 1 <= c < EndOf(ch) ensures Offered(t, With(ch, c), c) {
      assert Offered(s, With(ch, c), c);
    }
  }

  lemma NextImage(s: State, b: nat) returns (es: seq<Event>, t: State)
    requires Overload(s) && s.cap == CTop && QueuedFrom(s, b)
    requires StartOf(s.store.channels) <= b < EndOf(s.store.channels)
    ensures Run(s, es, t) && |es| == StepsFor(s.store.channels, 1)
    ensures Overload(t) && t.cap == CTop && QueuedFrom(t, b + 1) && t.store.channels == s.store.channels
    ensures |Forgotten(t)| == |Forgotten(s)| + 1
  {
    assert Offered(s, With(s.store.channels, b), b);
    es := OneImage(s.store.channels, With(s.store.channels, b), b);
    t := OneMore(s, With(s.store.channels, b), b);
    StillQueued(s, t, b);
  }

  lemma {:induction false} ImageAfterImage(s: State, b: nat) returns (es: seq<Event>, t: State)
    requires Overload(s) && s.cap == CTop && QueuedFrom(s, b)
    requires StartOf(s.store.channels) <= b <= EndOf(s.store.channels)
    ensures Run(s, es, t) && Overload(t) && t.store.channels == s.store.channels
    ensures |es| == StepsFor(s.store.channels, EndOf(s.store.channels) - b)
    ensures |Forgotten(t)| == |Forgotten(s)| + EndOf(s.store.channels) - b
    decreases EndOf(s.store.channels) - b
  {
    var ch := s.store.channels;
    if b == EndOf(ch) {
      es, t := [], s;
    } else {
      var first, s1 := NextImage(s, b);
      var rest;
      rest, t := ImageAfterImage(s1, b + 1);
      RunJoins(s, first, s1, rest, t);
      es := first + rest;
    }
  }

  /** The operator selects send mode 2 and judge mode 0, and updates the DSP parameters. */
  function Prepare(): seq<Event> {
    [SetModes(2, 0), DspStep(D.Update)]
  }

  lemma InitIntact(s: State)
    requires IsInit(s)
    ensures Intact(s) && s.cap == CTop && Forgotten(s) == {} && D.Quiet(s.dsp) && s.dsp.rect.RWait?
  {
    InitInv(s);
  }

  lemma ModesSet(s: State)
    requires Intact(s) && s.cap == CTop && D.Quiet(s.dsp)
    ensures CanSetModes(s)
    ensures var t := s.(sendMode := 2, judgeMode := 0);
            t == Next(s, SetModes(2, 0)) && Intact(t)
  {
    IntactStep(s, SetModes(2, 0));
  }

  lemma UpdateStopsIntake(d: D.State)
    requires D.Sized(d) && d.rect.RWait?
    ensures D.Enabled(d, D.Update) && !D.Accepts(D.Next(d, D.Update))
  {}

  lemma Updated(s: State)
    requires Intact(s) && Carries(s) && s.dsp.rect.RWait?
    ensures CanDspStep(s, D.Update)
    ensures DspStepStep(s, D.Update) == s.(dsp := D.Next(s.dsp, D.Update)) && Overload(DspStepStep(s, D.Update))
  {
    UpdateStopsIntake(s.dsp);
    IntactStep(s, DspStep(D.Update));
  }

  lemma PrepareSteps(s: State, s1: State, t: State)
    requires CanSetModes(s) && s1 == s.(sendMode := 2, judgeMode := 0)
    requires CanDspStep(s1, D.Update) && t == DspStepStep(s1, D.Update)
    ensures Run(s, Prepare(), t)
  {
    RunCons(s1, DspStep(D.Update), [], t);
    RunCons(s, SetModes(2, 0), [DspStep(D.Update)], t);
    assert [SetModes(2, 0)] + [DspStep(D.Update)] == Prepare();
  }

  lemma Prepared(s: State) returns (t: State)
    requires IsInit(s)
    ensures Run(s, Prepare(), t) && Overload(t)
    ensures t.cap == CTop && t.store == s.store && Forgotten(t) == {}
  {
    InitIntact(s);
    ModesSet(s);
    var s1 := s.(sendMode := 2, judgeMode := 0);
    Updated(s1);
    t := DspStepStep(s1, D.Update);
    PrepareSteps(s, s1, t);
  }

  lemma TakenToJudge(s: State, a: nat, b: nat) returns (t: State)
    requires Overload(s) && s.cap == CTop && Offered(s, a, b)
    ensures Run(s, TakeEvents(s.store.channels, a, b) + ToJudge(0), t)
    ensures Inv(t) && CanJudge(t) && Carries(t) && !Accepts(t)
  {
    TakeOne(s, a, b);
    t := ToJudgeRun(Taken(s, a, b), 0);
    TakeRun(s, a, b, ToJudge(0), t);
  }

  /** A group forgotten for ever is seven steps from the initial state, with two channels
      eight. */
  lemma OverloadIsReached(s: State, a: nat, b: nat) returns (t: State)
    requires IsInit(s) && Offered(s, a, b)
    ensures Run(s, Prepare() + (TakeEvents(s.store.channels, a, b) + ToJudge(0)), t)
    ensures Inv(t) && CanJudge(t) && Carries(t) && !Accepts(t)
  {
    var s1 := Prepared(s);
    t := TakenToJudge(s1, a, b);
    RunJoins(s, Prepare(), s1, TakeEvents(s.store.channels, a, b) + ToJudge(0), t);
  }

  lemma InitQueued(s: State)
    requires IsInit(s)
    ensures QueuedFrom(s, StartOf(s.store.channels))
  {}

  lemma PreparedToTake(s: State) returns (t: State)
    requires IsInit(s)
    ensures Run(s, Prepare(), t) && Overload(t) && t.cap == CTop && Forgotten(t) == {}
    ensures QueuedFrom(t, StartOf(s.store.channels)) && t.store.channels == s.store.channels
  {
    t := Prepared(s);
    InitQueued(s);
    forall c: nat | StartOf(s.store.channels) <= c < EndOf(s.store.channels)
      ensures Offered(t, With(s.store.channels, c), c)
    {
      assert Offered(s, With(s.store.channels, c), c);
    }
  }

  lemma EnoughForgotten(s: State, b: nat)
    requires Inv(s) && |Forgotten(s)| == |ChannelImages(s.store.channels)|
    ensures LastQueue(s.store)[b] == 0 && !CanLast(s, b)
  {
    NothingQueued(s, b);
  }

  lemma AllForgotten(s: State) returns (es: seq<Event>, t: State)
    requires Overload(s) && s.cap == CTop && Forgotten(s) == {} && QueuedFrom(s, StartOf(s.store.channels))
    ensures Run(s, es, t) && |es| == StepsFor(s.store.channels, |ChannelImages(s.store.channels)|)
    ensures Inv(t) && t.store.channels == s.store.channels
    ensures |Forgotten(t)| == |ChannelImages(t.store.channels)|
  {
    es, t := ImageAfterImage(s, StartOf(s.store.channels));
  }

  /** Main result: the capture task alone comes from the initial state to the point where
      it has forgotten as many groups as its last channel has buffers, and starves. */
  lemma OverloadStarves(s: State) returns (es: seq<Event>, t: State)
    requires IsInit(s)
    ensures Run(s, es, t) && |es| == 2 + StepsFor(s.store.channels, |ChannelImages(s.store.channels)|)
    ensures Inv(t) && t.store.channels == s.store.channels
    ensures |Forgotten(t)| == |ChannelImages(t.store.channels)|
    ensures forall b: nat :: LastQueue(t.store)[b] == 0 && !CanLast(t, b)
  {
    var s1 := PreparedToTake(s);
    var rest;
    rest, t := AllForgotten(s1);
    RunJoins(s, Prepare(), s1, rest, t);
    es := Prepare() + rest;
    forall b: nat ensures LastQueue(t.store)[b] == 0 && !CanLast(t, b) {
      EnoughForgotten(t, b);
    }
  }
}
