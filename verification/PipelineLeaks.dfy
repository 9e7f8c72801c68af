/** References and groups that are never given back: exactly which steps forget them, and
    that at rest nothing else is missing. */
module PipelineLeaks {
  import opened GroupStore
  import opened Pipeline
  import opened PipelineInv
  import opened PipelineResults
  import D = DspProtocol

  // ---------------------------------------------------------------- references never given back

  /** The two branches of the capture task that forget a network-image reference: the
      overload branch in send mode 2, and a send mode that is none of 0, 1 and 2. */
  predicate ForgetsImage(s: State, e: Event) {
    (e.CapJudge? && Carries(s) && !Accepts(s)) || (e.CapRoute? && s.sendMode > 2)
  }

  lemma ReleasingForgetsNothing(s: State, e: Event)
    requires Enabled(s, e) && Victim(s, e) != -1 && !e.CapRoute?
    ensures Next(s, e).stuckImage == s.stuckImage
  {}

  lemma TakingForgetsNothing(s: State, e: Event)
    requires Enabled(s, e) && Victim(s, e) == -1 && !e.CapJudge? && !e.CapRoute?
    ensures Next(s, e).stuckImage == s.stuckImage
  {}

  lemma OthersForgetNothing(s: State, e: Event)
    requires Enabled(s, e) && !e.CapJudge? && !e.CapRoute?
    ensures Next(s, e).stuckImage == s.stuckImage
  {
    if Victim(s, e) != -1 { ReleasingForgetsNothing(s, e); } else { TakingForgetsNothing(s, e); }
  }

  lemma ForgottenExactly(s: State, e: Event)
    requires Enabled(s, e)
    ensures Next(s, e).stuckImage == if ForgetsImage(s, e) then s.stuckImage + {s.cap.g} else s.stuckImage
  {
    if !e.CapJudge? && !e.CapRoute? { OthersForgetNothing(s, e); }
  }

  lemma ReleasingKeepsResults(s: State, e: Event)
    requires Enabled(s, e) && Victim(s, e) != -1
    ensures Next(s, e).stuckResult == s.stuckResult
  {}

  lemma TakingKeepsResults(s: State, e: Event)
    requires Enabled(s, e) && Victim(s, e) == -1 && !e.CapJudge?
    ensures Next(s, e).stuckResult == s.stuckResult
  {}

  lemma JudgeForgets(s: State, e: Event)
    requires Enabled(s, e)
    ensures Next(s, e).stuckResult ==
              if e.CapJudge? && s.judgeMode > 3 then s.stuckResult + {s.cap.g} else s.stuckResult
  {
    if !e.CapJudge? {
      if Victim(s, e) != -1 { ReleasingKeepsResults(s, e); } else { TakingKeepsResults(s, e); }
    }
  }

  /** Group g holds a reference for ever: out of the pool, its images out of the driver
      queues with a count that is not 0. */
  ghost predicate HeldForGood(s: State, g: nat)
    requires D.Sized(s.dsp)
  {
    && Sized(s.store) && g < GROUPS && PhaseOf(s, g).Owed? && g !in s.store.pool
    && forall img :: img in Images(s.store.group[g]) ==>
         img < |s.store.rCount| && s.store.rCount[img] > 0 && Queued(s.store, img) == 0
  }

  ghost function Forgotten(s: State): set<nat> {
    s.stuckImage + s.stuckResult
  }

  lemma ForgottenIsHeld(s: State, g: nat)
    requires Inv(s) && g in Forgotten(s)
    ensures HeldForGood(s, g)
  {
    assert GroupOwed(s, g);
    forall img | img in Images(s.store.group[g])
      ensures img < |s.store.rCount| && s.store.rCount[img] > 0 && Queued(s.store, img) == 0
    {
      SharedIsCounted(s, g, img);
    }
    InPoolIffFree(s, g);
  }

  lemma {:induction false} LeakStays(s: State, es: seq<Event>, t: State, g: nat)
    requires Inv(s) && Run(s, es, t) && g in s.stuckImage
    ensures Inv(t) && ImageOwed(t, g) == 1 && HeldForGood(t, g)
    decreases |es|
  {
    if es == [] {
      assert GroupOwed(s, g);
      ForgottenIsHeld(s, g);
    } else {
      StepInv(s, es[0]);
      ForgottenExactly(s, es[0]);
      LeakStays(Next(s, es[0]), es[1..], t, g);
    }
  }

  /** Main result: a group judged during an overload in send mode 2 keeps its
      network-image reference for ever, in every continuation of the run. */
  lemma OverloadLeaksForever(s: State, es: seq<Event>, t: State)
    requires Inv(s) && CanJudge(s) && Carries(s) && !Accepts(s) && Run(JudgeStep(s), es, t)
    ensures Inv(t) && ImageOwed(t, s.cap.g) == 1 && HeldForGood(t, s.cap.g)
  {
    StepInv(s, CapJudge);
    LeakStays(JudgeStep(s), es, t, s.cap.g);
  }

  // ---------------------------------------------------------------- at rest

  /** The capture task is about to take a group, or blocked in the driver with one: for the
      first image, or between the two of a pair. */
  predicate Waits(cap: Capture) {
    cap == CTop || cap.CRaw? || cap.CHalf?
  }

  /** Every task waits for something new, every mailbox is empty. */
  predicate AtRest(s: State) {
    && Waits(s.cap) && s.over == OIdle
    && s.showMbx == [] && s.show == Empty && s.uiMbx == [] && s.ui == Empty
    && s.sendMbx == [] && s.send == Empty && D.Sized(s.dsp) && D.Quiet(s.dsp)
  }

  lemma RestPhase(s: State, g: nat)
    requires Inv(s) && AtRest(s) && g < GROUPS
    ensures g in s.store.pool <==> g !in Forgotten(s) && g !in s.dropped && CapGroup(s.cap) != g
    ensures PhaseOf(s, g).Owed? <==> g in Forgotten(s)
    ensures PhaseOf(s, g) == Half <==> s.cap == CHalf(g)
  {
    D.QuietOwesNothing(s.dsp, g);
    assert GroupOwed(s, g);
    InPoolIffFree(s, g);
  }

  /** Buffer b is the first image of a pair whose second one is waited for. */
  predicate AwaitsPartner(s: State, b: nat) {
    s.cap.CHalf? && s.cap.g < |s.store.group| && b == s.store.group[s.cap.g].image0
  }

  /** Where a buffer is when only the groups `forgotten` and the group `half` hold any. */
  lemma RestBuffer(st: Store, ph: seq<Phase>, forgotten: set<nat>, half: int, b: nat)
    requires StoreInv(st, ph) && InUse(st.channels, b)
    requires forall g :: 0 <= g < GROUPS ==> (ph[g].Owed? <==> g in forgotten) && (ph[g] == Half <==> g == half)
    ensures Queued(st, b) == 1 <==>
              && b !in st.stray && (forall g :: g in forgotten && g < GROUPS ==> b !in Images(st.group[g]))
              && !(0 <= half < GROUPS && b == st.group[half].image0)
  {
    assert BufferOk(st, ph, b);
    if b !in st.stray && Queued(st, b) == 0 {
      var g :| 0 <= g < GROUPS && Holds(st.group[g], ph[g], b);
      assert g in forgotten || g == half;
    }
    if g :| g in forgotten && g < GROUPS && b in Images(st.group[g]) {
      assert Holds(st.group[g], ph[g], b);
    }
    if 0 <= half < GROUPS && b == st.group[half].image0 {
      assert Holds(st.group[half], ph[half], b);
    }
  }

  lemma RestPhases(s: State)
    requires Inv(s) && AtRest(s)
    ensures forall g :: 0 <= g < GROUPS ==>
              && (PhaseOf(s, g).Owed? <==> g in Forgotten(s))
              && (PhaseOf(s, g) == Half <==> s.cap == CHalf(g))
  {
    forall g: nat | g < GROUPS
      ensures PhaseOf(s, g).Owed? <==> g in Forgotten(s)
      ensures PhaseOf(s, g) == Half <==> s.cap == CHalf(g)
    {
      RestPhase(s, g);
    }
  }

  lemma RestQueue(s: State, b: nat)
    requires Inv(s) && AtRest(s) && InUse(s.store.channels, b)
    ensures Queued(s.store, b) == 1 <==>
              && b !in s.store.stray && !AwaitsPartner(s, b)
              && forall g :: g in Forgotten(s) && g < GROUPS ==> b !in Images(s.store.group[g])
  {
    RestPhases(s);
    if s.cap.CHalf? { assert GroupOwed(s, s.cap.g); }
    RestBuffer(s.store, Phases(s), Forgotten(s), if s.cap.CHalf? then s.cap.g else -1, b);
  }

  /** Main result: once the pipeline is at rest, every group is back in the pool, except
      those that were forgotten or dropped and the one the capture task waits with, and
      every buffer in use is back in the queue of its own channel, except stray ones,
      images of forgotten groups and a first image that waits for its partner. */
  lemma AllBackAtRest(s: State)
    requires Inv(s) && AtRest(s)
    ensures forall g :: 0 <= g < GROUPS ==>
              (g in s.store.pool <==> g !in Forgotten(s) && g !in s.dropped && CapGroup(s.cap) != g)
    ensures forall b: nat :: InUse(s.store.channels, b) ==>
              (Queued(s.store, b) == 1 <==>
                && b !in s.store.stray && !AwaitsPartner(s, b)
                && forall g :: g in Forgotten(s) && g < GROUPS ==> b !in Images(s.store.group[g]))
  {
    forall g: nat | g < GROUPS
      ensures g in s.store.pool <==> g !in Forgotten(s) && g !in s.dropped && CapGroup(s.cap) != g
    {
      RestPhase(s, g);
    }
    forall b: nat | InUse(s.store.channels, b)
      ensures Queued(s.store, b) == 1 <==>
                && b !in s.store.stray && !AwaitsPartner(s, b)
                && forall g :: g in Forgotten(s) && g < GROUPS ==> b !in Images(s.store.group[g])
    {
      RestQueue(s, b);
    }
  }
}
