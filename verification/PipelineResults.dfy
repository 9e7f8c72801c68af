/** What holds in every reachable state of the pipeline, over every interleaving. */
module PipelineResults {
  import opened Counting
  import opened GroupStore
  import opened Pipeline
  import opened PipelineInv
  import D = DspProtocol
  import U = Upload
  import N = SampleCount
  import SlotPool

  // ---------------------------------------------------------------- runs

  /** video_context_init. The group array is not cleared, so what a group says about
      its source and images is arbitrary. */
  ghost predicate IsInit(s: State) {
    && Sized(s.store) && s.store.pool == SlotPool.UpTo(GROUPS) && !s.store.locked && s.store.stray == {}
    && (forall b: nat :: s.store.queue1[b] == One(b < VID1_BUF_MAX && s.store.channels != Only2))
    && (forall b: nat :: s.store.queue2[b] == One(VID1_BUF_MAX <= b < VP_BUFS && s.store.channels != Only1))
    && s.num == N.START && s.net == U.INIT && s.dsp == D.INIT
    && s.cap == CTop && s.over == OIdle && s.showMbx == [] && s.show == Empty && s.uiMbx == [] && s.ui == Empty
    && s.sendMbx == [] && s.send == Empty && s.dropped == {} && s.stuckImage == {} && s.stuckResult == {}
  }

  lemma InitOwed(s: State)
    requires IsInit(s)
    ensures D.Sized(s.dsp) && AllOwed(s) && forall g :: 0 <= g < GROUPS ==> Phases(s)[g] == Free
  {
    forall g: nat ensures GroupOwed(s, g) && PhaseOf(s, g) == Free {}
  }

  lemma InitStore(s: State, ph: seq<Phase>)
    requires IsInit(s) && |ph| == GROUPS && forall g :: 0 <= g < GROUPS ==> ph[g] == Free
    ensures StoreInv(s.store, ph)
  {
    forall b: nat ensures BufferOk(s.store, ph, b) {}
    forall g | 0 <= g < GROUPS ensures g in s.store.pool {
      assert s.store.pool[g] == g;
    }
  }

  lemma InitInv(s: State)
    requires IsInit(s)
    ensures Inv(s)
  {
    D.InitInv();
    U.InitInv();
    InitOwed(s);
    InitStore(s, Phases(s));
  }

  ghost predicate Run(s: State, es: seq<Event>, t: State)
    decreases |es|
  {
    if es == [] then s == t else Enabled(s, es[0]) && Run(Next(s, es[0]), es[1..], t)
  }

  lemma {:induction false} RunInv(s: State, es: seq<Event>, t: State)
    requires Inv(s) && Run(s, es, t)
    ensures Inv(t)
    decreases |es|
  {
    if es != [] {
      StepInv(s, es[0]);
      RunInv(Next(s, es[0]), es[1..], t);
    }
  }

  lemma RunCons(s: State, e: Event, es: seq<Event>, t: State)
    requires Enabled(s, e) && Run(Next(s, e), es, t)
    ensures Run(s, [e] + es, t)
  {
    assert ([e] + es)[1..] == es;
  }

  lemma {:induction false} RunJoins(s: State, es: seq<Event>, m: State, fs: seq<Event>, t: State)
    requires Run(s, es, m) && Run(m, fs, t)
    ensures Run(s, es + fs, t)
    decreases |es|
  {
    if es == [] {
      assert es + fs == fs;
    } else {
      RunJoins(Next(s, es[0]), es[1..], m, fs, t);
      assert (es + fs)[1..] == es[1..] + fs;
    }
  }

  ghost predicate Reachable(s: State) {
    exists s0: State, es: seq<Event> :: IsInit(s0) && Run(s0, es, s)
  }

  /** The invariant holds in every reachable state. */
  lemma ReachableInv(s: State)
    requires Reachable(s)
    ensures Inv(s)
  {
    var s0: State, es: seq<Event> :| IsInit(s0) && Run(s0, es, s);
    InitInv(s0);
    RunInv(s0, es, s);
  }

  // ---------------------------------------------------------------- reference counts

  /** Image `img` of group g has as many references as there are routes that still owe
      a release of g: UI, network image and result, at most one each. */
  ghost predicate CountedRight(s: State, g: nat, img: nat)
    requires D.Sized(s.dsp)
  {
    && img < |s.store.rCount| && s.store.rCount[img] == UiOwed(s, g) + ImageOwed(s, g) + ResultOwed(s, g)
    && UiOwed(s, g) <= 1 && ImageOwed(s, g) <= 1 && ResultOwed(s, g) <= 1
    && g !in s.store.pool && Queued(s.store, img) == 0
  }

  lemma SharedStore(st: Store, ph: seq<Phase>, g: nat, img: nat)
    requires StoreInv(st, ph) && g < GROUPS && ph[g].Owed? && img in Images(st.group[g])
    ensures img < |st.rCount| && st.rCount[img] == ph[g].n && g !in st.pool && Queued(st, img) == 0
  {
    assert GroupOk(st, ph[g], g);
    assert Holds(st.group[g], ph[g], img);
    assert BufferOk(st, ph, img);
  }

  lemma SharedIsCounted(s: State, g: nat, img: nat)
    requires Inv(s) && g < GROUPS && PhaseOf(s, g).Owed? && img in Images(s.store.group[g])
    ensures CountedRight(s, g, img)
  {
    var p := Phases(s)[g];
    assert GroupOwed(s, g);
    SharedStore(s.store, Phases(s), g, img);
  }

  /** Main result: in every reachable state and every interleaving, the reference count
      of each image of a group in flight is the number of routes that still owe a
      release; and nothing still owed a release is in the pool or a driver queue. */
  lemma ReferenceCounts(s: State)
    requires Reachable(s)
    ensures Inv(s)
    ensures forall g, img :: 0 <= g < GROUPS && PhaseOf(s, g).Owed? && img in Images(s.store.group[g])
                             ==> CountedRight(s, g, img)
    ensures forall g: nat :: Owes(s, g) > 0 ==> g < GROUPS && PhaseOf(s, g).Owed?
  {
    ReachableInv(s);
    forall g, img | 0 <= g < GROUPS && PhaseOf(s, g).Owed? && img in Images(s.store.group[g])
      ensures CountedRight(s, g, img)
    {
      SharedIsCounted(s, g, img);
    }
    forall g: nat | Owes(s, g) > 0 ensures g < GROUPS && PhaseOf(s, g).Owed? {
      assert GroupOwed(s, g);
    }
  }

  // ---------------------------------------------------------------- exactly one requeue and recycle

  lemma VictimIsReleased(s: State, e: Event)
    requires Enabled(s, e) && Victim(s, e) != -1
    ensures 0 <= Victim(s, e) < GROUPS && Pointers(s.store, Victim(s, e))
    ensures Next(s, e).store == Release(s.store, Victim(s, e))
  {}

  ghost predicate SameImages(s: State, s': State, g: nat) {
    Sized(s.store) && Sized(s'.store) && g < GROUPS && Images(s'.store.group[g]) == Images(s.store.group[g])
  }

  lemma FirstKeepsImages(s: State, b: nat, g: nat)
    requires CanFirst(s, b) && g < GROUPS && g != s.cap.g
    ensures SameImages(s, FirstStep(s, b), g)
  {}

  lemma FillingKeepsImages(s: State, e: Event, g: nat)
    requires Sized(s.store) && Enabled(s, e) && g < GROUPS && !RawClaim(s, g) && s.cap != CHalf(g)
    requires e.CapFirst? || e.CapSecond? || e.OverFill?
    ensures SameImages(s, Next(s, e), g)
  {
    if e.CapFirst? { FirstKeepsImages(s, e.b, g); }
  }

  lemma NumberKeepsImages(s: State, reading: N.u32, wheel: nat, g: nat)
    requires CanNumber(s) && g < GROUPS
    ensures SameImages(s, NumberStep(s, reading, wheel), g)
  {}

  lemma WritingKeepsImages(s: State, e: Event, g: nat)
    requires Sized(s.store) && Enabled(s, e) && g < GROUPS
    requires e.CapNumber? || e.CapJudge? || e.WorkFinish?
    ensures SameImages(s, Next(s, e), g)
  {
    if e.CapNumber? { NumberKeepsImages(s, e.reading, e.wheel, g); }
  }

  lemma TakingKeepsImages(s: State, e: Event, g: nat)
    requires Sized(s.store) && Enabled(s, e) && g < GROUPS && (e.CapTake? || e.OverTake?)
    ensures SameImages(s, Next(s, e), g)
  {}

  /** Only a group that is being filled gets new images. */
  lemma ImagesStay(s: State, e: Event, g: nat)
    requires Sized(s.store) && Enabled(s, e) && g < GROUPS && !RawClaim(s, g) && s.cap != CHalf(g)
    ensures SameImages(s, Next(s, e), g)
  {
    if Victim(s, e) != -1 {
      VictimIsReleased(s, e);
      ReleaseKeepsGroups(s.store, Victim(s, e));
    } else if e.CapFirst? || e.CapSecond? || e.OverFill? {
      FillingKeepsImages(s, e, g);
    } else if e.CapNumber? || e.CapJudge? || e.WorkFinish? {
      WritingKeepsImages(s, e, g);
    } else if e.CapTake? || e.OverTake? {
      TakingKeepsImages(s, e, g);
    }
  }

  /** Group g is recycled, and each of its images goes back to the driver queue of its
      own channel, once. */
  ghost predicate ComesBack(s: State, s': State, g: nat)
    requires Sized(s.store) && g < GROUPS
  {
    && g !in s.store.pool && s'.store.pool == s.store.pool + [g]
    && s'.store.stray == s.store.stray && Requeued(s.store, s'.store, s.store.group[g])
  }

  /** Group g keeps its images; neither it nor they are given back. */
  ghost predicate StaysShared(s: State, s': State, g: nat, released: nat)
    requires D.Sized(s.dsp)
  {
    && D.Sized(s'.dsp) && SameImages(s, s', g)
    && Owes(s', g) == Owes(s, g) - released && Owes(s', g) > 0
    && g !in s'.store.pool && forall img :: img in Images(s.store.group[g]) ==> Queued(s'.store, img) == 0
  }

  lemma InPoolIffFree(s: State, g: nat)
    requires Inv(s) && g < GROUPS
    ensures g in s.store.pool <==> PhaseOf(s, g) == Free
  {
    assert Phases(s)[g] == PhaseOf(s, g);
  }

  lemma LastReference(s: State, s': State, g: nat)
    requires Inv(s) && g < GROUPS && PhaseOf(s, g) == Owed(1, true)
    requires Pointers(s.store, g) && s'.store == Release(s.store, g)
    ensures ComesBack(s, s', g)
  {
    assert Phases(s)[g] == Owed(1, true);
    assert GroupOk(s.store, Phases(s)[g], g);
    ReleaseLast(s.store, Phases(s), g);
    InPoolIffFree(s, g);
  }

  lemma StillShared(s: State, s': State, g: nat, released: nat)
    requires Inv(s) && Inv(s') && SameImages(s, s', g) && g < GROUPS
    requires PhaseOf(s, g).Owed? && Owes(s, g) > released && PhaseOf(s', g) == Owed(Owes(s, g) - released, true)
    ensures StaysShared(s, s', g, released)
  {
    forall img | img in Images(s.store.group[g]) ensures Queued(s'.store, img) == 0 {
      SharedIsCounted(s', g, img);
    }
    InPoolIffFree(s', g);
  }

  lemma CameraStep(s: State, s': State, victim: int, g: nat)
    requires Inv(s) && Inv(s') && Lives(s, s', victim) && SameImages(s, s', g)
    requires PhaseOf(s, g).Owed? && PhaseOf(s, g).camera
    requires victim == g ==> Pointers(s.store, g) && s'.store == Release(s.store, g)
    ensures if victim == g && Owes(s, g) == 1 then ComesBack(s, s', g) else StaysShared(s, s', g, One(victim == g))
  {
    assert Transition(PhaseOf(s, g), PhaseOf(s', g), victim == g);
    if victim == g && Owes(s, g) == 1 {
      LastReference(s, s', g);
    } else {
      StillShared(s, s', g, One(victim == g));
    }
  }

  lemma VictimGroup(s: State, e: Event, g: nat)
    requires Enabled(s, e) && Victim(s, e) == g
    ensures g < GROUPS && Pointers(s.store, g) && Next(s, e).store == Release(s.store, g)
  {
    VictimIsReleased(s, e);
  }

  /** Main result: a group that passed line 384 goes back to the pool, and its images
      to their queues, at the step that releases its last reference, and at no other. */
  lemma LastReleaseRecycles(s: State, e: Event, g: nat)
    requires Inv(s) && Enabled(s, e) && g < GROUPS
    requires PhaseOf(s, g).Owed? && PhaseOf(s, g).camera
    ensures if Victim(s, e) == g && Owes(s, g) == 1
            then ComesBack(s, Next(s, e), g)
            else StaysShared(s, Next(s, e), g, One(Victim(s, e) == g))
  {
    StepInv(s, e);
    ImagesStay(s, e, g);
    if Victim(s, e) == g { VictimGroup(s, e, g); }
    CameraStep(s, Next(s, e), Victim(s, e), g);
  }

  // ---------------------------------------------------------------- the life of a group over a run

  ghost predicate Moves(s: State, e: Event, s': State) {
    Enabled(s, e) && s' == Next(s, e)
  }

  /** A run with all the states it goes through. */
  ghost predicate Trace(states: seq<State>, es: seq<Event>) {
    && |states| == |es| + 1
    && forall i :: 0 <= i < |es| ==> Moves(states[i], es[i], states[i + 1])
  }

  /** The event releases g, and the last of what g owes. */
  ghost predicate ReleasesOf(s: State, e: Event, g: nat) {
    Enabled(s, e) && Victim(s, e) == g
  }

  ghost predicate LastOf(s: State, e: Event, g: nat) {
    ReleasesOf(s, e, g) && D.Sized(s.dsp) && Owes(s, g) == 1
  }

  /** How many of the first k events release g. */
  ghost function ReleasedTimes(states: seq<State>, es: seq<Event>, g: nat, k: nat): nat
    requires k <= |es| <= |states|
  {
    if k == 0 then 0 else ReleasedTimes(states, es, g, k - 1) + One(ReleasesOf(states[k - 1], es[k - 1], g))
  }

  /** Group g, shared since state s, is still shared in state u, `released` releases later,
      with the same images. */
  ghost predicate SharedSince(s: State, u: State, g: nat, released: nat)
    requires D.Sized(s.dsp)
  {
    && Inv(u) && SameImages(s, u, g) && PhaseOf(u, g).Owed? && PhaseOf(u, g).camera
    && Owes(u, g) == Owes(s, g) - released
  }

  lemma SharedMoves(s: State, s': State, victim: int, g: nat)
    requires D.Sized(s.dsp) && D.Sized(s'.dsp) && Lives(s, s', victim) && g < GROUPS
    requires PhaseOf(s, g).Owed? && PhaseOf(s, g).camera && !(victim == g && Owes(s, g) == 1)
    ensures PhaseOf(s', g).Owed? && PhaseOf(s', g).camera && Owes(s', g) == Owes(s, g) - One(victim == g)
  {
    assert Transition(PhaseOf(s, g), PhaseOf(s', g), victim == g);
  }

  lemma SharedStep(s: State, e: Event, s': State, g: nat)
    requires Inv(s) && Moves(s, e, s') && g < GROUPS && PhaseOf(s, g).Owed? && PhaseOf(s, g).camera
    requires !LastOf(s, e, g)
    ensures SharedSince(s, s', g, One(ReleasesOf(s, e, g)))
  {
    StepInv(s, e);
    ImagesStay(s, e, g);
    SharedMoves(s, s', Victim(s, e), g);
  }

  lemma SharedOn(s: State, m: State, u: State, g: nat, a: nat, b: nat)
    requires D.Sized(s.dsp) && SharedSince(s, m, g, a) && SharedSince(m, u, g, b)
    ensures SharedSince(s, u, g, a + b)
  {}

  lemma SharedNow(s: State, g: nat)
    requires Inv(s) && g < GROUPS && PhaseOf(s, g).Owed? && PhaseOf(s, g).camera
    ensures SharedSince(s, s, g, 0)
  {}

  /** Before the step that releases its last reference, a group that passed line 384 stays
      shared, and owes one release less after each step that releases it. */
  lemma {:induction false} SharedUntil(states: seq<State>, es: seq<Event>, g: nat, k: nat)
    requires Trace(states, es) && k <= |es| && Inv(states[0])
    requires g < GROUPS && PhaseOf(states[0], g).Owed? && PhaseOf(states[0], g).camera
    requires forall j :: 0 <= j < k ==> !LastOf(states[j], es[j], g)
    ensures SharedSince(states[0], states[k], g, ReleasedTimes(states, es, g, k))
  {
    if k == 0 {
      SharedNow(states[0], g);
    } else {
      SharedUntil(states, es, g, k - 1);
      SharedStep(states[k - 1], es[k - 1], states[k], g);
      SharedOn(states[0], states[k - 1], states[k], g, ReleasedTimes(states, es, g, k - 1),
               One(ReleasesOf(states[k - 1], es[k - 1], g)));
    }
  }

  ghost predicate IsBack(s: State, s': State, g: nat) {
    && Sized(s.store) && D.Sized(s'.dsp) && g < GROUPS && ComesBack(s, s', g) && PhaseOf(s', g) == Free
  }

  lemma FreedByLast(s: State, s': State, g: nat)
    requires D.Sized(s.dsp) && D.Sized(s'.dsp) && Lives(s, s', g) && g < GROUPS
    requires PhaseOf(s, g).Owed? && Owes(s, g) == 1
    ensures PhaseOf(s', g) == Free
  {
    assert Transition(PhaseOf(s, g), PhaseOf(s', g), true);
  }

  lemma LastReturns(s: State, e: Event, s': State, g: nat)
    requires Inv(s) && Moves(s, e, s') && g < GROUPS && PhaseOf(s, g).Owed? && PhaseOf(s, g).camera
    requires LastOf(s, e, g)
    ensures IsBack(s, s', g)
  {
    LastReleaseRecycles(s, e, g);
    StepInv(s, e);
    FreedByLast(s, s', g);
  }

  /** Main result: over any run a group that passed line 384 is shared, one release after
      another, up to the first step k that releases its last reference; exactly that step
      recycles it and requeues its images, which are still the ones it was shared with. */
  lemma LifeOfGroup(states: seq<State>, es: seq<Event>, g: nat, k: nat)
    requires Trace(states, es) && k < |es| && Inv(states[0])
    requires g < GROUPS && PhaseOf(states[0], g).Owed? && PhaseOf(states[0], g).camera
    requires LastOf(states[k], es[k], g) && forall j :: 0 <= j < k ==> !LastOf(states[j], es[j], g)
    ensures ReleasedTimes(states, es, g, k) == Owes(states[0], g) - 1
    ensures SameImages(states[0], states[k], g) && IsBack(states[k], states[k + 1], g)
  {
    SharedUntil(states, es, g, k);
    LastReturns(states[k], es[k], states[k + 1], g);
  }
}
