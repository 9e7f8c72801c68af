/** Where the pipeline loses buffers, groups and references, exactly when, and what can
    never run out. */
module PipelineLimits {
  import opened GroupStore
  import opened Pipeline
  import opened PipelineInv
  import opened PipelineResults
  import D = DspProtocol

  // ---------------------------------------------------------------- stray buffers

  lemma RoutesAreNumbered(s: State, g: nat)
    requires Inv(s)
    requires UiRoute(s.showMbx, s.show, s.uiMbx, s.ui, g) > 0 || ImageRoute(s.sendMbx, s.send, s.stuckImage, g) > 0
             || D.Owed(s.dsp, g) > 0 || (Carries(s) && D.Routing(s.dsp, g) > 0)
             || s.cap == CShown(g) || s.cap == CJudged(g)
    ensures g < GROUPS && PhaseOf(s, g).Owed? && PhaseOf(s, g).camera
  {
    assert GroupOwed(s, g);
  }

  lemma HandIsNumbered(s: State, e: Event)
    requires Inv(s) && Enabled(s, e) && Victim(s, e) != -1
    requires e.CapRoute? || e.CapSend? || e.ShowHand? || e.UiFinish? || e.SendHand?
    ensures 0 <= Victim(s, e) < GROUPS && PhaseOf(s, Victim(s, e)).Owed? && PhaseOf(s, Victim(s, e)).camera
  {
    RoutesAreNumbered(s, Victim(s, e));
  }

  lemma ReporterIsNumbered(s: State, d: nat)
    requires Inv(s) && d < D.DSPS && s.dsp.worker[d].WReport?
    ensures var g := s.dsp.worker[d].g; g < GROUPS && PhaseOf(s, g).Owed? && PhaseOf(s, g).camera
  {
    assert d == 0 || d == 1;
    RoutesAreNumbered(s, s.dsp.worker[d].g);
  }

  lemma RouterIsNumbered(s: State, d: nat)
    requires Inv(s) && d < D.DSPS && s.dsp.worker[d].WRoute? && s.sendMode == 2
    ensures var g := s.dsp.worker[d].g; g < GROUPS && PhaseOf(s, g).Owed? && PhaseOf(s, g).camera
  {
    assert d == 0 || d == 1;
    assert s.judgeMode == 0;
    RoutesAreNumbered(s, s.dsp.worker[d].g);
  }

  lemma WorkerIsNumbered(s: State, e: Event)
    requires Inv(s) && Enabled(s, e) && Victim(s, e) != -1 && (e.WorkReport? || e.WorkRoute?)
    ensures 0 <= Victim(s, e) < GROUPS && PhaseOf(s, Victim(s, e)).Owed? && PhaseOf(s, Victim(s, e)).camera
  {
    if e.WorkReport? { ReporterIsNumbered(s, e.d); } else { RouterIsNumbered(s, e.d); }
  }

  /** Releases other than of a discarded image are of camera groups and of overclock
      groups. */
  lemma VictimIsNumbered(s: State, e: Event)
    requires Inv(s) && Enabled(s, e) && Victim(s, e) != -1 && !e.CapDiscard? && !e.OverSend?
    ensures 0 <= Victim(s, e) < GROUPS && PhaseOf(s, Victim(s, e)).Owed? && PhaseOf(s, Victim(s, e)).camera
  {
    if e.WorkReport? || e.WorkRoute? { WorkerIsNumbered(s, e); } else { HandIsNumbered(s, e); }
  }

  lemma CameraNeverStrays(s: State, g: nat)
    requires Inv(s) && g < GROUPS && PhaseOf(s, g).Owed? && PhaseOf(s, g).camera && Pointers(s.store, g)
    ensures Release(s.store, g).stray == s.store.stray
  {
    assert Phases(s)[g] == PhaseOf(s, g);
    assert GroupOk(s.store, Phases(s)[g], g);
    if Phases(s)[g].n == 1 { ReleaseLast(s.store, Phases(s), g); } else { ReleaseCounts(s.store, Phases(s), g); }
  }

  lemma OverclockNeverStrays(s: State, g: nat)
    requires Inv(s) && s.over == OFilled(g) && g < GROUPS && Pointers(s.store, g)
    ensures Release(s.store, g).stray == s.store.stray
  {
    assert GroupOwed(s, g);
    assert Phases(s)[g] == PhaseOf(s, g);
    ReleaseOverclock(s.store, Phases(s), g);
  }

  lemma DiscardStrays(s: State)
    requires Inv(s) && CanDiscard(s)
    ensures var g := s.cap.g;
            DiscardStep(s).store.stray ==
              if s.cap.left == 1 && s.store.group[g].source != 0
              then s.store.stray + (set b | b in Images(s.store.group[g])) else s.store.stray
  {
    var g := s.cap.g;
    DiscardOwed(s);
    assert Phases(s)[g] == PhaseOf(s, g);
    if s.cap.left == 1 { ReleaseLast(s.store, Phases(s), g); } else { ReleaseCounts(s.store, Phases(s), g); }
  }

  lemma FillingDoesNotStray(s: State, e: Event)
    requires Enabled(s, e) && (e.CapFirst? || e.CapSecond? || e.CapSkip? || e.OverFill? || e.CapTake? || e.OverTake?)
    ensures Next(s, e).store.stray == s.store.stray
  {}

  lemma WritingDoesNotStray(s: State, e: Event)
    requires Enabled(s, e) && (e.CapNumber? || e.CapJudge? || e.WorkFinish?)
    ensures Next(s, e).store.stray == s.store.stray
  {}

  lemma MailDoesNotStray(s: State, e: Event)
    requires Enabled(s, e) && Victim(s, e) == -1
    requires e.CapShow? || e.CapRoute? || e.ShowPend? || e.ShowHand? || e.UiPend? || e.UiReady? || e.SendPend?
    ensures Next(s, e).store.stray == s.store.stray
  {}

  lemma RouteDoesNotStray(s: State, d: nat, upload: bool)
    requires CanWorkRoute(s, d, upload) && (s.sendMode == 2 ==> upload)
    ensures WorkRouteStep(s, d, upload).store.stray == s.store.stray
  {}

  lemma InnerDoesNotStray(s: State, e: Event)
    requires Enabled(s, e) && (e.DspStep? || e.NetStep? || e.CounterReset? || e.SetModes?)
    ensures Next(s, e).store.stray == s.store.stray
  {}

  lemma OthersDoNotStray(s: State, e: Event)
    requires Enabled(s, e) && Victim(s, e) == -1
    ensures Next(s, e).store.stray == s.store.stray
  {
    if e.CapFirst? || e.CapSecond? || e.CapSkip? || e.OverFill? || e.CapTake? || e.OverTake? {
      FillingDoesNotStray(s, e);
    } else if e.CapNumber? || e.CapJudge? || e.WorkFinish? {
      WritingDoesNotStray(s, e);
    } else if e.WorkRoute? {
      RouteDoesNotStray(s, e.d, e.upload);
    } else if e.DspStep? || e.NetStep? || e.CounterReset? || e.SetModes? {
      InnerDoesNotStray(s, e);
    } else {
      MailDoesNotStray(s, e);
    }
  }

  /** The step at which an image taken during a reset loses its last reference while the
      group still says, from an earlier use, that its image is not the camera's. */
  predicate LosesImages(s: State, e: Event) {
    e.CapDiscard? && CanDiscard(s) && s.cap.left == 1 && s.store.group[s.cap.g].source != 0
  }

  /** Exactly when a buffer is lost to the driver: image_source is only cleared at line
      384, after the discard loop at 336-339 has already used it. */
  lemma StrayExactly(s: State, e: Event)
    requires Inv(s) && Enabled(s, e)
    ensures Next(s, e).store.stray ==
              if LosesImages(s, e) then s.store.stray + (set b | b in Images(s.store.group[s.cap.g])) else s.store.stray
  {
    if Victim(s, e) == -1 {
      OthersDoNotStray(s, e);
    } else if e.CapDiscard? {
      DiscardStrays(s);
    } else {
      VictimIsReleased(s, e);
      if e.OverSend? {
        OverclockNeverStrays(s, s.over.g);
      } else {
        VictimIsNumbered(s, e);
        CameraNeverStrays(s, Victim(s, e));
      }
    }
  }

  /** A lost buffer is never handed out again. */
  lemma {:induction false} StraysForever(s: State, es: seq<Event>, t: State, b: nat)
    requires Inv(s) && b in s.store.stray && Run(s, es, t)
    ensures b in t.store.stray && Queued(t.store, b) == 0
    decreases |es|
  {
    if es == [] {
      assert BufferOk(s.store, Phases(s), b);
    } else {
      StepInv(s, es[0]);
      StrayExactly(s, es[0]);
      StraysForever(Next(s, es[0]), es[1..], t, b);
    }
  }
}
