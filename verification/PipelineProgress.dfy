/** Without new arrivals the pipeline always comes to rest: no task is ever stuck, and every
    schedule of the steps that are left is finite. */
module PipelineProgress {
  import opened Counting
  import opened GroupStore
  import opened Pipeline
  import opened PipelineInv
  import opened PipelineResults
  import opened PipelineLimits
  import opened PipelineBounds
  import opened PipelineLeaks
  import opened PipelineLock
  import D = DspProtocol
  import N = SampleCount

  /** Steps that only work on what is already in the pipeline: no new group, image, reset,
      parameter update, UI permission or mode change, and no upload traffic. */
  predicate Inner(e: Event) {
    && !e.CapTake? && !e.CapFirst? && !e.CapSkip? && !e.CapSecond? && !e.OverTake?
    && !e.UiReady? && !e.NetStep? && !e.CounterReset? && !e.SetModes?
    && (e.DspStep? ==> !e.dspEvent.Update?)
  }

  predicate CanMove(s: State, e: Event) {
    Inner(e) && Enabled(s, e)
  }

  /** The pool lock has not been left held. */
  predicate Settled(s: State) {
    s.over != OCrashed && !s.store.locked
  }

  // ---------------------------------------------------------------- nobody is stuck

  lemma OwedCanDrop(s: State, g: nat)
    requires Inv(s) && !s.store.locked && g < GROUPS && PhaseOf(s, g).Owed?
    ensures CanDrop(s, g) && CanSend(s, g)
  {
    assert Phases(s)[g] == PhaseOf(s, g);
    ReleaseKeeps(s.store, Phases(s), g);
  }

  lemma OverCanSend(s: State)
    requires Inv(s) && !s.store.locked && s.over.OFilled?
    ensures CanOverSend(s)
  {
    var g := s.over.g;
    assert GroupOwed(s, g);
    assert Phases(s)[g] == PhaseOf(s, g);
    ReleaseOverclock(s.store, Phases(s), g);
  }

  lemma CapOwed(s: State)
    requires Inv(s) && Settled(s) && !Waits(s.cap)
    ensures s.cap.g < GROUPS && CanDrop(s, s.cap.g) && CanSend(s, s.cap.g)
    ensures s.cap.CDiscard? ==> s.cap.left > 0
  {
    assert GroupOwed(s, s.cap.g);
    OwedCanDrop(s, s.cap.g);
  }

  lemma EarlyCaptureMoves(s: State)
    requires (s.cap.CGot? || s.cap.CDiscard? || s.cap.CNumbered?) && N.Sized(s.num) && CanDrop(s, s.cap.g)
    requires s.cap.CDiscard? ==> s.cap.left > 0
    ensures exists e :: CanMove(s, e)
  {
    match s.cap {
      case CGot(_) => assert CanMove(s, CapNumber(0, 0));
      case CDiscard(_, _) => assert CanMove(s, CapDiscard);
      case CNumbered(_) => assert CanMove(s, CapShow);
    }
  }

  lemma LateCaptureMoves(s: State)
    requires (s.cap.CShown? || s.cap.CRouted? || s.cap.CJudged?) && D.Sized(s.dsp) && CanSend(s, s.cap.g)
    ensures exists e :: CanMove(s, e)
  {
    match s.cap {
      case CShown(_) => assert CanMove(s, CapRoute);
      case CRouted(_) => assert CanMove(s, CapJudge);
      case CJudged(_) => assert CanMove(s, CapSend(true, true));
    }
  }

  lemma CaptureMoves(s: State)
    requires Inv(s) && Settled(s) && !Waits(s.cap)
    ensures exists e :: CanMove(s, e)
  {
    CapOwed(s);
    if s.cap.CGot? || s.cap.CDiscard? || s.cap.CNumbered? { EarlyCaptureMoves(s); } else { LateCaptureMoves(s); }
  }

  lemma InterruptMoves(s: State)
    requires Inv(s) && Settled(s) && s.over != OIdle
    ensures exists e :: CanMove(s, e)
  {
    assert GroupOwed(s, s.over.g);
    if s.over.OGot? {
      assert CanMove(s, OverFill(0));
    } else {
      OverCanSend(s);
      assert CanMove(s, OverSend(true, true));
    }
  }

  lemma HandMoves(s: State)
    requires s.show.Has? || s.ui.Has? || s.send.Has?
    requires s.show.Has? ==> CanDrop(s, s.show.g)
    requires s.ui.Has? ==> CanDrop(s, s.ui.g)
    requires s.send.Has? ==> CanDrop(s, s.send.g)
    ensures exists e :: CanMove(s, e)
  {
    if s.show.Has? { assert CanMove(s, ShowHand(false)); }
    else if s.ui.Has? { assert CanMove(s, UiFinish); }
    else { assert CanMove(s, SendHand(0, true, true)); }
  }

  lemma HandCanDrop(s: State, h: Hand)
    requires Inv(s) && Settled(s) && h.Has? && (h == s.show || h == s.ui || h == s.send)
    ensures CanDrop(s, h.g)
  {
    RoutesAreNumbered(s, h.g);
    OwedCanDrop(s, h.g);
  }

  lemma HandsMove(s: State)
    requires Inv(s) && Settled(s) && (s.show.Has? || s.ui.Has? || s.send.Has?)
    ensures exists e :: CanMove(s, e)
  {
    if s.show.Has? { HandCanDrop(s, s.show); }
    if s.ui.Has? { HandCanDrop(s, s.ui); }
    if s.send.Has? { HandCanDrop(s, s.send); }
    HandMoves(s);
  }

  lemma MailMoves(s: State)
    requires !s.show.Has? && !s.ui.Has? && !s.send.Has? && (s.showMbx != [] || s.uiMbx != [] || s.sendMbx != [])
    ensures exists e :: CanMove(s, e)
  {
    if s.showMbx != [] { assert CanMove(s, ShowPend); }
    else if s.uiMbx != [] { assert CanMove(s, UiPend); }
    else { assert CanMove(s, SendPend); }
  }

  lemma WorkerMoves(s: State, e: D.Event)
    requires Inv(s) && Settled(s) && D.Enabled(s.dsp, e) && (e.Finish? || e.Report? || e.Route?)
    ensures exists e' :: CanMove(s, e')
  {
    match e {
      case Finish(d) => WorkerGroup(s, d); FinishMoves(s, d);
      case Report(d) => WorkerGroup(s, d); ReportMoves(s, d);
      case Route(d) => RouteMoves(s, d);
    }
  }

  lemma DspMoves(s: State, e: D.Event)
    requires Inv(s) && Settled(s) && D.TaskCanMove(s.dsp, e)
    ensures exists e' :: CanMove(s, e')
  {
    if Internal(e) {
      assert CanMove(s, DspStep(e));
    } else {
      WorkerMoves(s, e);
    }
  }

  lemma WorkerGroup(s: State, d: nat)
    requires Inv(s) && Settled(s) && d < D.DSPS && (s.dsp.worker[d].WRun? || s.dsp.worker[d].WReport?)
    ensures s.dsp.worker[d].g == s.dsp.slot[d] < GROUPS && CanSend(s, s.dsp.worker[d].g)
  {
    assert D.DspOk(s.dsp, d);
    assert d == 0 || d == 1;
    RoutesAreNumbered(s, s.dsp.worker[d].g);
    OwedCanDrop(s, s.dsp.worker[d].g);
  }

  lemma FinishMoves(s: State, d: nat)
    requires CanFinish(s, d)
    ensures exists e :: CanMove(s, e)
  {
    assert CanMove(s, WorkFinish(d, 0, 0, 0));
  }

  lemma ReportMoves(s: State, d: nat)
    requires CanReport(s, d)
    ensures exists e :: CanMove(s, e)
  {
    assert CanMove(s, WorkReport(d, true, true));
  }

  lemma RouteMoves(s: State, d: nat)
    requires CanWorkRoute(s, d, true)
    ensures exists e :: CanMove(s, e)
  {
    assert CanMove(s, WorkRoute(d, true));
  }

  /** No deadlock: as long as the pipeline is not at rest, some task can move. */
  lemma SomebodyMoves(s: State)
    requires Inv(s) && Settled(s)
    ensures AtRest(s) || exists e :: CanMove(s, e)
  {
    if !Waits(s.cap) { CaptureMoves(s); }
    else if s.over != OIdle { InterruptMoves(s); }
    else if s.show.Has? || s.ui.Has? || s.send.Has? { HandsMove(s); }
    else if s.showMbx != [] || s.uiMbx != [] || s.sendMbx != [] { MailMoves(s); }
    else {
      D.NoDeadlock(s.dsp);
      if !D.AtRest(s.dsp) {
        var e :| D.TaskCanMove(s.dsp, e);
        DspMoves(s, e);
      }
    }
  }

  // ---------------------------------------------------------------- nobody runs for ever

  function CapWork(cap: Capture): nat {
    match cap
    case CDiscard(_, left) => left
    case CGot(_) => 21
    case CNumbered(_) => 20
    case CShown(_) => 15
    case CRouted(_) => 12
    case CJudged(_) => 1
    case _ => 0
  }

  function OverWork(over: Interrupt): nat {
    if over.OGot? then 2 else if over.OFilled? then 1 else 0
  }

  function MailWork(s: State): nat {
    4 * |s.showMbx| + 3 * One(s.show.Has?) + 2 * |s.uiMbx| + One(s.ui.Has?)
    + 2 * |s.sendMbx| + One(s.send.Has?)
  }

  /** At most how many inner steps are left. */
  function Work(s: State): nat
    requires D.Sized(s.dsp)
  {
    CapWork(s.cap) + OverWork(s.over) + MailWork(s) + D.Work(s.dsp)
  }

  ghost predicate Drops(s: State, s': State)
    requires D.Sized(s.dsp)
  {
    D.Sized(s'.dsp) && Work(s') < Work(s)
  }

  lemma NumberDrops(s: State, reading: N.u32, wheel: nat)
    requires D.Sized(s.dsp) && CanNumber(s)
    ensures Drops(s, NumberStep(s, reading, wheel))
  {}

  lemma DiscardDrops(s: State)
    requires D.Sized(s.dsp) && CanDiscard(s)
    ensures Drops(s, DiscardStep(s))
  {}

  lemma ShowStepDrops(s: State)
    requires D.Sized(s.dsp) && s.cap.CNumbered?
    ensures Drops(s, ShowStep(s))
  {}

  lemma RouteDrops(s: State)
    requires D.Sized(s.dsp) && CanRoute(s)
    ensures Drops(s, RouteStep(s))
  {}

  lemma JudgeDrops(s: State)
    requires D.Sized(s.dsp) && CanJudge(s)
    ensures Drops(s, JudgeStep(s))
  {}

  lemma LateCaptureDrops(s: State, e: Event)
    requires D.Sized(s.dsp) && Settled(s) && CanMove(s, e) && (e.CapSend? || e.OverFill? || e.OverSend?)
    ensures Drops(s, Next(s, e))
  {}

  lemma ShowDrops(s: State, e: Event)
    requires D.Sized(s.dsp) && Settled(s) && CanMove(s, e) && (e.ShowPend? || e.ShowHand? || e.UiPend? || e.UiFinish?)
    ensures Drops(s, Next(s, e))
  {}

  lemma SendDrops(s: State, e: Event)
    requires D.Sized(s.dsp) && Settled(s) && CanMove(s, e) && (e.SendPend? || e.SendHand?)
    ensures Drops(s, Next(s, e))
  {}

  lemma DspDrops(s: State, e: Event)
    requires D.Sized(s.dsp) && Settled(s) && CanMove(s, e)
    requires e.WorkFinish? || e.WorkReport? || e.WorkRoute? || e.DspStep?
    ensures Drops(s, Next(s, e))
  {
    match e {
      case WorkFinish(d, _, _, _) => D.WorkDrops(s.dsp, D.Finish(d));
      case WorkReport(d, _, _) => D.WorkDrops(s.dsp, D.Report(d));
      case WorkRoute(d, _) => D.WorkDrops(s.dsp, D.Route(d));
      case DspStep(e') => D.WorkDrops(s.dsp, e');
    }
  }

  lemma StepDrops(s: State, e: Event)
    requires D.Sized(s.dsp) && Settled(s) && CanMove(s, e)
    ensures Drops(s, Next(s, e))
  {
    if e.CapNumber? { NumberDrops(s, e.reading, e.wheel); }
    else if e.CapDiscard? { DiscardDrops(s); }
    else if e.CapShow? { ShowStepDrops(s); }
    else if e.CapRoute? { RouteDrops(s); }
    else if e.CapJudge? { JudgeDrops(s); }
    else if e.CapSend? || e.OverFill? || e.OverSend? { LateCaptureDrops(s, e); }
    else if e.ShowPend? || e.ShowHand? || e.UiPend? || e.UiFinish? { ShowDrops(s, e); }
    else if e.SendPend? || e.SendHand? { SendDrops(s, e); }
    else { DspDrops(s, e); }
  }

  lemma StaysSettled(s: State, e: Event)
    requires Inv(s) && Settled(s) && CanMove(s, e)
    ensures Inv(Next(s, e)) && Settled(Next(s, e)) && Work(Next(s, e)) < Work(s)
  {
    StepInv(s, e);
    StepDrops(s, e);
    MostAreHarmless(s, e);
  }

  ghost predicate InnerRun(s: State, es: seq<Event>, t: State) {
    Run(s, es, t) && forall i :: 0 <= i < |es| ==> Inner(es[i])
  }

  lemma InnerTail(s: State, es: seq<Event>, t: State)
    requires InnerRun(s, es, t) && es != []
    ensures CanMove(s, es[0]) && InnerRun(Next(s, es[0]), es[1..], t)
  {
    assert forall i :: 0 <= i < |es[1..]| ==> es[1..][i] == es[i + 1];
  }

  /** Main result: without new arrivals every run is finite: Work counts its steps, whatever
      the tasks do and in whatever order. */
  lemma {:induction false} InnerRunsEnd(s: State, es: seq<Event>, t: State)
    requires Inv(s) && Settled(s) && InnerRun(s, es, t)
    ensures Inv(t) && Settled(t) && |es| + Work(t) <= Work(s)
    decreases |es|
  {
    if es != [] {
      InnerTail(s, es, t);
      StaysSettled(s, es[0]);
      InnerRunsEnd(Next(s, es[0]), es[1..], t);
    }
  }

  lemma MoveOn(s: State) returns (e: Event)
    requires Inv(s) && Settled(s) && !AtRest(s)
    ensures CanMove(s, e) && Inv(Next(s, e)) && Settled(Next(s, e)) && Work(Next(s, e)) < Work(s)
  {
    SomebodyMoves(s);
    e :| CanMove(s, e);
    StaysSettled(s, e);
  }

  lemma InnerCons(s: State, e: Event, rest: seq<Event>, t: State)
    requires CanMove(s, e) && InnerRun(Next(s, e), rest, t)
    ensures InnerRun(s, [e] + rest, t)
  {
    assert ([e] + rest)[1..] == rest;
  }

  /** Main result: and where no step is left, the pipeline is at rest, so that from every
      state it comes to rest by inner steps alone. With AllBackAtRest, every group and
      every buffer in flight that has not been forgotten comes back. */
  lemma {:induction false} ComesToRest(s: State) returns (es: seq<Event>, t: State)
    requires Inv(s) && Settled(s)
    ensures InnerRun(s, es, t) && Inv(t) && AtRest(t) && |es| <= Work(s)
    decreases Work(s)
  {
    if AtRest(s) {
      es, t := [], s;
    } else {
      var e := MoveOn(s);
      var rest;
      rest, t := ComesToRest(Next(s, e));
      InnerCons(s, e, rest, t);
      es := [e] + rest;
    }
  }

  lemma StaysUnlocked(s: State, es: seq<Event>, t: State)
    requires IsInit(s) && Run(s, es, t)
    requires s.store.channels == Both ==> Skips(es) < GROUPS - VID2_BUF_MAX - 2
    ensures Inv(t) && Settled(t)
  {
    InitInv(s);
    if s.store.channels == Both {
      RunInv(s, es, t);
      LockNeedsSkips(s, es, t);
      CrashLocksRun(s, es, t);
    } else {
      PoolNeverEmpty(s, es, t);
    }
  }

  /** Main result: after every run from the start, with one channel, or with two and fewer
      than 23 skipped images, the inner steps lead to rest. */
  lemma ReachableComesToRest(s: State, es: seq<Event>, t: State) returns (rest: seq<Event>, u: State)
    requires IsInit(s) && Run(s, es, t)
    requires s.store.channels == Both ==> Skips(es) < GROUPS - VID2_BUF_MAX - 2
    ensures InnerRun(t, rest, u) && Inv(u) && AtRest(u)
  {
    StaysUnlocked(s, es, t);
    rest, u := ComesToRest(t);
  }
}
