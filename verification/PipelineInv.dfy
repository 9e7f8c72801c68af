/** Every step of the pipeline keeps its invariant. */
module PipelineInv {
  import opened Counting
  import opened GroupStore
  import opened Pipeline
  import D = DspProtocol
  import U = Upload
  import N = SampleCount

  function OverGroup(over: Interrupt): int {
    if over.OGot? || over.OFilled? then over.g else -1
  }

  /** Nothing that concerns group h changed hands. */
  ghost predicate SameUse(s: State, s': State, h: nat)
    requires D.Sized(s.dsp) && D.Sized(s'.dsp)
  {
    && (CapGroup(s.cap) == h || CapGroup(s'.cap) == h ==> s.cap == s'.cap)
    && (OverGroup(s.over) == h || OverGroup(s'.over) == h ==> s.over == s'.over)
    && (h in s.dropped <==> h in s'.dropped)
    && UiRoute(s.showMbx, s.show, s.uiMbx, s.ui, h) == UiRoute(s'.showMbx, s'.show, s'.uiMbx, s'.ui, h)
    && ImageRoute(s.sendMbx, s.send, s.stuckImage, h) == ImageRoute(s'.sendMbx, s'.send, s'.stuckImage, h)
    && (h in s.stuckResult <==> h in s'.stuckResult)
    && Carries(s) == Carries(s')
    && D.Owed(s.dsp, h) == D.Owed(s'.dsp, h) && D.Routing(s.dsp, h) == D.Routing(s'.dsp, h)
  }

  lemma SameUseSamePhase(s: State, s': State, h: nat)
    requires D.Sized(s.dsp) && D.Sized(s'.dsp) && SameUse(s, s', h)
    ensures PhaseOf(s', h) == PhaseOf(s, h) && (GroupOwed(s, h) ==> GroupOwed(s', h))
  {}

  ghost predicate AllOwed(s: State)
    requires D.Sized(s.dsp)
  {
    forall h: nat :: GroupOwed(s, h)
  }

  /** Only group g changed its use. */
  lemma Settle(s: State, s': State, g: nat)
    requires D.Sized(s.dsp) && D.Sized(s'.dsp) && g < GROUPS
    requires AllOwed(s) && GroupOwed(s', g)
    requires forall h: nat :: h != g ==> SameUse(s, s', h)
    ensures AllOwed(s') && Phases(s') == Phases(s)[g := PhaseOf(s', g)]
  {
    forall h: nat ensures GroupOwed(s', h) && (h != g ==> PhaseOf(s', h) == PhaseOf(s, h)) {
      if h != g { SameUseSamePhase(s, s', h); }
    }
  }

  lemma SettleAll(s: State, s': State)
    requires D.Sized(s.dsp) && D.Sized(s'.dsp) && AllOwed(s)
    requires forall h: nat :: SameUse(s, s', h)
    ensures AllOwed(s') && Phases(s') == Phases(s)
  {
    forall h: nat ensures GroupOwed(s', h) && PhaseOf(s', h) == PhaseOf(s, h) {
      SameUseSamePhase(s, s', h);
    }
  }

  lemma OneMoves(s: State, s': State, victim: int, g: nat, p: Phase)
    requires D.Sized(s.dsp) && D.Sized(s'.dsp) && g < GROUPS
    requires Phases(s') == Phases(s)[g := p]
    requires Transition(PhaseOf(s, g), p, victim == g) && (victim == g || victim == -1)
    ensures Lives(s, s', victim)
  {
    forall h | 0 <= h < GROUPS ensures Transition(PhaseOf(s, h), PhaseOf(s', h), victim == h) {
      assert Phases(s')[h] == PhaseOf(s', h) && Phases(s)[h] == PhaseOf(s, h);
    }
  }

  lemma NoneMoves(s: State, s': State)
    requires D.Sized(s.dsp) && D.Sized(s'.dsp) && Phases(s') == Phases(s)
    ensures Lives(s, s', -1)
  {
    forall h | 0 <= h < GROUPS ensures PhaseOf(s, h) == PhaseOf(s', h) {
      assert Phases(s')[h] == PhaseOf(s', h) && Phases(s)[h] == PhaseOf(s, h);
    }
  }

  /** The parts of the invariant other than the store and the references. */
  ghost predicate Rest(s: State) {
    && N.Sized(s.num) && U.Inv(s.net) && D.Inv(s.dsp)
    && (s.cap.CDiscard? ==> 1 <= s.cap.left <= 3)
    && (s.cap.CHalf? ==> s.store.channels == Both)
    && (s.judgeMode != 0 ==> D.Quiet(s.dsp))
  }

  lemma TakeOwed(s: State)
    requires D.Sized(s.dsp) && AllOwed(s) && s.cap == CTop && CanProduce(s) && s.store.pool != []
    requires PhaseOf(s, s.store.pool[0]) == Free
    ensures var s' := TakeStep(s);
            AllOwed(s') && Phases(s') == Phases(s)[s.store.pool[0] := Raw]
  {
    var g := s.store.pool[0];
    assert GroupOwed(s, g);
    Settle(s, TakeStep(s), g);
  }

  lemma TakeKeeps(s: State)
    requires Inv(s) && s.cap == CTop && CanProduce(s)
    ensures Inv(TakeStep(s)) && Lives(s, TakeStep(s), -1)
  {
    if s.store.pool == [] {
      LockKeeps(s.store, Phases(s));
      SettleAll(s, TakeStep(s));
    } else {
      TakeGroupKeeps(s.store, Phases(s));
      TakeOwed(s);
    }
    if s.store.pool == [] {
      NoneMoves(s, TakeStep(s));
    } else {
      OneMoves(s, TakeStep(s), -1, s.store.pool[0], Raw);
    }
  }

  lemma FirstOwed(s: State, b: nat)
    requires D.Sized(s.dsp) && AllOwed(s) && CanFirst(s, b)
    ensures var s' := FirstStep(s, b);
            AllOwed(s') && Phases(s') == Phases(s)[s.cap.g := if s.store.channels == Both then Half else Owed(3, false)]
  {
    assert GroupOwed(s, s.cap.g);
    Settle(s, FirstStep(s, b), s.cap.g);
  }

  lemma FirstKeeps(s: State, b: nat)
    requires Inv(s) && CanFirst(s, b)
    ensures Inv(FirstStep(s, b)) && Lives(s, FirstStep(s, b), -1)
  {
    FirstOwed(s, b);
    assert GroupOwed(s, s.cap.g);
    if s.store.channels == Both { TakeFirstKeeps(s.store, Phases(s), s.cap.g, b); }
    else { TakeSoleKeeps(s.store, Phases(s), s.cap.g, b); }
    OneMoves(s, FirstStep(s, b), -1, s.cap.g, if s.store.channels == Both then Half else Owed(3, false));
  }

  lemma SkipKeeps(s: State)
    requires Inv(s) && CanSkip(s)
    ensures Inv(SkipStep(s)) && Lives(s, SkipStep(s), -1)
  {
    assert GroupOwed(s, s.cap.g);
    Settle(s, SkipStep(s), s.cap.g);
    GiveBackFirstKeeps(s.store, Phases(s), s.cap.g);
    OneMoves(s, SkipStep(s), -1, s.cap.g, Dropped);
  }

  lemma SecondOwed(s: State, b: nat)
    requires D.Sized(s.dsp) && AllOwed(s) && CanSecond(s, b)
    ensures var s' := SecondStep(s, b);
            AllOwed(s') && Phases(s') == Phases(s)[s.cap.g := Owed(3, false)]
  {
    assert GroupOwed(s, s.cap.g);
    Settle(s, SecondStep(s, b), s.cap.g);
  }

  lemma SecondKeeps(s: State, b: nat)
    requires Inv(s) && CanSecond(s, b)
    ensures Inv(SecondStep(s, b)) && Lives(s, SecondStep(s, b), -1)
  {
    SecondOwed(s, b);
    assert GroupOwed(s, s.cap.g);
    TakeSecondKeeps(s.store, Phases(s), s.cap.g, b);
    OneMoves(s, SecondStep(s, b), -1, s.cap.g, Owed(3, false));
  }

  lemma NumberOwed(s: State, s': State)
    requires D.Sized(s.dsp) && AllOwed(s) && s.cap.CGot?
    requires s' == s.(num := s'.num, store := s'.store, cap := s'.cap)
    requires s'.cap == CDiscard(s.cap.g, 3) || s'.cap == CNumbered(s.cap.g)
    ensures AllOwed(s') && s.cap.g < GROUPS && PhaseOf(s, s.cap.g) == Owed(3, false)
    ensures Phases(s') == Phases(s)[s.cap.g := Owed(3, s'.cap.CNumbered?)]
  {
    assert GroupOwed(s, s.cap.g);
    Settle(s, s', s.cap.g);
  }

  lemma NumberStore(s: State, info: SampleInfo)
    requires Inv(s) && CanNumber(s) && PhaseOf(s, s.cap.g) == Owed(3, false)
    ensures StoreInv(MarkCamera(SetInfo(s.store, s.cap.g, info), s.cap.g), Phases(s)[s.cap.g := Owed(3, true)])
  {
    SetInfoKeeps(s.store, Phases(s), s.cap.g, info);
    MarkCameraKeeps(SetInfo(s.store, s.cap.g, info), Phases(s), s.cap.g);
  }

  lemma NumberKeeps(s: State, reading: N.u32, wheel: nat)
    requires Inv(s) && CanNumber(s)
    ensures Inv(NumberStep(s, reading, wheel)) && Lives(s, NumberStep(s, reading, wheel), -1)
  {
    var s' := NumberStep(s, reading, wheel);
    var g := s.cap.g;
    NumberOwed(s, s');
    if s'.cap.CNumbered? {
      NumberStore(s, NumberedInfo(s.store.group[g].info, N.Capture(s.num.c, reading).1, wheel));
    } else {
      assert Phases(s') == Phases(s);
    }
    OneMoves(s, s', -1, g, Owed(3, s'.cap.CNumbered?));
  }

  /** After s has released g once, and lost one owed release of g, the store agrees
      with the references again. */
  lemma DropStore(s: State, s': State, g: nat)
    requires Inv(s) && CanDrop(s, g) && D.Sized(s'.dsp)
    requires PhaseOf(s, g).Owed?
    requires s'.store == Release(s.store, g)
    requires Phases(s') == Phases(s)[g := Released(PhaseOf(s, g))]
    ensures StoreInv(s'.store, Phases(s')) && s'.store.channels == s.store.channels
  {
    ReleaseKeeps(s.store, Phases(s), g);
  }

  lemma DiscardOwed(s: State)
    requires D.Sized(s.dsp) && AllOwed(s) && CanDiscard(s) && s.cap.left <= 3
    ensures var s' := DiscardStep(s);
            AllOwed(s') && PhaseOf(s, s.cap.g) == Owed(s.cap.left, false)
            && Phases(s') == Phases(s)[s.cap.g := Released(PhaseOf(s, s.cap.g))]
  {
    assert GroupOwed(s, s.cap.g);
    Settle(s, DiscardStep(s), s.cap.g);
  }

  lemma DiscardKeeps(s: State)
    requires Inv(s) && CanDiscard(s)
    ensures Inv(DiscardStep(s)) && Lives(s, DiscardStep(s), s.cap.g)
  {
    DiscardOwed(s);
    DropStore(s, DiscardStep(s), s.cap.g);
    OneMoves(s, DiscardStep(s), s.cap.g, s.cap.g, Released(PhaseOf(s, s.cap.g)));
  }

  lemma ShowOwed(s: State)
    requires D.Sized(s.dsp) && AllOwed(s) && s.cap.CNumbered?
    ensures var s' := ShowStep(s);
            AllOwed(s') && Phases(s') == Phases(s)
  {
    var g := s.cap.g;
    assert GroupOwed(s, g);
    forall h: nat ensures D.Count(s.showMbx + [g], h) == D.Count(s.showMbx, h) + One(g == h) {
      D.CountAppend(s.showMbx, g, h);
    }
    Settle(s, ShowStep(s), g);
  }

  lemma ShowKeeps(s: State)
    requires Inv(s) && s.cap.CNumbered?
    ensures Inv(ShowStep(s)) && Lives(s, ShowStep(s), -1)
  {
    ShowOwed(s);
    NoneMoves(s, ShowStep(s));
  }

  lemma RouteSendOwed(s: State)
    requires D.Sized(s.dsp) && AllOwed(s) && CanRoute(s) && s.sendMode == 1
    ensures var s' := RouteStep(s);
            AllOwed(s') && Phases(s') == Phases(s)
  {
    var g := s.cap.g;
    assert GroupOwed(s, g);
    forall h: nat ensures D.Count(s.sendMbx + [g], h) == D.Count(s.sendMbx, h) + One(g == h) {
      D.CountAppend(s.sendMbx, g, h);
    }
    Settle(s, RouteStep(s), g);
  }

  lemma RouteDropOwed(s: State)
    requires D.Sized(s.dsp) && AllOwed(s) && CanRoute(s) && DropsImage(s)
    ensures var s' := RouteStep(s);
            AllOwed(s') && PhaseOf(s, s.cap.g).Owed?
            && Phases(s') == Phases(s)[s.cap.g := Released(PhaseOf(s, s.cap.g))]
  {
    assert GroupOwed(s, s.cap.g);
    Settle(s, RouteStep(s), s.cap.g);
  }

  lemma RouteCarryOwed(s: State, s': State)
    requires D.Sized(s.dsp) && AllOwed(s) && s.cap.CShown? && Carries(s)
    requires s' == s.(cap := CRouted(s.cap.g))
    ensures AllOwed(s') && Phases(s') == Phases(s)
  {
    assert GroupOwed(s, s.cap.g);
    Settle(s, s', s.cap.g);
  }

  lemma RouteStuckOwed(s: State, s': State)
    requires D.Sized(s.dsp) && AllOwed(s) && s.cap.CShown? && !Carries(s)
    requires s' == s.(cap := CRouted(s.cap.g), stuckImage := s.stuckImage + {s.cap.g})
    ensures AllOwed(s') && Phases(s') == Phases(s)
  {
    assert GroupOwed(s, s.cap.g);
    Settle(s, s', s.cap.g);
  }

  lemma RouteKeeps(s: State)
    requires Inv(s) && CanRoute(s)
    ensures Inv(RouteStep(s)) && Lives(s, RouteStep(s), if DropsImage(s) then s.cap.g else -1)
  {
    if s.sendMode == 1 { RouteSendOwed(s); }
    else if DropsImage(s) {
      RouteDropOwed(s);
      DropStore(s, RouteStep(s), s.cap.g);
    } else if Carries(s) {
      RouteCarryOwed(s, RouteStep(s));
    } else {
      RouteStuckOwed(s, RouteStep(s));
    }
    if DropsImage(s) {
      OneMoves(s, RouteStep(s), s.cap.g, s.cap.g, Released(PhaseOf(s, s.cap.g)));
    } else {
      NoneMoves(s, RouteStep(s));
    }
  }

  // ---------------------------------------------------------------- the judge branch

  /** A group accepted for a DSP hands over its result reference and, if it goes with
      the result, its network-image reference. */
  lemma AcceptOwed(s: State)
    requires D.Inv(s.dsp) && AllOwed(s) && CanJudge(s) && Accepts(s)
    ensures var s' := JudgeStep(s);
            AllOwed(s') && Phases(s') == Phases(s)
  {
    var g := s.cap.g;
    assert GroupOwed(s, g);
    var d' := D.Next(s.dsp, D.Offer(g));
    forall h: nat
      ensures D.Owed(d', h) == D.Owed(s.dsp, h) + One(h == g) && D.Routing(d', h) == D.Routing(s.dsp, h)
    {
      D.GroupsAreConserved(s.dsp, D.Offer(g), h);
    }
    Settle(s, JudgeStep(s), g);
  }

  lemma JudgedOwed(s: State, s': State)
    requires D.Sized(s.dsp) && AllOwed(s) && s.cap.CRouted?
    requires s' == s.(cap := CJudged(s.cap.g), store := s'.store,
                      stuckImage := if Carries(s) then s.stuckImage + {s.cap.g} else s.stuckImage)
    ensures AllOwed(s') && Phases(s') == Phases(s)
  {
    assert GroupOwed(s, s.cap.g);
    Settle(s, s', s.cap.g);
  }

  lemma StuckResultOwed(s: State)
    requires D.Sized(s.dsp) && AllOwed(s) && CanJudge(s) && s.judgeMode > 3
    ensures var s' := JudgeStep(s);
            AllOwed(s') && Phases(s') == Phases(s)
  {
    assert GroupOwed(s, s.cap.g);
    Settle(s, JudgeStep(s), s.cap.g);
  }

  lemma JudgeKeeps(s: State)
    requires Inv(s) && CanJudge(s)
    ensures Inv(JudgeStep(s)) && Lives(s, JudgeStep(s), -1)
  {
    var g := s.cap.g;
    if Accepts(s) {
      AcceptOwed(s);
      D.StepInv(s.dsp, D.Offer(g));
    } else if s.judgeMode > 3 {
      StuckResultOwed(s);
    } else {
      JudgedOwed(s, JudgeStep(s));
      SetInfoKeeps(s.store, Phases(s), g, JudgedInfo(s.judgeMode, s.store.group[g].info));
    }
    NoneMoves(s, JudgeStep(s));
  }

  /** send_sample_info on any group that owes a result, seen from the store and the
      upload state. */
  lemma SendKeeps(s: State, g: nat, link: bool, gotMsg: bool)
    requires Inv(s) && CanSend(s, g)
    ensures U.Inv(SendSampleInfo(s, g, link, gotMsg).net)
  {
    U.SendSampleKeeps(s.net, s.store.group[g].info, link, gotMsg);
  }

  lemma CapSendOwed(s: State, s': State)
    requires D.Sized(s.dsp) && AllOwed(s) && s.cap.CJudged?
    requires s' == s.(cap := CTop, store := s'.store, net := s'.net)
    ensures AllOwed(s') && s.cap.g < GROUPS && PhaseOf(s, s.cap.g).Owed?
    ensures Phases(s') == Phases(s)[s.cap.g := Released(PhaseOf(s, s.cap.g))]
  {
    assert GroupOwed(s, s.cap.g);
    Settle(s, s', s.cap.g);
  }

  lemma CapSendKeeps(s: State, link: bool, gotMsg: bool)
    requires Inv(s) && CanCapSend(s)
    ensures Inv(CapSendStep(s, link, gotMsg)) && Lives(s, CapSendStep(s, link, gotMsg), s.cap.g)
  {
    var s' := CapSendStep(s, link, gotMsg);
    SendKeeps(s, s.cap.g, link, gotMsg);
    CapSendOwed(s, s');
    DropStore(s, s', s.cap.g);
    OneMoves(s, CapSendStep(s, link, gotMsg), s.cap.g, s.cap.g, Released(PhaseOf(s, s.cap.g)));
  }

  // ---------------------------------------------------------------- overclock interrupt

  lemma OverTakeOwed(s: State, s': State)
    requires D.Sized(s.dsp) && AllOwed(s) && s.over == OIdle && s.store.pool != [] && s.store.pool[0] < GROUPS
    requires PhaseOf(s, s.store.pool[0]) == Free
    requires s' == s.(over := s'.over, store := s'.store, num := s'.num)
    requires s'.over.OGot? && s'.over.g == s.store.pool[0]
    ensures AllOwed(s') && Phases(s') == Phases(s)[s.store.pool[0] := Raw]
  {
    assert GroupOwed(s, s.store.pool[0]);
    Settle(s, s', s.store.pool[0]);
  }

  lemma OverCrashOwed(s: State, s': State)
    requires D.Sized(s.dsp) && AllOwed(s) && s.over == OIdle
    requires s' == s.(over := OCrashed, store := s'.store, num := s'.num)
    ensures AllOwed(s') && Phases(s') == Phases(s)
  {
    SettleAll(s, s');
  }

  lemma OverTakeKeeps(s: State, reading: N.u32)
    requires Inv(s) && CanOverTake(s)
    ensures Inv(OverTakeStep(s, reading)) && Lives(s, OverTakeStep(s, reading), -1)
  {
    var s' := OverTakeStep(s, reading);
    if s.store.pool == [] {
      LockKeeps(s.store, Phases(s));
      OverCrashOwed(s, s');
    } else {
      TakeGroupKeeps(s.store, Phases(s));
      OverTakeOwed(s, s');
    }
    if s.store.pool == [] {
      NoneMoves(s, s');
    } else {
      OneMoves(s, s', -1, s.store.pool[0], Raw);
    }
  }

  lemma OverFillOwed(s: State, s': State)
    requires D.Sized(s.dsp) && AllOwed(s) && s.over.OGot?
    requires s' == s.(over := OFilled(s.over.g), store := s'.store)
    ensures AllOwed(s') && s.over.g < GROUPS && PhaseOf(s, s.over.g) == Raw
    ensures Phases(s') == Phases(s)[s.over.g := Overclock]
  {
    assert GroupOwed(s, s.over.g);
    Settle(s, s', s.over.g);
  }

  lemma OverFillKeeps(s: State, wheel: nat)
    requires Inv(s) && CanOverFill(s)
    ensures Inv(OverFillStep(s, wheel)) && Lives(s, OverFillStep(s, wheel), -1)
  {
    OverFillOwed(s, OverFillStep(s, wheel));
    FillOverclockKeeps(s.store, Phases(s), s.over.g, SampleInfo(s.over.count, 1, 0, wheel, 0, 1));
    OneMoves(s, OverFillStep(s, wheel), -1, s.over.g, Overclock);
  }

  lemma OverSendOwed(s: State, s': State)
    requires D.Sized(s.dsp) && AllOwed(s) && s.over.OFilled?
    requires s' == s.(over := OIdle, store := s'.store, net := s'.net)
    ensures AllOwed(s') && s.over.g < GROUPS && PhaseOf(s, s.over.g) == Overclock
    ensures Phases(s') == Phases(s)[s.over.g := Free]
  {
    assert GroupOwed(s, s.over.g);
    Settle(s, s', s.over.g);
  }

  lemma OverSendKeeps(s: State, link: bool, gotMsg: bool)
    requires Inv(s) && CanOverSend(s)
    ensures Inv(OverSendStep(s, link, gotMsg)) && Lives(s, OverSendStep(s, link, gotMsg), s.over.g)
  {
    var s' := OverSendStep(s, link, gotMsg);
    SendKeeps(s, s.over.g, link, gotMsg);
    OverSendOwed(s, s');
    ReleaseOverclock(s.store, Phases(s), s.over.g);
    OneMoves(s, OverSendStep(s, link, gotMsg), s.over.g, s.over.g, Free);
  }

  // ---------------------------------------------------------------- UI and network-image routes

  /** A group goes from the head of a mailbox into a task's hands. */
  lemma ShowPendKeeps(s: State)
    requires Inv(s) && CanShowPend(s)
    ensures Inv(ShowPendStep(s)) && Lives(s, ShowPendStep(s), -1)
  {
    SettleAll(s, ShowPendStep(s));
    NoneMoves(s, ShowPendStep(s));
  }

  lemma UiPendKeeps(s: State)
    requires Inv(s) && CanUiPend(s)
    ensures Inv(UiPendStep(s)) && Lives(s, UiPendStep(s), -1)
  {
    SettleAll(s, UiPendStep(s));
    NoneMoves(s, UiPendStep(s));
  }

  lemma SendPendKeeps(s: State)
    requires Inv(s) && CanSendPend(s)
    ensures Inv(SendPendStep(s)) && Lives(s, SendPendStep(s), -1)
  {
    SettleAll(s, SendPendStep(s));
    NoneMoves(s, SendPendStep(s));
  }

  lemma ToUiOwed(s: State)
    requires D.Sized(s.dsp) && AllOwed(s) && CanShowHand(s, true) && s.uiAble
    ensures AllOwed(ShowHandStep(s, true)) && Phases(ShowHandStep(s, true)) == Phases(s)
  {
    forall h: nat ensures D.Count(s.uiMbx + [s.show.g], h) == D.Count(s.uiMbx, h) + One(s.show.g == h) {
      D.CountAppend(s.uiMbx, s.show.g, h);
    }
    SettleAll(s, ShowHandStep(s, true));
  }

  lemma ShowDropOwed(s: State, s': State)
    requires D.Sized(s.dsp) && AllOwed(s) && s.show.Has?
    requires s' == s.(show := Empty, store := s'.store)
    ensures AllOwed(s') && s.show.g < GROUPS && PhaseOf(s, s.show.g).Owed?
    ensures Phases(s') == Phases(s)[s.show.g := Released(PhaseOf(s, s.show.g))]
  {
    assert GroupOwed(s, s.show.g);
    Settle(s, s', s.show.g);
  }

  lemma ShowHandKeeps(s: State, connected: bool)
    requires Inv(s) && CanShowHand(s, connected)
    ensures Inv(ShowHandStep(s, connected))
    ensures Lives(s, ShowHandStep(s, connected), if connected && s.uiAble then -1 else s.show.g)
  {
    if connected && s.uiAble {
      ToUiOwed(s);
    } else {
      ShowDropOwed(s, ShowHandStep(s, connected));
      DropStore(s, ShowHandStep(s, connected), s.show.g);
    }
    if connected && s.uiAble {
      NoneMoves(s, ShowHandStep(s, connected));
    } else {
      OneMoves(s, ShowHandStep(s, connected), s.show.g, s.show.g, Released(PhaseOf(s, s.show.g)));
    }
  }

  lemma UiDropOwed(s: State, s': State)
    requires D.Sized(s.dsp) && AllOwed(s) && s.ui.Has?
    requires s' == s.(ui := Empty, store := s'.store)
    ensures AllOwed(s') && s.ui.g < GROUPS && PhaseOf(s, s.ui.g).Owed?
    ensures Phases(s') == Phases(s)[s.ui.g := Released(PhaseOf(s, s.ui.g))]
  {
    assert GroupOwed(s, s.ui.g);
    Settle(s, s', s.ui.g);
  }

  lemma UiFinishKeeps(s: State)
    requires Inv(s) && CanUiFinish(s)
    ensures Inv(UiFinishStep(s)) && Lives(s, UiFinishStep(s), s.ui.g)
  {
    UiDropOwed(s, UiFinishStep(s));
    DropStore(s, UiFinishStep(s), s.ui.g);
    OneMoves(s, UiFinishStep(s), s.ui.g, s.ui.g, Released(PhaseOf(s, s.ui.g)));
  }

  lemma SendDropOwed(s: State, s': State)
    requires D.Sized(s.dsp) && AllOwed(s) && s.send.Has?
    requires s' == s.(send := Empty, store := s'.store, net := s'.net)
    ensures AllOwed(s') && s.send.g < GROUPS && PhaseOf(s, s.send.g).Owed?
    ensures Phases(s') == Phases(s)[s.send.g := Released(PhaseOf(s, s.send.g))]
  {
    assert GroupOwed(s, s.send.g);
    Settle(s, s', s.send.g);
  }

  lemma SendHandKeeps(s: State, picture: nat, link: bool, gotMsg: bool)
    requires Inv(s) && CanSendHand(s)
    ensures Inv(SendHandStep(s, picture, link, gotMsg)) && Lives(s, SendHandStep(s, picture, link, gotMsg), s.send.g)
  {
    var s' := SendHandStep(s, picture, link, gotMsg);
    U.SendImageKeeps(s.net, picture, link, gotMsg);
    SendDropOwed(s, s');
    DropStore(s, s', s.send.g);
    OneMoves(s, SendHandStep(s, picture, link, gotMsg), s.send.g, s.send.g, Released(PhaseOf(s, s.send.g)));
  }

  // ---------------------------------------------------------------- DSP route

  /** An event of the DSP side after which the same groups are inside. */
  lemma DspOwedSame(s: State, e: D.Event, s': State)
    requires D.Inv(s.dsp) && D.Enabled(s.dsp, e) && !e.Offer? && !e.Report? && !e.Route?
    requires AllOwed(s) && s' == s.(dsp := D.Next(s.dsp, e), store := s'.store)
    ensures AllOwed(s') && Phases(s') == Phases(s)
  {
    var d' := D.Next(s.dsp, e);
    forall h: nat ensures D.Owed(d', h) == D.Owed(s.dsp, h) && D.Routing(d', h) == D.Routing(s.dsp, h) {
      D.GroupsAreConserved(s.dsp, e, h);
    }
    SettleAll(s, s');
  }

  lemma DspRest(s: State, e: D.Event)
    requires D.Inv(s.dsp) && D.Enabled(s.dsp, e) && !e.Offer?
    ensures D.Inv(D.Next(s.dsp, e)) && (D.Quiet(s.dsp) ==> D.Quiet(D.Next(s.dsp, e)))
  {
    D.StepInv(s.dsp, e);
    if D.Quiet(s.dsp) { D.QuietStays(s.dsp, e); }
  }

  lemma DspStepKeeps(s: State, e: D.Event)
    requires Inv(s) && CanDspStep(s, e)
    ensures Inv(DspStepStep(s, e)) && Lives(s, DspStepStep(s, e), -1)
  {
    DspOwedSame(s, e, DspStepStep(s, e));
    DspRest(s, e);
    NoneMoves(s, DspStepStep(s, e));
  }

  lemma FinishKeeps(s: State, d: nat, time: nat, payload: nat, decide: nat)
    requires Inv(s) && CanFinish(s, d)
    ensures Inv(FinishStep(s, d, time, payload, decide)) && Lives(s, FinishStep(s, d, time, payload, decide), -1)
  {
    var s' := FinishStep(s, d, time, payload, decide);
    var g := s.dsp.slot[d];
    DspOwedSame(s, D.Finish(d), s');
    DspRest(s, D.Finish(d));
    SetInfoKeeps(s.store, Phases(s), g, DecidedInfo(s.store.group[g].info, time, payload, decide));
    NoneMoves(s, FinishStep(s, d, time, payload, decide));
  }

  lemma ReportedOwed(s: State, d': D.State, g: nat, s': State)
    requires D.Sized(s.dsp) && D.Sized(d') && AllOwed(s) && D.Owed(s.dsp, g) > 0
    requires s' == s.(dsp := d', store := s'.store, net := s'.net)
    requires forall h: nat ::
               && D.Owed(d', h) == D.Owed(s.dsp, h) - One(h == g)
               && D.Routing(d', h) == D.Routing(s.dsp, h) + One(h == g)
    ensures AllOwed(s') && g < GROUPS && PhaseOf(s, g).Owed?
    ensures Phases(s') == Phases(s)[g := Released(PhaseOf(s, g))]
  {
    assert GroupOwed(s, g);
    Settle(s, s', g);
  }

  lemma ReportOwed(s: State, d: nat, s': State)
    requires D.Inv(s.dsp) && D.Enabled(s.dsp, D.Report(d)) && AllOwed(s)
    requires s' == s.(dsp := D.Next(s.dsp, D.Report(d)), store := s'.store, net := s'.net)
    ensures var g := s.dsp.worker[d].g;
            && AllOwed(s') && g < GROUPS && PhaseOf(s, g).Owed?
            && Phases(s') == Phases(s)[g := Released(PhaseOf(s, g))]
  {
    var g := s.dsp.worker[d].g;
    assert GroupOwed(s, g);
    var d' := D.Next(s.dsp, D.Report(d));
    forall h: nat
      ensures D.Owed(d', h) == D.Owed(s.dsp, h) - One(h == g) && D.Routing(d', h) == D.Routing(s.dsp, h) + One(h == g)
    {
      D.GroupsAreConserved(s.dsp, D.Report(d), h);
    }
    ReportedOwed(s, d', g, s');
  }

  lemma ReportKeeps(s: State, d: nat, link: bool, gotMsg: bool)
    requires Inv(s) && CanReport(s, d)
    ensures Inv(ReportStep(s, d, link, gotMsg)) && Lives(s, ReportStep(s, d, link, gotMsg), s.dsp.worker[d].g)
  {
    var s' := ReportStep(s, d, link, gotMsg);
    SendKeeps(s, s.dsp.worker[d].g, link, gotMsg);
    ReportOwed(s, d, s');
    DspRest(s, D.Report(d));
    DropStore(s, s', s.dsp.worker[d].g);
    OneMoves(s, ReportStep(s, d, link, gotMsg), s.dsp.worker[d].g,
             s.dsp.worker[d].g, Released(PhaseOf(s, s.dsp.worker[d].g)));
  }

  lemma WorkRouteMoves(s: State, d: nat, h: nat)
    requires D.Inv(s.dsp) && D.Enabled(s.dsp, D.Route(d))
    ensures var d' := D.Next(s.dsp, D.Route(d));
            && D.Owed(d', h) == D.Owed(s.dsp, h)
            && D.Routing(d', h) == D.Routing(s.dsp, h) - One(h == s.dsp.worker[d].g)
  {
    D.GroupsAreConserved(s.dsp, D.Route(d), h);
  }

  /** Outside send mode 2 the worker has nothing to route. */
  lemma WorkRouteIdleOwed(s: State, d': D.State, s': State)
    requires D.Sized(s.dsp) && D.Sized(d') && AllOwed(s) && s.sendMode != 2
    requires forall h: nat :: D.Owed(d', h) == D.Owed(s.dsp, h)
    requires s' == s.(dsp := d')
    ensures AllOwed(s') && Phases(s') == Phases(s)
  {
    forall h: nat ensures GroupOwed(s', h) && PhaseOf(s', h) == PhaseOf(s, h) {
      assert GroupOwed(s, h);
    }
  }

  ghost predicate Routed(s: State, d': D.State, g: nat)
    requires D.Sized(s.dsp) && D.Sized(d')
  {
    && D.Routing(s.dsp, g) > 0
    && forall h: nat ::
         D.Owed(d', h) == D.Owed(s.dsp, h) && D.Routing(d', h) == D.Routing(s.dsp, h) - One(h == g)
  }

  lemma WorkUploadOwed(s: State, d': D.State, g: nat, s': State)
    requires D.Sized(s.dsp) && D.Sized(d') && AllOwed(s) && Carries(s) && Routed(s, d', g)
    requires s' == s.(dsp := d', sendMbx := s.sendMbx + [g])
    ensures AllOwed(s') && Phases(s') == Phases(s)
  {
    assert GroupOwed(s, g);
    forall h: nat ensures D.Count(s.sendMbx + [g], h) == D.Count(s.sendMbx, h) + One(g == h) {
      D.CountAppend(s.sendMbx, g, h);
    }
    Settle(s, s', g);
  }

  lemma WorkDropOwed(s: State, d': D.State, g: nat, s': State)
    requires D.Sized(s.dsp) && D.Sized(d') && AllOwed(s) && Carries(s) && Routed(s, d', g)
    requires s' == s.(dsp := d', store := s'.store)
    ensures AllOwed(s') && g < GROUPS && PhaseOf(s, g).Owed?
    ensures Phases(s') == Phases(s)[g := Released(PhaseOf(s, g))]
  {
    assert GroupOwed(s, g);
    Settle(s, s', g);
  }

  lemma WorkRouteOwed(s: State, d: nat, upload: bool)
    requires Inv(s) && CanWorkRoute(s, d, upload)
    ensures var s' := WorkRouteStep(s, d, upload);
            var g := s.dsp.worker[d].g;
            && AllOwed(s')
            && if s.sendMode == 2 && !upload
               then g < GROUPS && PhaseOf(s, g).Owed? && Phases(s') == Phases(s)[g := Released(PhaseOf(s, g))]
               else Phases(s') == Phases(s)
  {
    var d' := D.Next(s.dsp, D.Route(d));
    var g := s.dsp.worker[d].g;
    forall h: nat
      ensures D.Owed(d', h) == D.Owed(s.dsp, h) && D.Routing(d', h) == D.Routing(s.dsp, h) - One(h == g)
    {
      WorkRouteMoves(s, d, h);
    }
    if s.sendMode != 2 { WorkRouteIdleOwed(s, d', WorkRouteStep(s, d, upload)); }
    else if upload { WorkUploadOwed(s, d', g, WorkRouteStep(s, d, upload)); }
    else { WorkDropOwed(s, d', g, WorkRouteStep(s, d, upload)); }
  }

  lemma WorkRouteKeeps(s: State, d: nat, upload: bool)
    requires Inv(s) && CanWorkRoute(s, d, upload)
    ensures Inv(WorkRouteStep(s, d, upload))
    ensures Lives(s, WorkRouteStep(s, d, upload), if s.sendMode == 2 && !upload then s.dsp.worker[d].g else -1)
  {
    WorkRouteOwed(s, d, upload);
    DspRest(s, D.Route(d));
    if s.sendMode == 2 && !upload {
      DropStore(s, WorkRouteStep(s, d, upload), s.dsp.worker[d].g);
    }
    if s.sendMode == 2 && !upload {
      OneMoves(s, WorkRouteStep(s, d, upload), s.dsp.worker[d].g,
               s.dsp.worker[d].g, Released(PhaseOf(s, s.dsp.worker[d].g)));
    } else {
      NoneMoves(s, WorkRouteStep(s, d, upload));
    }
  }

  // ---------------------------------------------------------------- the rest

  lemma NetStepKeeps(s: State, e: U.Event)
    requires Inv(s) && CanNetStep(s, e)
    ensures Inv(s.(net := U.Next(s.net, e))) && Lives(s, s.(net := U.Next(s.net, e)), -1)
  {
    U.StepInv(s.net, e);
    SettleAll(s, s.(net := U.Next(s.net, e)));
    NoneMoves(s, s.(net := U.Next(s.net, e)));
  }

  lemma CounterKeeps(s: State, num: N.History)
    requires Inv(s) && N.Sized(num)
    ensures Inv(s.(num := num)) && Lives(s, s.(num := num), -1)
  {
    SettleAll(s, s.(num := num));
    NoneMoves(s, s.(num := num));
  }

  lemma UiReadyKeeps(s: State)
    requires Inv(s)
    ensures Inv(s.(uiAble := true)) && Lives(s, s.(uiAble := true), -1)
  {
    SettleAll(s, s.(uiAble := true));
    NoneMoves(s, s.(uiAble := true));
  }

  lemma SetModesOwed(s: State, s': State, h: nat)
    requires D.Inv(s.dsp) && GroupOwed(s, h) && CanSetModes(s)
    requires s' == s.(sendMode := s'.sendMode, judgeMode := s'.judgeMode)
    ensures GroupOwed(s', h) && PhaseOf(s', h) == PhaseOf(s, h)
  {
    D.QuietOwesNothing(s.dsp, h);
  }

  lemma SetModesKeeps(s: State, sendMode: nat, judgeMode: nat)
    requires Inv(s) && CanSetModes(s)
    ensures Inv(s.(sendMode := sendMode, judgeMode := judgeMode))
    ensures Lives(s, s.(sendMode := sendMode, judgeMode := judgeMode), -1)
  {
    var s' := s.(sendMode := sendMode, judgeMode := judgeMode);
    forall h: nat ensures GroupOwed(s', h) && PhaseOf(s', h) == PhaseOf(s, h) {
      SetModesOwed(s, s', h);
    }
    assert Phases(s') == Phases(s);
    NoneMoves(s, s');
  }

  lemma CaptureKeeps(s: State, e: Event)
    requires Inv(s) && Enabled(s, e)
    requires e.CapTake? || e.CapFirst? || e.CapSkip? || e.CapSecond? || e.CapNumber? || e.CapDiscard?
    ensures Inv(Next(s, e)) && Lives(s, Next(s, e), Victim(s, e))
  {
    match e {
      case CapTake => TakeKeeps(s);
      case CapFirst(b) => FirstKeeps(s, b);
      case CapSkip => SkipKeeps(s);
      case CapSecond(b) => SecondKeeps(s, b);
      case CapNumber(reading, wheel) => NumberKeeps(s, reading, wheel);
      case CapDiscard => DiscardKeeps(s);
    }
  }

  lemma ShareKeeps(s: State, e: Event)
    requires Inv(s) && Enabled(s, e) && (e.CapShow? || e.CapRoute? || e.CapJudge? || e.CapSend?)
    ensures Inv(Next(s, e)) && Lives(s, Next(s, e), Victim(s, e))
  {
    match e {
      case CapShow => ShowKeeps(s);
      case CapRoute => RouteKeeps(s);
      case CapJudge => JudgeKeeps(s);
      case CapSend(link, gotMsg) => CapSendKeeps(s, link, gotMsg);
    }
  }

  lemma InterruptKeeps(s: State, e: Event)
    requires Inv(s) && Enabled(s, e) && (e.OverTake? || e.OverFill? || e.OverSend?)
    ensures Inv(Next(s, e)) && Lives(s, Next(s, e), Victim(s, e))
  {
    match e {
      case OverTake(reading) => OverTakeKeeps(s, reading);
      case OverFill(wheel) => OverFillKeeps(s, wheel);
      case OverSend(link, gotMsg) => OverSendKeeps(s, link, gotMsg);
    }
  }

  lemma UiRouteKeeps(s: State, e: Event)
    requires Inv(s) && Enabled(s, e) && (e.ShowPend? || e.ShowHand? || e.UiPend? || e.UiFinish?)
    ensures Inv(Next(s, e)) && Lives(s, Next(s, e), Victim(s, e))
  {
    match e {
      case ShowPend => ShowPendKeeps(s);
      case ShowHand(connected) => ShowHandKeeps(s, connected);
      case UiPend => UiPendKeeps(s);
      case UiFinish => UiFinishKeeps(s);
    }
  }

  lemma WorkersKeep(s: State, e: Event)
    requires Inv(s) && Enabled(s, e) && (e.WorkReport? || e.WorkRoute?)
    ensures Inv(Next(s, e)) && Lives(s, Next(s, e), Victim(s, e))
  {
    match e {
      case WorkReport(d, link, gotMsg) => ReportKeeps(s, d, link, gotMsg);
      case WorkRoute(d, upload) => WorkRouteKeeps(s, d, upload);
    }
  }

  lemma SendRouteKeeps(s: State, e: Event)
    requires Inv(s) && Enabled(s, e) && (e.SendPend? || e.SendHand?)
    ensures Inv(Next(s, e)) && Lives(s, Next(s, e), Victim(s, e))
  {
    match e {
      case SendPend => SendPendKeeps(s);
      case SendHand(picture, link, gotMsg) => SendHandKeeps(s, picture, link, gotMsg);
    }
  }

  lemma InnerStepsKeep(s: State, e: Event)
    requires Inv(s) && Enabled(s, e) && (e.WorkFinish? || e.DspStep?)
    ensures Inv(Next(s, e)) && Lives(s, Next(s, e), Victim(s, e))
  {
    match e {
      case WorkFinish(d, time, payload, decide) => FinishKeeps(s, d, time, payload, decide);
      case DspStep(e') => DspStepKeeps(s, e');
    }
  }

  lemma OthersKeep(s: State, e: Event)
    requires Inv(s) && Enabled(s, e) && (e.UiReady? || e.NetStep? || e.CounterReset? || e.SetModes?)
    ensures Inv(Next(s, e)) && Lives(s, Next(s, e), Victim(s, e))
  {
    match e {
      case UiReady => UiReadyKeeps(s);
      case NetStep(e') => NetStepKeeps(s, e');
      case CounterReset => CounterKeeps(s, N.Step(s.num, N.EvReset));
      case SetModes(sendMode, judgeMode) => SetModesKeeps(s, sendMode, judgeMode);
    }
  }

  /** Every step of every task keeps the invariant, and moves every group along its
      life by at most one transition, which is a release exactly if the step calls
      video_context_release on it. */
  lemma StepInv(s: State, e: Event)
    requires Inv(s) && Enabled(s, e)
    ensures Inv(Next(s, e)) && Lives(s, Next(s, e), Victim(s, e))
  {
    if e.CapTake? || e.CapFirst? || e.CapSkip? || e.CapSecond? || e.CapNumber? || e.CapDiscard? {
      CaptureKeeps(s, e);
    } else if e.CapShow? || e.CapRoute? || e.CapJudge? || e.CapSend? {
      ShareKeeps(s, e);
    } else if e.OverTake? || e.OverFill? || e.OverSend? {
      InterruptKeeps(s, e);
    } else if e.ShowPend? || e.ShowHand? || e.UiPend? || e.UiFinish? {
      UiRouteKeeps(s, e);
    } else if e.WorkReport? || e.WorkRoute? {
      WorkersKeep(s, e);
    } else if e.SendPend? || e.SendHand? {
      SendRouteKeeps(s, e);
    } else if e.WorkFinish? || e.DspStep? {
      InnerStepsKeep(s, e);
    } else {
      OthersKeep(s, e);
    }
  }
}
