/** Which images go where, and in which order: to the user interface, one for each
    permission, and to the network, as the send mode says. */
module PipelineRoutes {
  import opened Counting
  import opened GroupStore
  import opened Pipeline
  import opened PipelineResults
  import D = DspProtocol

  function InHand(h: Hand): seq<nat> {
    if h.Has? then [h.g] else []
  }

  // ---------------------------------------------------------------- to the network

  /** Images on their way to send_image_info, oldest first. */
  function ToNetwork(s: State): seq<nat> {
    InHand(s.send) + s.sendMbx
  }

  /** The image a step hands to image_send_tsk: in send mode 1 every image of the capture
      task, in send mode 2 those the DSP wants to have uploaded, in no other mode any. */
  function Posts(s: State, e: Event): seq<nat>
    requires Enabled(s, e)
  {
    match e
    case CapRoute => if s.sendMode == 1 then [s.cap.g] else []
    case WorkRoute(d, upload) => if s.sendMode == 2 && upload then [s.dsp.worker[d].g] else []
    case _ => []
  }

  function Hands(s: State, e: Event): seq<nat>
    requires Enabled(s, e)
  {
    if e.SendHand? then [s.send.g] else []
  }

  lemma NetworkOthers(s: State, e: Event)
    requires Enabled(s, e) && !e.CapRoute? && !e.WorkRoute? && !e.SendPend? && !e.SendHand?
    ensures Next(s, e).send == s.send && Next(s, e).sendMbx == s.sendMbx
  {}

  lemma NetworkStep(s: State, e: Event)
    requires Enabled(s, e)
    ensures ToNetwork(s) + Posts(s, e) == Hands(s, e) + ToNetwork(Next(s, e))
  {
    if e.SendPend? { assert s.sendMbx == [s.sendMbx[0]] + s.sendMbx[1..]; }
    else if !e.CapRoute? && !e.WorkRoute? && !e.SendHand? { NetworkOthers(s, e); }
  }

  ghost function Posted(states: seq<State>, es: seq<Event>, k: nat): seq<nat>
    requires Trace(states, es) && k <= |es|
  {
    if k == 0 then [] else
      assert Moves(states[k - 1], es[k - 1], states[k]);
      Posted(states, es, k - 1) + Posts(states[k - 1], es[k - 1])
  }

  ghost function Handed(states: seq<State>, es: seq<Event>, k: nat): seq<nat>
    requires Trace(states, es) && k <= |es|
  {
    if k == 0 then [] else
      assert Moves(states[k - 1], es[k - 1], states[k]);
      Handed(states, es, k - 1) + Hands(states[k - 1], es[k - 1])
  }

  lemma Chained(a: seq<nat>, p: seq<nat>, h: seq<nat>, b: seq<nat>, p': seq<nat>, h': seq<nat>, c: seq<nat>)
    requires a + p == h + b && b + p' == h' + c
    ensures a + (p + p') == (h + h') + c
  {
    assert a + (p + p') == (a + p) + p' == (h + b) + p' == h + (b + p') == h + (h' + c);
  }

  lemma NetworkMove(s: State, e: Event, s': State)
    requires Moves(s, e, s')
    ensures ToNetwork(s) + Posts(s, e) == Hands(s, e) + ToNetwork(s')
  {
    NetworkStep(s, e);
  }

  /** Main result: send_image_info gets exactly the images the send mode asks for, each
      once, in the order in which they were posted. */
  lemma {:induction false} NetworkImagesInOrder(states: seq<State>, es: seq<Event>, k: nat)
    requires Trace(states, es) && k <= |es|
    ensures ToNetwork(states[0]) + Posted(states, es, k) == Handed(states, es, k) + ToNetwork(states[k])
  {
    if k > 0 {
      NetworkImagesInOrder(states, es, k - 1);
      var s, e := states[k - 1], es[k - 1];
      assert Moves(s, e, states[k]);
      NetworkMove(s, e, states[k]);
      Chained(ToNetwork(states[0]), Posted(states, es, k - 1), Handed(states, es, k - 1), ToNetwork(s),
              Posts(s, e), Hands(s, e), ToNetwork(states[k]));
    }
  }

  /** The others lose their network reference at once: in send mode 0 and, without a DSP, in
      mode 2 by the capture task, and in mode 2 by the worker. */
  lemma OthersAreDropped(s: State, e: Event)
    requires Enabled(s, e) && ((e.CapRoute? && s.sendMode <= 2) || (e.WorkRoute? && s.sendMode == 2))
    requires Posts(s, e) == []
    ensures e.CapRoute? ==> Victim(s, e) == if s.sendMode == 2 && s.judgeMode == 0 then -1 else s.cap.g
    ensures e.WorkRoute? ==> Victim(s, e) == s.dsp.worker[e.d].g
  {}

  // ---------------------------------------------------------------- to the user interface

  /** Images on their way through image_show_tsk, and to the user interface. */
  function ToShow(s: State): seq<nat> {
    InHand(s.show) + s.showMbx
  }

  function ToUi(s: State): seq<nat> {
    InHand(s.ui) + s.uiMbx
  }

  function Numbers(s: State, e: Event): seq<nat>
    requires Enabled(s, e)
  {
    if e.CapShow? then [s.cap.g] else []
  }

  function Looks(s: State, e: Event): seq<nat>
    requires Enabled(s, e)
  {
    if e.ShowHand? then [s.show.g] else []
  }

  /** An image is shown if a user interface is connected and has asked for one. */
  predicate Shows(s: State, e: Event) {
    e.ShowHand? && e.connected && s.uiAble
  }

  function Shown(s: State, e: Event): seq<nat>
    requires Enabled(s, e)
  {
    if Shows(s, e) then [s.show.g] else []
  }

  function Finishes(s: State, e: Event): seq<nat>
    requires Enabled(s, e)
  {
    if e.UiFinish? then [s.ui.g] else []
  }

  ghost predicate SameUi(s: State, s': State) {
    s'.show == s.show && s'.showMbx == s.showMbx && s'.ui == s.ui && s'.uiMbx == s.uiMbx
  }

  lemma CaptureLeavesUi(s: State, e: Event)
    requires Enabled(s, e)
    requires e.CapTake? || e.CapFirst? || e.CapSkip? || e.CapSecond? || e.CapNumber? || e.CapDiscard? || e.CapRoute?
             || e.CapJudge? || e.CapSend? || e.OverTake? || e.OverFill? || e.OverSend?
    ensures SameUi(s, Next(s, e))
  {}

  lemma RoutesLeaveUi(s: State, e: Event)
    requires Enabled(s, e)
    requires e.UiReady? || e.SendPend? || e.SendHand? || e.WorkFinish? || e.WorkReport? || e.WorkRoute? || e.DspStep?
             || e.NetStep? || e.CounterReset? || e.SetModes?
    ensures SameUi(s, Next(s, e))
  {}

  lemma UiOthers(s: State, e: Event)
    requires Enabled(s, e) && !e.CapShow? && !e.ShowPend? && !e.ShowHand? && !e.UiPend? && !e.UiFinish?
    ensures SameUi(s, Next(s, e))
  {
    if e.UiReady? || e.SendPend? || e.SendHand? || e.WorkFinish? || e.WorkReport? || e.WorkRoute? || e.DspStep?
       || e.NetStep? || e.CounterReset? || e.SetModes?
    {
      RoutesLeaveUi(s, e);
    } else {
      CaptureLeavesUi(s, e);
    }
  }

  lemma UiKeepsShow(s: State, e: Event)
    requires Enabled(s, e) && (e.UiPend? || e.UiFinish?)
    ensures ToShow(Next(s, e)) == ToShow(s)
  {}

  lemma LooksStep(s: State, e: Event)
    requires Enabled(s, e)
    ensures ToShow(s) + Numbers(s, e) == Looks(s, e) + ToShow(Next(s, e))
  {
    if e.ShowPend? { assert s.showMbx == [s.showMbx[0]] + s.showMbx[1..]; }
    else if e.UiPend? || e.UiFinish? { UiKeepsShow(s, e); }
    else if !e.CapShow? && !e.ShowHand? { UiOthers(s, e); }
  }

  lemma ShowKeepsUi(s: State, e: Event)
    requires Enabled(s, e) && (e.CapShow? || e.ShowPend?)
    ensures ToUi(Next(s, e)) == ToUi(s)
  {}

  lemma UiStep(s: State, e: Event)
    requires Enabled(s, e)
    ensures ToUi(s) + Shown(s, e) == Finishes(s, e) + ToUi(Next(s, e))
  {
    if e.UiPend? { assert s.uiMbx == [s.uiMbx[0]] + s.uiMbx[1..]; }
    else if e.CapShow? || e.ShowPend? { ShowKeepsUi(s, e); }
    else if !e.ShowHand? && !e.UiFinish? { UiOthers(s, e); }
  }

  /** Every numbered image is looked at once, in order; those shown are finished once, in
      order. */
  lemma UiImagesInOrder(s: State, e: Event)
    requires Enabled(s, e)
    ensures ToShow(s) + Numbers(s, e) == Looks(s, e) + ToShow(Next(s, e))
    ensures ToUi(s) + Shown(s, e) == Finishes(s, e) + ToUi(Next(s, e))
  {
    LooksStep(s, e);
    UiStep(s, e);
  }

  lemma PermissionOthers(s: State, e: Event)
    requires Enabled(s, e) && !e.ShowHand? && !e.UiReady?
    ensures Next(s, e).uiAble == s.uiAble
  {}

  /** An image takes the permission, and only the user interface gives it again. */
  lemma PermissionExactly(s: State, e: Event)
    requires Enabled(s, e)
    ensures Next(s, e).uiAble <==> e.UiReady? || (s.uiAble && !Shows(s, e))
  {
    if !e.ShowHand? && !e.UiReady? { PermissionOthers(s, e); }
  }

  ghost function ShownTimes(states: seq<State>, es: seq<Event>, k: nat): nat
    requires k <= |es| <= |states|
  {
    if k == 0 then 0 else ShownTimes(states, es, k - 1) + One(Shows(states[k - 1], es[k - 1]))
  }

  ghost function ReadyTimes(es: seq<Event>, k: nat): nat
    requires k <= |es|
  {
    if k == 0 then 0 else ReadyTimes(es, k - 1) + One(es[k - 1].UiReady?)
  }

  /** Main result: the user interface never gets more images than it has asked for. */
  lemma {:induction false} OnePerPermission(states: seq<State>, es: seq<Event>, k: nat)
    requires Trace(states, es) && k <= |es|
    ensures ShownTimes(states, es, k) + One(states[k].uiAble) <= One(states[0].uiAble) + ReadyTimes(es, k)
  {
    if k > 0 {
      OnePerPermission(states, es, k - 1);
      assert Moves(states[k - 1], es[k - 1], states[k]);
      PermissionExactly(states[k - 1], es[k - 1]);
    }
  }

  // ---------------------------------------------------------------- to the DSPs

  /** In every reachable state an image is taken for the DSPs exactly if judge mode 0 is
      set, fewer than 3 wait and no update of the parameters is under way. */
  lemma AcceptsExactly(s: State)
    requires Reachable(s)
    ensures Accepts(s) <==> s.judgeMode == 0 && |D.Waiting(s.dsp)| < 3 && s.dsp.rect == D.RWait
  {
    ReachableInv(s);
  }
}
