/** The whole sample pipeline as one step system: capture, overclock interrupt, UI
    route, network-image route, DSP route and uploads, in any interleaving. One step is
    one call that takes a lock, or one decision between two such calls. */
module Pipeline {
  import opened Counting
  import opened GroupStore
  import D = DspProtocol
  import U = Upload
  import N = SampleCount

  /** image_capture_tsk (image/video_context.c:251-492): before producing a group; with
      a group; with the first of two images; with images counted; dropping the
      references of an image taken during a reset; numbered; after the UI post;
      after the network-image branch; before send_sample_info. */
  datatype Capture =
    | CTop | CRaw(g: nat) | CHalf(g: nat) | CGot(g: nat) | CDiscard(g: nat, left: nat)
    | CNumbered(g: nat) | CShown(g: nat) | CRouted(g: nat) | CJudged(g: nat)

  /** The overclock arm of sig_handler (fpga/fpga.c:93-139). */
  datatype Interrupt = OIdle | OGot(g: nat, count: nat) | OFilled(g: nat) | OCrashed

  /** What a task between two mailbox calls has in its hands. */
  datatype Hand = Empty | Has(g: nat)

  /** `dropped`: groups lost by the two-channel reset branch. `stuckImage` and
      `stuckResult`: groups for which the code has reached a branch that never
      releases the network-image or the result reference. All three are history. */
  datatype State = State(
    sendMode: nat, judgeMode: nat,
    store: Store, num: N.History, net: U.State, dsp: D.State,
    cap: Capture, over: Interrupt,
    showMbx: seq<nat>, show: Hand, uiMbx: seq<nat>, ui: Hand, uiAble: bool,
    sendMbx: seq<nat>, send: Hand,
    dropped: set<nat>, stuckImage: set<nat>, stuckResult: set<nat>)

  datatype Event =
    | CapTake | CapFirst(b: nat) | CapSkip | CapSecond(b: nat)
    | CapNumber(reading: N.u32, wheel: nat) | CapDiscard
    | CapShow | CapRoute | CapJudge | CapSend(link: bool, gotMsg: bool)
    | OverTake(reading: N.u32) | OverFill(wheel: nat) | OverSend(link: bool, gotMsg: bool)
    | ShowPend | ShowHand(connected: bool) | UiPend | UiFinish | UiReady
    | SendPend | SendHand(picture: nat, link: bool, gotMsg: bool)
    | WorkFinish(d: nat, time: nat, payload: nat, decide: nat)
    | WorkReport(d: nat, link: bool, gotMsg: bool)
    | WorkRoute(d: nat, upload: bool)
    | DspStep(dspEvent: D.Event)
    | NetStep(netEvent: U.Event)
    | CounterReset
    | SetModes(sendMode: nat, judgeMode: nat)

  // ---------------------------------------------------------------- steps

  predicate CanDrop(s: State, g: nat) {
    Sized(s.store) && g < GROUPS && Pointers(s.store, g) && CanRelease(s.store, g)
  }

  function Drop(s: State, g: nat): State
    requires CanDrop(s, g)
  {
    s.(store := Release(s.store, g))
  }

  predicate CanSend(s: State, g: nat) {
    CanDrop(s, g) && s.net.index < |s.net.ring|
  }

  /** send_sample_info(g, video_context_release): the record is copied, then the group
      is released, on every path. The mailbox always has room: Mailbox.NeverFull. */
  function SendSampleInfo(s: State, g: nat, link: bool, gotMsg: bool): State
    requires CanSend(s, g)
  {
    Drop(s, g).(net := U.SendSample(s.net, s.store.group[g].info, link, gotMsg, true))
  }

  // capture task

  predicate CanProduce(s: State) {
    Sized(s.store) && !s.store.locked && (s.store.pool != [] ==> s.store.pool[0] < GROUPS)
  }

  /** sample_factory_produce: on an empty pool it returns with the lock held. */
  function Produced(s: State): State
    requires CanProduce(s)
  {
    if s.store.pool == [] then s.(store := s.store.(locked := true)) else s.(store := TakeGroup(s.store))
  }

  function TakeStep(s: State): State
    requires CanProduce(s)
  {
    if s.store.pool == [] then Produced(s) else Produced(s).(cap := CRaw(s.store.pool[0]))
  }

  predicate CanFirst(s: State, b: nat) {
    Sized(s.store) && s.cap.CRaw? && s.cap.g < GROUPS && b < BUFS && FirstQueue(s.store)[b] > 0
  }

  function FirstStep(s: State, b: nat): State
    requires CanFirst(s, b)
  {
    if s.store.channels == Both then s.(store := TakeFirst(s.store, s.cap.g, b), cap := CHalf(s.cap.g))
    else s.(store := TakeSole(s.store, s.cap.g, b), cap := CGot(s.cap.g))
  }

  predicate CanSkip(s: State) {
    Sized(s.store) && s.cap.CHalf? && s.cap.g < GROUPS
  }

  function SkipStep(s: State): State
    requires CanSkip(s)
  {
    s.(store := GiveBackFirst(s.store, s.cap.g), cap := CTop, dropped := s.dropped + {s.cap.g})
  }

  predicate CanSecond(s: State, b: nat) {
    CanSkip(s) && b < BUFS && s.store.queue2[b] > 0 && s.store.group[s.cap.g].image0 < BUFS
  }

  function SecondStep(s: State, b: nat): State
    requires CanSecond(s, b)
  {
    s.(store := TakeSecond(s.store, s.cap.g, b), cap := CGot(s.cap.g))
  }

  predicate CanNumber(s: State) {
    s.cap.CGot? && s.cap.g < GROUPS && Sized(s.store) && N.Sized(s.num)
  }

  /** An image left without a number keeps the zero its record was produced with. */
  function NumberedInfo(info: SampleInfo, o: N.Outcome, wheel: nat): SampleInfo {
    info.(count := if o.Numbered? then o.n else info.count, wheel := wheel)
  }

  function NumberStep(s: State, reading: N.u32, wheel: nat): State
    requires CanNumber(s)
  {
    var g := s.cap.g;
    var o := N.Capture(s.num.c, reading).1;
    var s1 := s.(num := N.Step(s.num, N.EvCapture(reading)));
    if o == N.Discarded then s1.(cap := CDiscard(g, 3))
    else
      s1.(cap := CNumbered(g),
          store := MarkCamera(SetInfo(s.store, g, NumberedInfo(s.store.group[g].info, o, wheel)), g))
  }

  predicate CanDiscard(s: State) {
    s.cap.CDiscard? && s.cap.left > 0 && CanDrop(s, s.cap.g)
  }

  function DiscardStep(s: State): State
    requires CanDiscard(s)
  {
    Drop(s, s.cap.g).(cap := if s.cap.left == 1 then CTop else CDiscard(s.cap.g, s.cap.left - 1))
  }

  function ShowStep(s: State): State
    requires s.cap.CNumbered?
  {
    s.(cap := CShown(s.cap.g), showMbx := s.showMbx + [s.cap.g])
  }

  /** Send mode 2 with judge mode 0 leaves the network-image decision to the DSP worker. */
  predicate Carries(s: State) {
    s.sendMode == 2 && s.judgeMode == 0
  }

  /** Lines 392-406: mode 0, and mode 2 without the DSP, drop the image reference. */
  predicate DropsImage(s: State) {
    s.sendMode == 0 || (s.sendMode == 2 && s.judgeMode != 0)
  }

  predicate CanRoute(s: State) {
    s.cap.CShown? && (DropsImage(s) ==> CanDrop(s, s.cap.g))
  }

  function RouteStep(s: State): State
    requires CanRoute(s)
  {
    var g := s.cap.g;
    if s.sendMode == 1 then s.(cap := CRouted(g), sendMbx := s.sendMbx + [g])
    else if DropsImage(s) then Drop(s, g).(cap := CRouted(g))
    else if Carries(s) then s.(cap := CRouted(g))
    else s.(cap := CRouted(g), stuckImage := s.stuckImage + {g})
  }

  predicate Accepts(s: State) {
    s.judgeMode == 0 && D.Accepts(s.dsp)
  }

  /** Lines 426-436 and 446-489: what the capture task itself writes into a record. */
  function JudgedInfo(mode: nat, info: SampleInfo): SampleInfo {
    if mode == 0 then info.(flag := 2, algoTime := 0xFFFF_FFFF, kickPos := 1)
    else info.(kickPos := if mode == 3 then 0 else mode)
  }

  predicate CanJudge(s: State) {
    s.cap.CRouted? && s.cap.g < GROUPS && Sized(s.store) && D.Sized(s.dsp)
  }

  /** The judge-mode chain up to the call of send_sample_info. A mode above 3 does
      nothing at all. */
  function JudgeStep(s: State): State
    requires CanJudge(s)
  {
    var g := s.cap.g;
    if Accepts(s) then s.(cap := CTop, dsp := D.Next(s.dsp, D.Offer(g)))
    else if s.judgeMode > 3 then s.(cap := CTop, stuckResult := s.stuckResult + {g})
    else
      s.(cap := CJudged(g),
         store := SetInfo(s.store, g, JudgedInfo(s.judgeMode, s.store.group[g].info)),
         stuckImage := if Carries(s) then s.stuckImage + {g} else s.stuckImage)
  }

  predicate CanCapSend(s: State) {
    s.cap.CJudged? && CanSend(s, s.cap.g)
  }

  function CapSendStep(s: State, link: bool, gotMsg: bool): State
    requires CanCapSend(s)
  {
    SendSampleInfo(s, s.cap.g, link, gotMsg).(cap := CTop)
  }

  // overclock interrupt

  predicate CanOverTake(s: State) {
    s.over == OIdle && CanProduce(s) && N.Sized(s.num)
  }

  /** On an empty pool the handler goes on with a null pointer. */
  function OverTakeStep(s: State, reading: N.u32): State
    requires CanOverTake(s)
  {
    var s1 := Produced(s).(num := N.Step(s.num, N.EvOverclock(reading)));
    if s.store.pool == [] then s1.(over := OCrashed) else s1.(over := OGot(s.store.pool[0], reading))
  }

  predicate CanOverFill(s: State) {
    s.over.OGot? && s.over.g < GROUPS && Sized(s.store)
  }

  function OverFillStep(s: State, wheel: nat): State
    requires CanOverFill(s)
  {
    s.(store := FillOverclock(s.store, s.over.g, SampleInfo(s.over.count, 1, 0, wheel, 0, 1)),
        over := OFilled(s.over.g))
  }

  predicate CanOverSend(s: State) {
    s.over.OFilled? && CanSend(s, s.over.g)
  }

  function OverSendStep(s: State, link: bool, gotMsg: bool): State
    requires CanOverSend(s)
  {
    SendSampleInfo(s, s.over.g, link, gotMsg).(over := OIdle)
  }

  // UI route: image_show_tsk, send_ui_image_info, ui_send_tsk

  predicate CanShowPend(s: State) {
    s.show == Empty && s.showMbx != []
  }

  function ShowPendStep(s: State): State
    requires CanShowPend(s)
  {
    s.(show := Has(s.showMbx[0]), showMbx := s.showMbx[1..])
  }

  predicate CanShowHand(s: State, connected: bool) {
    s.show.Has? && ((connected && s.uiAble) || CanDrop(s, s.show.g))
  }

  function ShowHandStep(s: State, connected: bool): State
    requires CanShowHand(s, connected)
  {
    if connected && s.uiAble then s.(show := Empty, uiMbx := s.uiMbx + [s.show.g], uiAble := false)
    else Drop(s, s.show.g).(show := Empty)
  }

  predicate CanUiPend(s: State) {
    s.ui == Empty && s.uiMbx != []
  }

  function UiPendStep(s: State): State
    requires CanUiPend(s)
  {
    s.(ui := Has(s.uiMbx[0]), uiMbx := s.uiMbx[1..])
  }

  predicate CanUiFinish(s: State) {
    s.ui.Has? && CanDrop(s, s.ui.g)
  }

  /** Recycling the UI message runs its release callback. */
  function UiFinishStep(s: State): State
    requires CanUiFinish(s)
  {
    Drop(s, s.ui.g).(ui := Empty)
  }

  // network-image route: image_send_tsk, send_image_info

  predicate CanSendPend(s: State) {
    s.send == Empty && s.sendMbx != []
  }

  function SendPendStep(s: State): State
    requires CanSendPend(s)
  {
    s.(send := Has(s.sendMbx[0]), sendMbx := s.sendMbx[1..])
  }

  predicate CanSendHand(s: State) {
    s.send.Has? && CanDrop(s, s.send.g)
  }

  function SendHandStep(s: State, picture: nat, link: bool, gotMsg: bool): State
    requires CanSendHand(s)
  {
    Drop(s, s.send.g).(send := Empty, net := U.SendImage(s.net, picture, link, gotMsg, true))
  }

  // DSP route: dsp1_process_tsk, dsp2_process_tsk

  /** The DSP events that touch no sample record, no reference and no upload. */
  predicate Internal(e: D.Event) {
    !e.Offer? && !e.Finish? && !e.Report? && !e.Route?
  }

  predicate CanDspStep(s: State, e: D.Event) {
    D.Sized(s.dsp) && Internal(e) && D.Enabled(s.dsp, e)
  }

  function DspStepStep(s: State, e: D.Event): State
    requires CanDspStep(s, e)
  {
    s.(dsp := D.Next(s.dsp, e))
  }

  predicate CanFinish(s: State, d: nat) {
    Sized(s.store) && D.Sized(s.dsp) && D.Enabled(s.dsp, D.Finish(d)) && s.dsp.slot[d] < GROUPS
  }

  /** Where the DSP says a sample goes: only the places 0, 1 and 2 of the low half are
      taken over, any other becomes 0; the high half stays. */
  function KickPos(decide: nat): nat {
    if decide % 0x1_0000 <= 2 then decide else decide - decide % 0x1_0000
  }

  /** What the DSP and its worker write into the record. */
  function DecidedInfo(info: SampleInfo, time: nat, payload: nat, decide: nat): SampleInfo {
    info.(algoTime := time, payload := payload, kickPos := KickPos(decide), flag := 0)
  }

  function FinishStep(s: State, d: nat, time: nat, payload: nat, decide: nat): State
    requires CanFinish(s, d)
  {
    var g := s.dsp.slot[d];
    var info := DecidedInfo(s.store.group[g].info, time, payload, decide);
    s.(store := SetInfo(s.store, g, info), dsp := D.Next(s.dsp, D.Finish(d)))
  }

  predicate CanReport(s: State, d: nat) {
    D.Sized(s.dsp) && D.Enabled(s.dsp, D.Report(d)) && CanSend(s, s.dsp.worker[d].g)
  }

  function ReportStep(s: State, d: nat, link: bool, gotMsg: bool): State
    requires CanReport(s, d)
  {
    SendSampleInfo(s, s.dsp.worker[d].g, link, gotMsg).(dsp := D.Next(s.dsp, D.Report(d)))
  }

  predicate CanWorkRoute(s: State, d: nat, upload: bool) {
    D.Sized(s.dsp) && D.Enabled(s.dsp, D.Route(d)) && (s.sendMode == 2 && !upload ==> CanDrop(s, s.dsp.worker[d].g))
  }

  function WorkRouteStep(s: State, d: nat, upload: bool): State
    requires CanWorkRoute(s, d, upload)
  {
    var g := s.dsp.worker[d].g;
    var s1 := s.(dsp := D.Next(s.dsp, D.Route(d)));
    if s.sendMode != 2 then s1
    else if upload then s1.(sendMbx := s.sendMbx + [g])
    else s1.(store := Release(s.store, g))
  }

  // everything else

  /** Upload events of other tasks; the record and image calls are steps of their own. */
  predicate CanNetStep(s: State, e: U.Event) {
    (e.EvControl? || e.EvPend? || e.EvFinish?) && U.Enabled(s.net, e)
  }

  /** The modes may change whenever no group is between the two places that read them. */
  predicate CanSetModes(s: State) {
    !s.cap.CShown? && !s.cap.CRouted? && D.Sized(s.dsp) && D.Quiet(s.dsp)
  }

  predicate Enabled(s: State, e: Event) {
    match e
    case CapTake => s.cap == CTop && CanProduce(s)
    case CapFirst(b) => CanFirst(s, b)
    case CapSkip => CanSkip(s)
    case CapSecond(b) => CanSecond(s, b)
    case CapNumber(_, _) => CanNumber(s)
    case CapDiscard => CanDiscard(s)
    case CapShow => s.cap.CNumbered?
    case CapRoute => CanRoute(s)
    case CapJudge => CanJudge(s)
    case CapSend(_, _) => CanCapSend(s)
    case OverTake(_) => CanOverTake(s)
    case OverFill(_) => CanOverFill(s)
    case OverSend(_, _) => CanOverSend(s)
    case ShowPend => CanShowPend(s)
    case ShowHand(connected) => CanShowHand(s, connected)
    case UiPend => CanUiPend(s)
    case UiFinish => CanUiFinish(s)
    case UiReady => true
    case SendPend => CanSendPend(s)
    case SendHand(_, _, _) => CanSendHand(s)
    case WorkFinish(d, _, _, _) => CanFinish(s, d)
    case WorkReport(d, _, _) => CanReport(s, d)
    case WorkRoute(d, upload) => CanWorkRoute(s, d, upload)
    case DspStep(e') => CanDspStep(s, e')
    case NetStep(e') => CanNetStep(s, e')
    case CounterReset => N.Sized(s.num)
    case SetModes(_, _) => CanSetModes(s)
  }

  function Next(s: State, e: Event): State
    requires Enabled(s, e)
  {
    match e
    case CapTake => TakeStep(s)
    case CapFirst(b) => FirstStep(s, b)
    case CapSkip => SkipStep(s)
    case CapSecond(b) => SecondStep(s, b)
    case CapNumber(reading, wheel) => NumberStep(s, reading, wheel)
    case CapDiscard => DiscardStep(s)
    case CapShow => ShowStep(s)
    case CapRoute => RouteStep(s)
    case CapJudge => JudgeStep(s)
    case CapSend(link, gotMsg) => CapSendStep(s, link, gotMsg)
    case OverTake(reading) => OverTakeStep(s, reading)
    case OverFill(wheel) => OverFillStep(s, wheel)
    case OverSend(link, gotMsg) => OverSendStep(s, link, gotMsg)
    case ShowPend => ShowPendStep(s)
    case ShowHand(connected) => ShowHandStep(s, connected)
    case UiPend => UiPendStep(s)
    case UiFinish => UiFinishStep(s)
    case UiReady => s.(uiAble := true)
    case SendPend => SendPendStep(s)
    case SendHand(picture, link, gotMsg) => SendHandStep(s, picture, link, gotMsg)
    case WorkFinish(d, time, payload, decide) => FinishStep(s, d, time, payload, decide)
    case WorkReport(d, link, gotMsg) => ReportStep(s, d, link, gotMsg)
    case WorkRoute(d, upload) => WorkRouteStep(s, d, upload)
    case DspStep(e') => DspStepStep(s, e')
    case NetStep(e') => s.(net := U.Next(s.net, e'))
    case CounterReset => s.(num := N.Step(s.num, N.EvReset))
    case SetModes(sendMode, judgeMode) => s.(sendMode := sendMode, judgeMode := judgeMode)
  }

  // ---------------------------------------------------------------- who owes what

  function CapGroup(cap: Capture): int {
    if cap == CTop then -1 else cap.g
  }

  /** What the capture task itself still owes its group: UI, network image, result.
      `carries`: the image reference goes with the result. */
  function CapUi(cap: Capture): nat {
    match cap
    case CGot(_) => 1
    case CNumbered(_) => 1
    case CDiscard(_, left) => One(left >= 1)
    case _ => 0
  }

  function CapImage(cap: Capture, carries: bool): nat {
    match cap
    case CGot(_) => 1
    case CNumbered(_) => 1
    case CShown(_) => 1
    case CRouted(_) => One(carries)
    case CDiscard(_, left) => One(left >= 2)
    case _ => 0
  }

  function CapResult(cap: Capture): nat {
    match cap
    case CGot(_) => 1
    case CNumbered(_) => 1
    case CShown(_) => 1
    case CRouted(_) => 1
    case CJudged(_) => 1
    case CDiscard(_, left) => One(left >= 3)
    case _ => 0
  }

  function UiRoute(showMbx: seq<nat>, show: Hand, uiMbx: seq<nat>, ui: Hand, g: nat): nat {
    D.Count(showMbx, g) + One(show == Has(g)) + D.Count(uiMbx, g) + One(ui == Has(g))
  }

  function ImageRoute(sendMbx: seq<nat>, send: Hand, stuck: set<nat>, g: nat): nat {
    D.Count(sendMbx, g) + One(send == Has(g)) + One(g in stuck)
  }

  function UiOwed(s: State, g: nat): nat {
    (if CapGroup(s.cap) == g then CapUi(s.cap) else 0) + UiRoute(s.showMbx, s.show, s.uiMbx, s.ui, g)
  }

  function ImageOwed(s: State, g: nat): nat
    requires D.Sized(s.dsp)
  {
    (if CapGroup(s.cap) == g then CapImage(s.cap, Carries(s)) else 0)
    + ImageRoute(s.sendMbx, s.send, s.stuckImage, g)
    + (if Carries(s) then D.Owed(s.dsp, g) + D.Routing(s.dsp, g) else 0)
  }

  function ResultOwed(s: State, g: nat): nat
    requires D.Sized(s.dsp)
  {
    (if CapGroup(s.cap) == g then CapResult(s.cap) else 0) + D.Owed(s.dsp, g) + One(g in s.stuckResult)
  }

  function Owes(s: State, g: nat): nat
    requires D.Sized(s.dsp)
  {
    UiOwed(s, g) + ImageOwed(s, g) + ResultOwed(s, g)
  }

  predicate RawClaim(s: State, g: nat) {
    s.cap == CRaw(g) || (s.over.OGot? && s.over.g == g)
  }

  /** The uses other than by owed releases. */
  function Claims(s: State, g: nat): nat {
    One(s.cap == CRaw(g)) + One(s.over.OGot? && s.over.g == g) + One(s.cap == CHalf(g))
    + One(s.over == OFilled(g)) + One(g in s.dropped)
  }

  /** Line 384 has not been reached for g. */
  predicate Unnumbered(s: State, g: nat) {
    CapGroup(s.cap) == g && (s.cap.CGot? || s.cap.CDiscard?)
  }

  function PhaseOf(s: State, g: nat): Phase
    requires D.Sized(s.dsp)
  {
    if RawClaim(s, g) then Raw
    else if s.cap == CHalf(g) then Half
    else if s.over == OFilled(g) then Overclock
    else if g in s.dropped then Dropped
    else if Owes(s, g) > 0 then Owed(Owes(s, g), !Unnumbered(s, g))
    else Free
  }

  function Phases(s: State): (ph: seq<Phase>)
    requires D.Sized(s.dsp)
    ensures |ph| == GROUPS && forall g :: 0 <= g < GROUPS ==> ph[g] == PhaseOf(s, g)
  {
    PhasesUpTo(s, GROUPS)
  }

  function PhasesUpTo(s: State, n: nat): (ph: seq<Phase>)
    requires D.Sized(s.dsp)
    ensures |ph| == n && forall g :: 0 <= g < n ==> ph[g] == PhaseOf(s, g)
  {
    if n == 0 then [] else PhasesUpTo(s, n - 1) + [PhaseOf(s, n - 1)]
  }

  /** Each route owes at most one release for g, a group has one use at a time, and the
      capture task shares g with nobody before line 384. */
  predicate GroupOwed(s: State, g: nat)
    requires D.Sized(s.dsp)
  {
    && UiOwed(s, g) <= 1 && ImageOwed(s, g) <= 1 && ResultOwed(s, g) <= 1
    && Claims(s, g) + One(Owes(s, g) > 0) <= 1
    && (Claims(s, g) + Owes(s, g) > 0 ==> g < GROUPS)
    && (Unnumbered(s, g) ==> Owes(s, g) == CapUi(s.cap) + CapImage(s.cap, Carries(s)) + CapResult(s.cap))
  }

  ghost predicate Inv(s: State) {
    && N.Sized(s.num) && U.Inv(s.net) && D.Inv(s.dsp)
    && (forall g: nat :: GroupOwed(s, g))
    && StoreInv(s.store, Phases(s))
    && (s.cap.CDiscard? ==> 1 <= s.cap.left <= 3)
    && (s.cap.CHalf? ==> s.store.channels == Both)
    && (s.judgeMode != 0 ==> D.Quiet(s.dsp))
  }

  // ---------------------------------------------------------------- life of a group

  /** The group an event releases a reference of, or -1. */
  function Victim(s: State, e: Event): int
    requires Enabled(s, e)
  {
    match e
    case CapDiscard => s.cap.g
    case CapRoute => if DropsImage(s) then s.cap.g else -1
    case CapSend(_, _) => s.cap.g
    case OverSend(_, _) => s.over.g
    case ShowHand(connected) => if connected && s.uiAble then -1 else s.show.g
    case UiFinish => s.ui.g
    case SendHand(_, _, _) => s.send.g
    case WorkReport(d, _, _) => s.dsp.worker[d].g
    case WorkRoute(d, upload) => if s.sendMode == 2 && !upload then s.dsp.worker[d].g else -1
    case _ => -1
  }

  /** The life of a group: pool, produced, filled, shared by three routes, marked as a
      camera group, then one release after another back to the pool. */
  predicate Transition(p: Phase, q: Phase, released: bool) {
    if released then (p.Owed? && p.n > 0 && q == Released(p)) || (p == Overclock && q == Free)
    else
      || q == p
      || (p == Free && q == Raw)
      || (p == Raw && (q == Half || q == Owed(3, false) || q == Overclock))
      || (p == Half && (q == Owed(3, false) || q == Dropped))
      || (p == Owed(3, false) && q == Owed(3, true))
  }

  /** Every group takes at most one transition, and `victim` alone is released. */
  ghost predicate Lives(s: State, s': State, victim: int)
    requires D.Sized(s.dsp) && D.Sized(s'.dsp)
  {
    forall g :: 0 <= g < GROUPS ==> Transition(PhaseOf(s, g), PhaseOf(s', g), victim == g)
  }
}
