/** What stands in the record of a group when it is uploaded: the number given to its image,
    the result of the DSP, the judgement of the capture task, or what the overclock
    interrupt has written. */
module PipelineRecords {
  import opened GroupStore
  import opened Pipeline
  import opened PipelineInv
  import opened PipelineResults
  import opened PipelineUploads
  import D = DspProtocol
  import N = SampleCount

  // ---------------------------------------------------------------- who writes into a record

  ghost predicate SameInfo(s: State, s': State, g: nat) {
    Sized(s.store) && Sized(s'.store) && g < GROUPS && s'.store.group[g].info == s.store.group[g].info
  }

  /** The steps that write into the record of g. */
  predicate Writes(s: State, e: Event, g: nat) {
    match e
    case CapTake => s.store.pool != [] && s.store.pool[0] == g
    case OverTake(_) => s.store.pool != [] && s.store.pool[0] == g
    case CapNumber(_, _) => CapGroup(s.cap) == g
    case CapJudge => CapGroup(s.cap) == g
    case OverFill(_) => s.over.OGot? && s.over.g == g
    case WorkFinish(d, _, _, _) => d < |s.dsp.slot| && s.dsp.slot[d] == g
    case _ => false
  }

  lemma FirstKeepsInfo(s: State, b: nat, g: nat)
    requires CanFirst(s, b) && g < GROUPS
    ensures SameInfo(s, FirstStep(s, b), g)
  {}

  lemma FillingKeepsInfo(s: State, e: Event, g: nat)
    requires Sized(s.store) && Enabled(s, e) && g < GROUPS && !Writes(s, e, g)
    requires e.CapFirst? || e.CapSecond? || e.OverFill?
    ensures SameInfo(s, Next(s, e), g)
  {
    if e.CapFirst? { FirstKeepsInfo(s, e.b, g); }
  }

  lemma WritingKeepsInfo(s: State, e: Event, g: nat)
    requires Sized(s.store) && Enabled(s, e) && g < GROUPS && !Writes(s, e, g)
    requires e.CapNumber? || e.CapJudge? || e.WorkFinish?
    ensures SameInfo(s, Next(s, e), g)
  {}

  lemma TakingKeepsInfo(s: State, e: Event, g: nat)
    requires Sized(s.store) && Enabled(s, e) && g < GROUPS && !Writes(s, e, g)
    requires e.CapTake? || e.OverTake?
    ensures SameInfo(s, Next(s, e), g)
  {}

  lemma ReleasingKeepsInfo(s: State, e: Event, g: nat)
    requires Sized(s.store) && Enabled(s, e) && g < GROUPS && Victim(s, e) != -1
    ensures SameInfo(s, Next(s, e), g)
  {
    VictimIsReleased(s, e);
    ReleaseKeepsGroups(s.store, Victim(s, e));
  }

  predicate Touches(e: Event) {
    e.CapFirst? || e.CapSecond? || e.OverFill? || e.CapNumber? || e.CapJudge? || e.WorkFinish?
    || e.CapTake? || e.OverTake?
  }

  lemma MailKeepsGroups(s: State, e: Event)
    requires Enabled(s, e) && Victim(s, e) == -1
    requires e.ShowPend? || e.ShowHand? || e.UiPend? || e.UiReady? || e.SendPend? || e.CapShow? || e.CapRoute?
    ensures Next(s, e).store == s.store
  {}

  lemma SkipKeepsGroups(s: State)
    requires CanSkip(s)
    ensures SkipStep(s).store.group == s.store.group && Sized(SkipStep(s).store)
  {}

  lemma RouteKeepsGroups(s: State, d: nat, upload: bool)
    requires CanWorkRoute(s, d, upload) && (s.sendMode == 2 ==> upload)
    ensures WorkRouteStep(s, d, upload).store == s.store
  {}

  lemma OthersKeepGroups(s: State, e: Event)
    requires Enabled(s, e) && Victim(s, e) == -1 && !Touches(e)
    ensures Next(s, e).store.group == s.store.group && (Sized(s.store) ==> Sized(Next(s, e).store))
  {
    if e.CapSkip? { SkipKeepsGroups(s); }
    else if e.WorkRoute? { RouteKeepsGroups(s, e.d, e.upload); }
    else if !e.DspStep? && !e.NetStep? && !e.CounterReset? && !e.SetModes? { MailKeepsGroups(s, e); }
  }

  /** No other step changes a record. */
  lemma InfoStays(s: State, e: Event, g: nat)
    requires Sized(s.store) && Enabled(s, e) && g < GROUPS && !Writes(s, e, g)
    ensures SameInfo(s, Next(s, e), g)
  {
    if Victim(s, e) != -1 { ReleasingKeepsInfo(s, e, g); }
    else if e.CapFirst? || e.CapSecond? || e.OverFill? { FillingKeepsInfo(s, e, g); }
    else if e.CapNumber? || e.CapJudge? || e.WorkFinish? { WritingKeepsInfo(s, e, g); }
    else if e.CapTake? || e.OverTake? { TakingKeepsInfo(s, e, g); }
    else { OthersKeepGroups(s, e); }
  }

  /** What an upload puts into the log, if it is accepted. */
  ghost predicate Logs(s: State, s': State, info: SampleInfo) {
    s'.net.sampleLog == s.net.sampleLog || s'.net.sampleLog == s.net.sampleLog + [info]
  }

  lemma UploadLogs(s: State, e: Event, s': State, g: nat)
    requires Moves(s, e, s') && SendsRecord(e) && Victim(s, e) == g
    ensures Sized(s.store) && g < GROUPS && Logs(s, s', s.store.group[g].info)
  {
    SendingStep(s, e);
  }

  // ---------------------------------------------------------------- numbers

  ghost predicate SameCount(s: State, s': State, g: nat) {
    Sized(s.store) && Sized(s'.store) && g < GROUPS && s'.store.group[g].info.count == s.store.group[g].info.count
  }

  lemma WritersKeepCount(s: State, e: Event, g: nat)
    requires Sized(s.store) && Enabled(s, e) && g < GROUPS && (e.CapJudge? || e.WorkFinish?)
    ensures SameCount(s, Next(s, e), g)
  {}

  /** The number given to an image stays with its group as long as it is shared. */
  lemma CountStays(s: State, e: Event, g: nat)
    requires Inv(s) && Enabled(s, e) && g < GROUPS && PhaseOf(s, g).Owed? && PhaseOf(s, g).camera
    ensures SameCount(s, Next(s, e), g)
  {
    if e.CapJudge? || e.WorkFinish? {
      WritersKeepCount(s, e, g);
    } else {
      InPoolIffFree(s, g);
      InfoStays(s, e, g);
    }
  }

  lemma CountStep(s: State, e: Event, s': State, g: nat, n: nat)
    requires Inv(s) && Moves(s, e, s') && g < GROUPS && PhaseOf(s, g).Owed? && PhaseOf(s, g).camera
    requires Sized(s.store) && s.store.group[g].info.count == n
    ensures Sized(s'.store) && s'.store.group[g].info.count == n
  {
    CountStays(s, e, g);
  }

  lemma {:induction false} CountUntil(states: seq<State>, es: seq<Event>, g: nat, k: nat)
    requires Trace(states, es) && k <= |es| && Inv(states[0])
    requires g < GROUPS && PhaseOf(states[0], g).Owed? && PhaseOf(states[0], g).camera
    requires forall j :: 0 <= j < k ==> !LastOf(states[j], es[j], g)
    ensures SameCount(states[0], states[k], g)
  {
    if k > 0 {
      CountUntil(states, es, g, k - 1);
      SharedUntil(states, es, g, k - 1);
      CountStep(states[k - 1], es[k - 1], states[k], g, states[0].store.group[g].info.count);
    }
  }

  /** An image that is numbered gets its number into the record of its group. */
  lemma NumberGiven(s: State, reading: N.u32, wheel: nat)
    requires Inv(s) && CanNumber(s) && N.Capture(s.num.c, reading).1.Numbered?
    ensures var s' := NumberStep(s, reading, wheel);
            && Inv(s') && Sized(s'.store) && PhaseOf(s', s.cap.g).Owed? && PhaseOf(s', s.cap.g).camera
            && s'.store.group[s.cap.g].info.count == N.Capture(s.num.c, reading).1.n
  {
    StepInv(s, CapNumber(reading, wheel));
    assert Inv(NumberStep(s, reading, wheel));
    NumberOwed(s, NumberStep(s, reading, wheel));
    assert Phases(NumberStep(s, reading, wheel))[s.cap.g] == PhaseOf(NumberStep(s, reading, wheel), s.cap.g);
  }

  /** Main result: whatever happens in between, the record uploaded for a group carries the
      number that was given to its image. */
  lemma NumbersAreUploaded(states: seq<State>, es: seq<Event>, g: nat, k: nat)
    requires Trace(states, es) && k < |es| && Inv(states[0])
    requires g < GROUPS && PhaseOf(states[0], g).Owed? && PhaseOf(states[0], g).camera
    requires forall j :: 0 <= j < k ==> !LastOf(states[j], es[j], g)
    requires SendsRecord(es[k]) && ReleasesOf(states[k], es[k], g)
    ensures Sized(states[0].store)
    ensures var log, log' := states[k].net.sampleLog, states[k + 1].net.sampleLog;
            log' == log || (|log'| == |log| + 1 && log'[|log|].count == states[0].store.group[g].info.count)
  {
    CountUntil(states, es, g, k);
    assert Moves(states[k], es[k], states[k + 1]);
    UploadLogs(states[k], es[k], states[k + 1], g);
  }

  // ---------------------------------------------------------------- induction over a trace

  lemma {:induction false} StaysTrue(states: seq<State>, i: nat, k: nat, p: State -> bool)
    requires i <= k < |states| && p(states[i])
    requires forall j :: i <= j < k && p(states[j]) ==> p(states[j + 1])
    ensures p(states[k])
    decreases k
  {
    if i < k { StaysTrue(states, i, k - 1, p); }
  }

  /** The record of g still reads `info`. */
  predicate Reads(s: State, g: nat, info: SampleInfo) {
    Sized(s.store) && g < GROUPS && s.store.group[g].info == info
  }

  // ---------------------------------------------------------------- results of the DSP

  /** The worker of DSP d is about to send the result of g. */
  ghost predicate Reporting(s: State, d: nat, g: nat) {
    D.Sized(s.dsp) && d < D.DSPS && s.dsp.worker[d] == D.WReport(g)
  }

  predicate Reports(e: Event, d: nat) {
    e.WorkReport? && e.d == d
  }

  lemma ReportingOwes(s: State, d: nat, g: nat)
    requires Inv(s) && Reporting(s, d, g)
    ensures D.Owed(s.dsp, g) == 1 && g < GROUPS && g !in s.store.pool && !RawClaim(s, g)
    ensures CapGroup(s.cap) == g ==> CapResult(s.cap) == 0
  {
    assert d == 0 || d == 1;
    assert GroupOwed(s, g);
    InPoolIffFree(s, g);
  }

  lemma OtherWorker(s: State, d: nat, g: nat, d': nat)
    requires Inv(s) && Reporting(s, d, g) && d' < D.DSPS && s.dsp.worker[d'].WRun?
    ensures s.dsp.slot[d'] != g
  {
    ReportingOwes(s, d, g);
    assert d == 0 || d == 1;
    assert d' == 0 || d' == 1;
    assert D.DspOk(s.dsp, d');
  }

  lemma NobodyWrites(s: State, e: Event, d: nat, g: nat)
    requires Inv(s) && Enabled(s, e) && Reporting(s, d, g)
    ensures !Writes(s, e, g)
  {
    ReportingOwes(s, d, g);
    if e.WorkFinish? { OtherWorker(s, d, g, e.d); }
  }

  lemma DspKeepsReporting(x: D.State, e: D.Event, d: nat, g: nat)
    requires D.Sized(x) && D.Enabled(x, e) && d < D.DSPS && x.worker[d] == D.WReport(g) && e != D.Report(d)
    ensures D.Sized(D.Next(x, e)) && D.Next(x, e).worker[d] == D.WReport(g)
  {}

  /** How a step moves the DSP side, if it does. */
  function DspEvent(s: State, e: Event): (D.Event, bool) {
    match e
    case CapJudge => (D.Offer(CapNat(s.cap)), Accepts(s))
    case WorkFinish(d, _, _, _) => (D.Finish(d), true)
    case WorkReport(d, _, _) => (D.Report(d), true)
    case WorkRoute(d, _) => (D.Route(d), true)
    case DspStep(e') => (e', true)
    case _ => (D.Pend, false)
  }

  function CapNat(cap: Capture): nat {
    if cap == CTop then 0 else cap.g
  }

  lemma DspMoves(s: State, e: Event)
    requires D.Sized(s.dsp) && Enabled(s, e) && DspEvent(s, e).1
    ensures D.Enabled(s.dsp, DspEvent(s, e).0) && Next(s, e).dsp == D.Next(s.dsp, DspEvent(s, e).0)
  {}

  lemma DspRestsVictim(s: State, e: Event)
    requires Enabled(s, e) && !DspEvent(s, e).1 && Victim(s, e) != -1
    ensures Next(s, e).dsp == s.dsp
  {}

  lemma DspRestsOthers(s: State, e: Event)
    requires Enabled(s, e) && !DspEvent(s, e).1 && Victim(s, e) == -1
    ensures Next(s, e).dsp == s.dsp
  {}

  lemma StillReporting(s: State, e: Event, d: nat, g: nat)
    requires Enabled(s, e) && Reporting(s, d, g) && !Reports(e, d)
    ensures Reporting(Next(s, e), d, g)
  {
    if DspEvent(s, e).1 {
      DspMoves(s, e);
      DspKeepsReporting(s.dsp, DspEvent(s, e).0, d, g);
    } else if Victim(s, e) != -1 { DspRestsVictim(s, e); } else { DspRestsOthers(s, e); }
  }

  lemma ReportingStep(s: State, e: Event, s': State, d: nat, g: nat)
    requires Inv(s) && Moves(s, e, s') && Reporting(s, d, g) && !Reports(e, d)
    ensures Inv(s') && Reporting(s', d, g) && SameInfo(s, s', g)
  {
    StepInv(s, e);
    ReportingOwes(s, d, g);
    NobodyWrites(s, e, d, g);
    InfoStays(s, e, g);
    StillReporting(s, e, d, g);
  }

  lemma ReportingUntil(states: seq<State>, es: seq<Event>, i: nat, k: nat, d: nat, g: nat)
    requires Trace(states, es) && i <= k <= |es| && Inv(states[i]) && Reporting(states[i], d, g)
    requires g < GROUPS && Sized(states[i].store) && forall j :: i <= j < k ==> !Reports(es[j], d)
    ensures Inv(states[k]) && Reporting(states[k], d, g) && SameInfo(states[i], states[k], g)
  {
    var info := states[i].store.group[g].info;
    ghost var p := (s: State) => Inv(s) && Reporting(s, d, g) && Reads(s, g, info);
    forall j | i <= j < k && p(states[j]) ensures p(states[j + 1]) {
      ReportingStep(states[j], es[j], states[j + 1], d, g);
    }
    StaysTrue(states, i, k, p);
  }

  /** The record of a result: decided by the DSP, with the number and the wheel code of
      the image. */
  predicate HasResult(was: SampleInfo, info: SampleInfo, time: nat, payload: nat, decide: nat) {
    && info.algoTime == time && info.payload == payload && info.flag == 0
    && (decide % 0x1_0000 <= 2 ==> info.kickPos == decide)
    && (decide % 0x1_0000 > 2 ==> info.kickPos % 0x1_0000 == 0 && info.kickPos / 0x1_0000 == decide / 0x1_0000)
    && info.count == was.count && info.wheel == was.wheel
  }

  lemma DecidedHasResult(was: SampleInfo, time: nat, payload: nat, decide: nat)
    ensures HasResult(was, DecidedInfo(was, time, payload, decide), time, payload, decide)
  {}

  lemma FinishReports(s: State, d: nat, time: nat, payload: nat, decide: nat)
    requires CanFinish(s, d)
    ensures var s' := FinishStep(s, d, time, payload, decide);
            var g := s.dsp.slot[d];
            && Reporting(s', d, g) && Sized(s'.store)
            && s'.store.group[g].info == DecidedInfo(s.store.group[g].info, time, payload, decide)
  {}

  lemma FinishWrites(s: State, d: nat, time: nat, payload: nat, decide: nat, s': State)
    requires Inv(s) && Moves(s, WorkFinish(d, time, payload, decide), s')
    ensures CanFinish(s, d) && s' == FinishStep(s, d, time, payload, decide) && Inv(s')
  {
    StepInv(s, WorkFinish(d, time, payload, decide));
  }

  /** The step k uploads the record that g had in state i. */
  lemma UploadsInfo(states: seq<State>, es: seq<Event>, i: nat, k: nat, d: nat, g: nat)
    requires Trace(states, es) && i <= k < |es| && Inv(states[i]) && Reporting(states[i], d, g)
    requires g < GROUPS && Sized(states[i].store) && Reports(es[k], d)
    requires forall j :: i <= j < k ==> !Reports(es[j], d)
    ensures Logs(states[k], states[k + 1], states[i].store.group[g].info)
  {
    ReportingUntil(states, es, i, k, d, g);
    assert Moves(states[k], es[k], states[k + 1]);
    UploadLogs(states[k], es[k], states[k + 1], g);
  }

  /** Main result: what the DSP has decided on a sample is in the record that its worker
      uploads, with the number of the image, whatever happens in between. */
  lemma ResultIsUploaded(states: seq<State>, es: seq<Event>, k: nat, d: nat, time: nat, payload: nat, decide: nat)
    requires Trace(states, es) && 0 < k < |es| && Inv(states[0])
    requires es[0] == WorkFinish(d, time, payload, decide) && Reports(es[k], d)
    requires forall j :: 0 < j < k ==> !Reports(es[j], d)
    ensures CanFinish(states[0], d)
    ensures var was := states[0].store.group[states[0].dsp.slot[d]].info;
            var log, log' := states[k].net.sampleLog, states[k + 1].net.sampleLog;
            log' == log || (|log'| == |log| + 1 && HasResult(was, log'[|log|], time, payload, decide))
  {
    assert Moves(states[0], es[0], states[1]);
    FinishWrites(states[0], d, time, payload, decide, states[1]);
    FinishReports(states[0], d, time, payload, decide);
    UploadsInfo(states, es, 1, k, d, states[0].dsp.slot[d]);
    DecidedHasResult(states[0].store.group[states[0].dsp.slot[d]].info, time, payload, decide);
  }

  // ---------------------------------------------------------------- judgements of the capture task

  /** The capture task is about to send the record of g. */
  predicate Judged(s: State, g: nat) {
    s.cap == CJudged(g)
  }

  lemma JudgedGuards(s: State, e: Event, g: nat)
    requires Inv(s) && Enabled(s, e) && Judged(s, g) && !e.CapSend?
    ensures !Writes(s, e, g) && g < GROUPS
  {
    assert GroupOwed(s, g);
    InPoolIffFree(s, g);
    if e.WorkFinish? { SlotIsOwed(s, e.d); }
  }

  lemma SlotIsOwed(s: State, d: nat)
    requires Inv(s) && d < D.DSPS && s.dsp.worker[d].WRun?
    ensures D.Owed(s.dsp, s.dsp.slot[d]) >= 1
  {
    assert D.DspOk(s.dsp, d);
    assert d == 0 || d == 1;
  }

  lemma StillJudged(s: State, e: Event, g: nat)
    requires Enabled(s, e) && Judged(s, g) && !e.CapSend?
    ensures Judged(Next(s, e), g)
  {}

  lemma JudgedStep(s: State, e: Event, s': State, g: nat)
    requires Inv(s) && Moves(s, e, s') && Judged(s, g) && !e.CapSend?
    ensures Inv(s') && Judged(s', g) && SameInfo(s, s', g)
  {
    StepInv(s, e);
    JudgedGuards(s, e, g);
    InfoStays(s, e, g);
    StillJudged(s, e, g);
  }

  lemma JudgedUntil(states: seq<State>, es: seq<Event>, i: nat, k: nat, g: nat)
    requires Trace(states, es) && i <= k <= |es| && Inv(states[i]) && Judged(states[i], g)
    requires g < GROUPS && Sized(states[i].store) && forall j :: i <= j < k ==> !es[j].CapSend?
    ensures Inv(states[k]) && Judged(states[k], g) && SameInfo(states[i], states[k], g)
  {
    var info := states[i].store.group[g].info;
    ghost var p := (s: State) => Inv(s) && Judged(s, g) && Reads(s, g, info);
    forall j | i <= j < k && p(states[j]) ensures p(states[j + 1]) {
      JudgedStep(states[j], es[j], states[j + 1], g);
    }
    StaysTrue(states, i, k, p);
  }

  /** The record of a sample that no DSP decides on: in judge mode 0 it is marked as not
      processed and goes to place 1; in the test modes 1, 2 and 3 all samples go to place
      1, to place 2, and through. */
  predicate HasJudgement(was: SampleInfo, info: SampleInfo, mode: nat) {
    && info.count == was.count && info.wheel == was.wheel && info.payload == was.payload
    && (mode == 0 ==> info.flag == 2 && info.algoTime == 0xFFFF_FFFF && info.kickPos == 1)
    && (mode > 0 ==> info.flag == was.flag && info.algoTime == was.algoTime)
    && (mode == 1 ==> info.kickPos == 1) && (mode == 2 ==> info.kickPos == 2) && (mode == 3 ==> info.kickPos == 0)
  }

  lemma JudgeWrites(s: State, s': State)
    requires Inv(s) && Moves(s, CapJudge, s') && !Accepts(s) && s.judgeMode <= 3
    ensures CanJudge(s) && Inv(s') && Judged(s', s.cap.g) && Sized(s'.store)
    ensures HasJudgement(s.store.group[s.cap.g].info, s'.store.group[s.cap.g].info, s.judgeMode)
  {
    StepInv(s, CapJudge);
  }

  lemma UploadsJudged(states: seq<State>, es: seq<Event>, i: nat, k: nat, g: nat)
    requires Trace(states, es) && i <= k < |es| && Inv(states[i]) && Judged(states[i], g)
    requires g < GROUPS && Sized(states[i].store) && es[k].CapSend? && forall j :: i <= j < k ==> !es[j].CapSend?
    ensures Logs(states[k], states[k + 1], states[i].store.group[g].info)
  {
    JudgedUntil(states, es, i, k, g);
    assert Moves(states[k], es[k], states[k + 1]);
    UploadLogs(states[k], es[k], states[k + 1], g);
  }

  /** Main result: and without a DSP, the record uploaded has the judgement of the mode. */
  lemma JudgementIsUploaded(states: seq<State>, es: seq<Event>, k: nat)
    requires Trace(states, es) && 0 < k < |es| && Inv(states[0])
    requires es[0] == CapJudge && !Accepts(states[0]) && states[0].judgeMode <= 3
    requires es[k].CapSend? && forall j :: 0 < j < k ==> !es[j].CapSend?
    ensures CanJudge(states[0])
    ensures var was := states[0].store.group[states[0].cap.g].info;
            var log, log' := states[k].net.sampleLog, states[k + 1].net.sampleLog;
            log' == log || (|log'| == |log| + 1 && HasJudgement(was, log'[|log|], states[0].judgeMode))
  {
    assert Moves(states[0], es[0], states[1]);
    JudgeWrites(states[0], states[1]);
    UploadsJudged(states, es, 1, k, states[0].cap.g);
  }

  // ---------------------------------------------------------------- overclocked samples

  /** The interrupt has taken g with trigger count n, and filled it if `filled`. */
  predicate Interrupting(s: State, g: nat, n: nat, filled: bool) {
    if filled then s.over == OFilled(g) else s.over == OGot(g, n)
  }

  predicate Continues(e: Event, filled: bool) {
    if filled then e.OverSend? else e.OverFill?
  }

  lemma InterruptGuards(s: State, e: Event, g: nat, n: nat, filled: bool)
    requires Inv(s) && Enabled(s, e) && Interrupting(s, g, n, filled) && !Continues(e, filled)
    ensures !Writes(s, e, g) && g < GROUPS
  {
    assert GroupOwed(s, g);
    InPoolIffFree(s, g);
    if e.WorkFinish? { SlotIsOwed(s, e.d); }
  }

  lemma StillInterrupting(s: State, e: Event, g: nat, n: nat, filled: bool)
    requires Enabled(s, e) && Interrupting(s, g, n, filled) && !Continues(e, filled)
    ensures Interrupting(Next(s, e), g, n, filled)
  {}

  lemma InterruptStep(s: State, e: Event, s': State, g: nat, n: nat, filled: bool)
    requires Inv(s) && Moves(s, e, s') && Interrupting(s, g, n, filled) && !Continues(e, filled)
    ensures Inv(s') && Interrupting(s', g, n, filled) && SameInfo(s, s', g)
  {
    StepInv(s, e);
    InterruptGuards(s, e, g, n, filled);
    InfoStays(s, e, g);
    StillInterrupting(s, e, g, n, filled);
  }

  lemma InterruptUntil(states: seq<State>, es: seq<Event>, i: nat, k: nat, g: nat, n: nat, filled: bool)
    requires Trace(states, es) && i <= k <= |es| && Inv(states[i]) && Interrupting(states[i], g, n, filled)
    requires g < GROUPS && Sized(states[i].store) && forall j :: i <= j < k ==> !Continues(es[j], filled)
    ensures Inv(states[k]) && Interrupting(states[k], g, n, filled) && SameInfo(states[i], states[k], g)
  {
    var info := states[i].store.group[g].info;
    ghost var p := (s: State) => Inv(s) && Interrupting(s, g, n, filled) && Reads(s, g, info);
    forall j | i <= j < k && p(states[j]) ensures p(states[j + 1]) {
      InterruptStep(states[j], es[j], states[j + 1], g, n, filled);
    }
    StaysTrue(states, i, k, p);
  }

  /** The record of an overclocked sample: its trigger count, marked as overclocked by the
      camera, to place 1. */
  function OverclockInfo(n: nat, wheel: nat): SampleInfo {
    SampleInfo(n, 1, 0, wheel, 0, 1)
  }

  lemma OverTakes(s: State, reading: N.u32, s': State)
    requires Inv(s) && Moves(s, OverTake(reading), s') && s.store.pool != []
    ensures s.store.pool[0] < GROUPS && Inv(s') && Sized(s'.store) && Interrupting(s', s.store.pool[0], reading, false)
  {
    StepInv(s, OverTake(reading));
  }

  lemma OverFills(s: State, wheel: nat, s': State, g: nat, n: nat)
    requires Inv(s) && Moves(s, OverFill(wheel), s') && Interrupting(s, g, n, false) && g < GROUPS
    ensures Inv(s') && Sized(s'.store) && Interrupting(s', g, n, true)
    ensures var info := s'.store.group[g].info;
            && info.count == n && info.wheel == wheel && info.flag == 1 && info.kickPos == 1
            && info.algoTime == 0 && info.payload == 0
  {
    StepInv(s, OverFill(wheel));
  }

  lemma UploadsOverclock(states: seq<State>, es: seq<Event>, i: nat, k: nat, g: nat, n: nat)
    requires Trace(states, es) && i <= k < |es| && Inv(states[i]) && Interrupting(states[i], g, n, true)
    requires g < GROUPS && Sized(states[i].store) && es[k].OverSend? && forall j :: i <= j < k ==> !es[j].OverSend?
    ensures Logs(states[k], states[k + 1], states[i].store.group[g].info)
  {
    InterruptUntil(states, es, i, k, g, n, true);
    assert Moves(states[k], es[k], states[k + 1]);
    UploadLogs(states[k], es[k], states[k + 1], g);
  }

  /** Main result: the record uploaded for an overclocked sample carries the trigger count
      that the interrupt has read. */
  lemma OverclockIsUploaded(states: seq<State>, es: seq<Event>, m: nat, k: nat, reading: N.u32, wheel: nat)
    requires Trace(states, es) && 0 < m < k < |es| && Inv(states[0]) && states[0].store.pool != []
    requires es[0] == OverTake(reading) && es[m] == OverFill(wheel) && es[k].OverSend?
    requires forall j :: 0 < j < m ==> !es[j].OverFill?
    requires forall j :: m < j < k ==> !es[j].OverSend?
    ensures Logs(states[k], states[k + 1], OverclockInfo(reading, wheel))
  {
    assert Moves(states[0], es[0], states[1]);
    OverTakes(states[0], reading, states[1]);
    var g := states[0].store.pool[0];
    InterruptUntil(states, es, 1, m, g, reading, false);
    assert Moves(states[m], es[m], states[m + 1]);
    OverFills(states[m], wheel, states[m + 1], g, reading);
    UploadsOverclock(states, es, m + 1, k, g, reading);
  }

  // ---------------------------------------------------------------- images without a number

  /** The capture task has g, and no number for it yet. */
  predicate Unmarked(s: State, g: nat) {
    s.cap == CRaw(g) || s.cap == CHalf(g) || s.cap == CGot(g)
  }

  lemma UnmarkedGuards(s: State, e: Event, g: nat)
    requires Inv(s) && Enabled(s, e) && Unmarked(s, g) && !e.CapNumber?
    ensures !Writes(s, e, g) && g < GROUPS
  {
    assert GroupOwed(s, g);
    InPoolIffFree(s, g);
    if e.WorkFinish? { SlotIsOwed(s, e.d); }
  }

  lemma StillUnmarked(s: State, e: Event, g: nat)
    requires Enabled(s, e) && Unmarked(s, g) && !e.CapNumber? && !e.CapSkip?
    ensures Unmarked(Next(s, e), g)
  {}

  lemma UnmarkedStep(s: State, e: Event, s': State, g: nat)
    requires Inv(s) && Moves(s, e, s') && Unmarked(s, g) && !e.CapNumber? && !e.CapSkip?
    ensures Inv(s') && Unmarked(s', g) && SameInfo(s, s', g)
  {
    StepInv(s, e);
    UnmarkedGuards(s, e, g);
    InfoStays(s, e, g);
    StillUnmarked(s, e, g);
  }

  lemma UnmarkedUntil(states: seq<State>, es: seq<Event>, i: nat, k: nat, g: nat)
    requires Trace(states, es) && i <= k <= |es| && Inv(states[i]) && Unmarked(states[i], g)
    requires g < GROUPS && Sized(states[i].store) && forall j :: i <= j < k ==> !es[j].CapNumber? && !es[j].CapSkip?
    ensures Inv(states[k]) && Unmarked(states[k], g) && SameInfo(states[i], states[k], g)
  {
    var info := states[i].store.group[g].info;
    ghost var p := (s: State) => Inv(s) && Unmarked(s, g) && Reads(s, g, info);
    forall j | i <= j < k && p(states[j]) ensures p(states[j + 1]) {
      UnmarkedStep(states[j], es[j], states[j + 1], g);
    }
    StaysTrue(states, i, k, p);
  }

  lemma TakeClears(s: State, s': State)
    requires Inv(s) && Moves(s, CapTake, s') && s.store.pool != []
    ensures s.store.pool[0] < GROUPS && Inv(s') && Sized(s'.store) && Unmarked(s', s.store.pool[0])
    ensures s'.store.group[s.store.pool[0]].info == SampleInfo(0, 0, 0, 0, 0, 0)
  {
    StepInv(s, CapTake);
  }

  lemma NumberWrites(s: State, reading: N.u32, wheel: nat, s': State, g: nat)
    requires Moves(s, CapNumber(reading, wheel), s') && Unmarked(s, g) && g < GROUPS
    requires N.Capture(s.num.c, reading).1 != N.Discarded
    ensures Sized(s.store) && Sized(s'.store)
    ensures s'.store.group[g].info == s.store.group[g].info.(
              count := if s.num.c.shoot > s.num.c.sum then s.store.group[g].info.count
                       else N.Capture(s.num.c, reading).1.n,
              wheel := wheel)
  {}

  /** Main result: nothing of an earlier use is left in the record of an image when it gets
      its number; one that is taken while the counters are in error goes on with number 0. */
  lemma NumberedRecord(states: seq<State>, es: seq<Event>, k: nat, reading: N.u32, wheel: nat)
    requires Trace(states, es) && 0 < k < |es| && Inv(states[0]) && states[0].store.pool != []
    requires es[0] == CapTake && es[k] == CapNumber(reading, wheel)
    requires forall j :: 0 < j < k ==> !es[j].CapNumber? && !es[j].CapSkip?
    requires N.Capture(states[k].num.c, reading).1 != N.Discarded
    ensures states[0].store.pool[0] < GROUPS && Sized(states[k + 1].store)
    ensures var c := states[k].num.c;
            states[k + 1].store.group[states[0].store.pool[0]].info
            == SampleInfo(if c.shoot > c.sum then 0 else N.Capture(c, reading).1.n, 0, 0, wheel, 0, 0)
  {
    assert Moves(states[0], es[0], states[1]);
    TakeClears(states[0], states[1]);
    var g := states[0].store.pool[0];
    UnmarkedUntil(states, es, 1, k, g);
    assert Moves(states[k], es[k], states[k + 1]);
    NumberWrites(states[k], reading, wheel, states[k + 1], g);
  }
}
