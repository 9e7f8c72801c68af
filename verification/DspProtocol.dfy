/** The DSP side of the pipeline as a step system: the /dsp mailbox with its
    back-pressure counter, image_process_tsk, the idle and busy lists, the two worker
    tasks and the parameter update task (image/video_context.c, image/dsp.c,
    image/dsp_context.c). Groups are numbers; DSP1 and DSP2 are 0 and 1. */
module DspProtocol {
  import opened Counting

  /** image_process_tsk: waiting in mailbox_pend; holding a group; holding a group and
      a DSP; DSP loaded, semaphore not posted yet. */
  datatype Proc = PWait | PHave(g: nat) | PGot(g: nat, d: nat) | PLoaded(g: nat, d: nat)

  /** dspN_process_tsk: in sem_wait; inside dsp->process; before send_sample_info;
      before the send-mode test; before dsp_factory_recycle. */
  datatype Worker = WWait | WRun(g: nat) | WReport(g: nat) | WRoute(g: nat) | WPut

  /** dsps_update_params_tsk and dsp_factory_rectify. */
  datatype Rect =
    | RWait | RPoll | RTake1 | RSet1(p: nat) | RTake2(p: nat) | RSet2(p: nat, q: nat)
    | RPut1(p: nat, q: nat) | RPut2(q: nat) | RDone

  datatype State = State(
    mbx: seq<nat>, notProcess: nat, proc: Proc,
    idle: seq<nat>, busy: seq<nat>,
    slot: seq<nat>, sem: seq<nat>, worker: seq<Worker>,
    rect: Rect, update: bool,
    accepted: seq<nat>, dispatched: seq<nat>)

  const DSPS: nat := 2

  /** create_dsp_factory: both DSPs idle, DSP1 first. */
  const INIT := State([], 0, PWait, [0, 1], [], [0, 0], [0, 0], [WWait, WWait], RWait, false, [], [])

  datatype Event =
    | Offer(g: nat)       // capture task, under g_mutex: judge mode 0
    | Pend                // image_process_tsk: mailbox_pend, msg_factory_recycle
    | Take                // image_process_tsk: dsp_factory_produce
    | Load                // image_process_tsk: sample_image_group := g, counter down
    | Signal              // image_process_tsk: sem_post
    | Start(d: nat)       // worker: sem_wait
    | Finish(d: nat)      // worker: dsp->process returns
    | Report(d: nat)      // worker: send_sample_info
    | Route(d: nat)       // worker: the send-mode 2 branch
    | Put(d: nat)         // worker: dsp_factory_recycle
    | Update              // update task: sem_wait, update = 1
    | Idle                // update task: is_dsps_idle returned true
    | Take1 | Set1 | Take2 | Set2 | Put1 | Put2 | UpdateDone

  /** The test the capture task makes before posting (image/video_context.c:416). */
  predicate Accepts(s: State) {
    s.notProcess <= 2 && !s.update
  }

  predicate Sized(s: State) {
    |s.slot| == DSPS && |s.sem| == DSPS && |s.worker| == DSPS
  }

  predicate Enabled(s: State, e: Event)
    requires Sized(s)
  {
    match e
    case Offer(_) => true
    case Pend => s.proc == PWait && s.mbx != []
    case Take => s.proc.PHave? && s.idle != []
    case Load => s.proc.PGot? && s.proc.d < DSPS
    case Signal => s.proc.PLoaded? && s.proc.d < DSPS
    case Start(d) => d < DSPS && s.worker[d] == WWait && s.sem[d] > 0
    case Finish(d) => d < DSPS && s.worker[d].WRun?
    case Report(d) => d < DSPS && s.worker[d].WReport?
    case Route(d) => d < DSPS && s.worker[d].WRoute?
    case Put(d) => d < DSPS && s.worker[d] == WPut
    case Update => s.rect == RWait
    case Idle => s.rect == RPoll && s.busy == []
    case Take1 => s.rect == RTake1 && s.idle != []
    case Set1 => s.rect.RSet1?
    case Take2 => s.rect.RTake2? && s.idle != []
    case Set2 => s.rect.RSet2?
    case Put1 => s.rect.RPut1?
    case Put2 => s.rect.RPut2?
    case UpdateDone => s.rect == RDone
  }

  /** list_del of the first occurrence. */
  function Without(q: seq<nat>, d: nat): seq<nat> {
    if q == [] then [] else if q[0] == d then q[1..] else [q[0]] + Without(q[1..], d)
  }

  /** dsp_factory_produce once the idle list is not empty. */
  function Produce(s: State): State
    requires s.idle != []
  {
    s.(idle := s.idle[1..], busy := s.busy + [s.idle[0]])
  }

  function Recycle(s: State, d: nat): State {
    s.(busy := Without(s.busy, d), idle := s.idle + [d])
  }

  function Next(s: State, e: Event): State
    requires Sized(s) && Enabled(s, e)
  {
    match e
    case Offer(g) =>
      if Accepts(s) then
        s.(mbx := s.mbx + [g], notProcess := s.notProcess + 1, accepted := s.accepted + [g])
      else s
    case Pend => s.(proc := PHave(s.mbx[0]), mbx := s.mbx[1..])
    case Take => Produce(s).(proc := PGot(s.proc.g, s.idle[0]))
    case Load =>
      s.(proc := PLoaded(s.proc.g, s.proc.d), slot := s.slot[s.proc.d := s.proc.g],
         notProcess := if s.notProcess == 0 then 0xFFFF_FFFF else s.notProcess - 1,
         dispatched := s.dispatched + [s.proc.g])
    case Signal => s.(proc := PWait, sem := s.sem[s.proc.d := s.sem[s.proc.d] + 1])
    case Start(d) => s.(sem := s.sem[d := s.sem[d] - 1], worker := s.worker[d := WRun(s.slot[d])])
    case Finish(d) => s.(worker := s.worker[d := WReport(s.slot[d])])
    case Report(d) => s.(worker := s.worker[d := WRoute(s.worker[d].g)])
    case Route(d) => s.(worker := s.worker[d := WPut])
    case Put(d) => Recycle(s, d).(worker := s.worker[d := WWait])
    case Update => s.(rect := RPoll, update := true)
    case Idle => s.(rect := RTake1)
    case Take1 => Produce(s).(rect := RSet1(s.idle[0]))
    case Set1 => s.(rect := RTake2(s.rect.p))
    case Take2 => Produce(s).(rect := RSet2(s.rect.p, s.idle[0]))
    case Set2 => s.(rect := RPut1(s.rect.p, s.rect.q))
    case Put1 => Recycle(s, s.rect.p).(rect := RPut2(s.rect.q))
    case Put2 => Recycle(s, s.rect.q).(rect := RDone)
    case UpdateDone => s.(rect := RWait, update := false)
  }

  // ---------------------------------------------------------------- invariants

  function ProcOwns(s: State, d: nat): nat {
    One((s.proc.PGot? || s.proc.PLoaded?) && s.proc.d == d)
  }

  function WorkerOwns(s: State, d: nat): nat
    requires Sized(s) && d < DSPS
  {
    s.sem[d] + One(s.worker[d] != WWait)
  }

  function RectOwns(s: State, d: nat): nat {
    match s.rect
    case RSet1(p) => One(p == d)
    case RTake2(p) => One(p == d)
    case RSet2(p, q) => One(p == d) + One(q == d)
    case RPut1(p, q) => One(p == d) + One(q == d)
    case RPut2(q) => One(q == d)
    case _ => 0
  }

  function Count(q: seq<nat>, d: nat): nat {
    if q == [] then 0 else One(q[0] == d) + Count(q[1..], d)
  }

  /** DSP d is on exactly one list, and busy exactly when exactly one task owns it. */
  predicate DspOk(s: State, d: nat)
    requires Sized(s) && d < DSPS
  {
    && Count(s.idle, d) + Count(s.busy, d) == 1
    && ProcOwns(s, d) + WorkerOwns(s, d) + RectOwns(s, d) == Count(s.busy, d)
    && (s.worker[d].WRun? || s.worker[d].WReport? || s.worker[d].WRoute? ==> s.worker[d].g == s.slot[d])
    && (s.proc.PLoaded? && s.proc.d == d ==> s.slot[d] == s.proc.g)
  }

  /** Groups accepted but not yet handed to a DSP, oldest first. */
  function Waiting(s: State): seq<nat> {
    (if s.proc.PHave? || s.proc.PGot? then [s.proc.g] else []) + s.mbx
  }

  predicate ListsOk(s: State) {
    && Sized(s)
    && (forall i :: 0 <= i < |s.idle| ==> s.idle[i] < DSPS)
    && (forall i :: 0 <= i < |s.busy| ==> s.busy[i] < DSPS)
    && (forall d :: 0 <= d < DSPS ==> DspOk(s, d))
    && (s.proc.PGot? || s.proc.PLoaded? ==> s.proc.d < DSPS)
    && (s.rect.RSet1? || s.rect.RTake2? || s.rect.RSet2? || s.rect.RPut1? ==> s.rect.p < DSPS)
    && (s.rect.RSet2? || s.rect.RPut1? || s.rect.RPut2? ==> s.rect.q < DSPS)
  }

  predicate QueueOk(s: State) {
    && s.notProcess == |Waiting(s)| <= 3
    && s.accepted == s.dispatched + Waiting(s)
    && (s.update <==> s.rect != RWait)
  }

  predicate Inv(s: State) {
    ListsOk(s) && QueueOk(s)
  }

  lemma InitInv()
    ensures Inv(INIT)
  {
    forall d | 0 <= d < DSPS ensures DspOk(INIT, d) {
      assert INIT.idle[1..] == [1];
      assert d == 0 || d == 1;
    }
  }

  lemma {:induction false} CountAppend(q: seq<nat>, x: nat, d: nat)
    ensures Count(q + [x], d) == Count(q, d) + One(x == d)
  {
    if q == [] {
      assert q + [x] == [x];
    } else {
      assert (q + [x])[1..] == q[1..] + [x];
      CountAppend(q[1..], x, d);
    }
  }

  lemma {:induction false} CountWithout(q: seq<nat>, x: nat, d: nat)
    ensures Count(Without(q, x), d) == if x == d && Count(q, d) > 0 then Count(q, d) - 1 else Count(q, d)
  {
    if q != [] && q[0] != x {
      CountWithout(q[1..], x, d);
    }
  }

  lemma {:induction false} WithoutRange(q: seq<nat>, x: nat)
    requires forall i :: 0 <= i < |q| ==> q[i] < DSPS
    ensures forall i :: 0 <= i < |Without(q, x)| ==> Without(q, x)[i] < DSPS
  {
    if q != [] && q[0] != x { WithoutRange(q[1..], x); }
  }

  /** dsp_factory_produce and dsp_factory_recycle, seen from DSP d. */
  lemma ProduceMoves(s: State, d: nat)
    requires s.idle != []
    ensures Count(Produce(s).idle, d) == Count(s.idle, d) - One(s.idle[0] == d)
    ensures Count(Produce(s).busy, d) == Count(s.busy, d) + One(s.idle[0] == d)
  {
    CountAppend(s.busy, s.idle[0], d);
  }

  lemma RecycleMoves(s: State, x: nat, d: nat)
    requires x == d ==> Count(s.busy, d) > 0
    ensures Count(Recycle(s, x).idle, d) == Count(s.idle, d) + One(x == d)
    ensures Count(Recycle(s, x).busy, d) == Count(s.busy, d) - One(x == d)
  {
    CountWithout(s.busy, x, d);
    CountAppend(s.idle, x, d);
  }

  lemma TakeKeepsDsp(s: State, d: nat)
    requires ListsOk(s) && Enabled(s, Take) && d < DSPS
    ensures DspOk(Next(s, Take), d)
  {
    assert DspOk(s, d);
    ProduceMoves(s, d);
  }

  lemma ProcKeepsDsp(s: State, e: Event, d: nat)
    requires ListsOk(s) && Enabled(s, e) && d < DSPS
    requires e.Offer? || e.Pend? || e.Take? || e.Load? || e.Signal?
    ensures DspOk(Next(s, e), d)
  {
    assert DspOk(s, d);
    if e.Take? { TakeKeepsDsp(s, d); }
  }

  lemma StartKeepsDsp(s: State, e: Event, d: nat)
    requires ListsOk(s) && Enabled(s, e) && d < DSPS && (e.Start? || e.Finish?)
    ensures DspOk(Next(s, e), d)
  {
    assert DspOk(s, d);
  }

  lemma WorkerKeepsDsp(s: State, e: Event, d: nat)
    requires ListsOk(s) && Enabled(s, e) && d < DSPS
    requires e.Start? || e.Finish? || e.Report? || e.Route?
    ensures DspOk(Next(s, e), d)
  {
    assert DspOk(s, d);
    if e.Start? || e.Finish? { StartKeepsDsp(s, e, d); }
  }

  lemma PutKeepsDsp(s: State, x: nat, d: nat)
    requires ListsOk(s) && Enabled(s, Put(x)) && d < DSPS
    ensures DspOk(Next(s, Put(x)), d)
  {
    assert DspOk(s, d);
    assert DspOk(s, x);
    RecycleMoves(s, x, d);
  }

  lemma RectTakeKeepsDsp(s: State, e: Event, d: nat)
    requires ListsOk(s) && Enabled(s, e) && d < DSPS && (e.Take1? || e.Take2?)
    ensures DspOk(Next(s, e), d)
  {
    assert DspOk(s, d);
    ProduceMoves(s, d);
  }

  lemma Put1KeepsDsp(s: State, d: nat)
    requires ListsOk(s) && Enabled(s, Put1) && d < DSPS
    ensures DspOk(Next(s, Put1), d)
  {
    assert DspOk(s, d);
    RecycleMoves(s, s.rect.p, d);
  }

  lemma Put2KeepsDsp(s: State, d: nat)
    requires ListsOk(s) && Enabled(s, Put2) && d < DSPS
    ensures DspOk(Next(s, Put2), d)
  {
    assert DspOk(s, d);
    RecycleMoves(s, s.rect.q, d);
  }

  lemma StepKeepsDsp(s: State, e: Event, d: nat)
    requires ListsOk(s) && Enabled(s, e) && d < DSPS
    ensures DspOk(Next(s, e), d)
  {
    match e {
      case Offer(_) => ProcKeepsDsp(s, e, d);
      case Pend => ProcKeepsDsp(s, e, d);
      case Take => ProcKeepsDsp(s, e, d);
      case Load => ProcKeepsDsp(s, e, d);
      case Signal => ProcKeepsDsp(s, e, d);
      case Start(_) => WorkerKeepsDsp(s, e, d);
      case Finish(_) => WorkerKeepsDsp(s, e, d);
      case Report(_) => WorkerKeepsDsp(s, e, d);
      case Route(_) => WorkerKeepsDsp(s, e, d);
      case Put(x) => PutKeepsDsp(s, x, d);
      case Take1 => RectTakeKeepsDsp(s, e, d);
      case Take2 => RectTakeKeepsDsp(s, e, d);
      case Put1 => Put1KeepsDsp(s, d);
      case Put2 => Put2KeepsDsp(s, d);
      case _ => assert DspOk(s, d);
    }
  }

  lemma StepKeepsLists(s: State, e: Event)
    requires ListsOk(s) && Enabled(s, e)
    ensures ListsOk(Next(s, e))
  {
    var s' := Next(s, e);
    forall d | 0 <= d < DSPS ensures DspOk(s', d) {
      StepKeepsDsp(s, e, d);
    }
    match e {
      case Put(x) => WithoutRange(s.busy, x);
      case Put1 => WithoutRange(s.busy, s.rect.p);
      case Put2 => WithoutRange(s.busy, s.rect.q);
      case _ =>
    }
  }

  lemma StepKeepsQueue(s: State, e: Event)
    requires Sized(s) && QueueOk(s) && Enabled(s, e)
    ensures QueueOk(Next(s, e))
  {
    match e {
      case Pend => assert s.mbx == [s.mbx[0]] + s.mbx[1..];
      case Offer(g) => assert s.accepted + [g] == s.dispatched + (Waiting(s) + [g]);
      case Load => assert s.dispatched + ([s.proc.g] + s.mbx) == (s.dispatched + [s.proc.g]) + s.mbx;
      case _ =>
    }
  }

  lemma StepInv(s: State, e: Event)
    requires Inv(s) && Enabled(s, e)
    ensures Inv(Next(s, e))
  {
    StepKeepsLists(s, e);
    StepKeepsQueue(s, e);
  }

  // ---------------------------------------------------------------- results

  /** When image_process_tsk writes the sample slot of a DSP, that DSP's worker has
      finished its previous sample and put the DSP back; and while a worker is on a
      sample no step changes its slot. */
  lemma SlotIsSafe(s: State, e: Event, d: nat)
    requires Inv(s) && Enabled(s, e) && d < DSPS
    ensures e == Load && s.proc.d == d ==> s.worker[d] == WWait && s.sem[d] == 0
    ensures s.worker[d] != WWait || s.sem[d] > 0 ==> Next(s, e).slot[d] == s.slot[d]
    ensures s.worker[d].WRun? || s.worker[d].WReport? || s.worker[d].WRoute? ==> s.worker[d].g == s.slot[d]
  {
    assert DspOk(s, d);
  }

  /** While the update task sets parameters on a DSP, that DSP is idle as a worker, and
      no sample is on its way to it. */
  lemma ParamsAreExclusive(s: State, d: nat)
    requires Inv(s) && d < DSPS
    requires (s.rect.RSet1? && s.rect.p == d) || (s.rect.RSet2? && s.rect.q == d)
    ensures s.worker[d] == WWait && s.sem[d] == 0
    ensures !((s.proc.PGot? || s.proc.PLoaded?) && s.proc.d == d)
  {
    assert DspOk(s, d);
  }

  /** The DSP a step takes, and the one it gives back. */
  function Taken(s: State, e: Event): seq<nat>
    requires Sized(s) && Enabled(s, e)
  {
    if e == Take || e == Take1 || e == Take2 then [s.idle[0]] else []
  }

  function Returned(s: State, e: Event): seq<nat>
    requires Sized(s) && Enabled(s, e)
  {
    match e
    case Put(d) => [d]
    case Put1 => [s.rect.p]
    case Put2 => [s.rect.q]
    case _ => []
  }

  /** DSPs are taken in the order in which they came back, whoever takes them. */
  lemma DspsInTurn(s: State, e: Event)
    requires Sized(s) && Enabled(s, e)
    ensures Taken(s, e) + Next(s, e).idle == s.idle + Returned(s, e)
  {
    if e == Take || e == Take1 || e == Take2 { assert s.idle == [s.idle[0]] + s.idle[1..]; }
  }

  /** The update goes on exactly when no task owns a DSP. */
  lemma UpdateWaitsForIdle(s: State)
    requires Inv(s)
    ensures Enabled(s, Idle) <==>
              s.rect == RPoll && forall d :: 0 <= d < DSPS ==> ProcOwns(s, d) + WorkerOwns(s, d) == 0
  {
    assert DspOk(s, 0) && DspOk(s, 1);
    if s.busy != [] {
      assert Count(s.busy, s.busy[0]) > 0 && (s.busy[0] == 0 || s.busy[0] == 1);
    }
  }

  /** The DSPs that have got their parameters in the update under way. */
  function Updated(rect: Rect): set<nat> {
    match rect
    case RTake2(p) => {p}
    case RSet2(p, _) => {p}
    case RPut1(p, q) => {p, q}
    case RPut2(_) => {0, 1}
    case RDone => {0, 1}
    case _ => {}
  }

  /** The DSP a step sets parameters on. */
  function Sets(s: State, e: Event): set<nat> {
    if e == Set1 && s.rect.RSet1? then {s.rect.p} else if e == Set2 && s.rect.RSet2? then {s.rect.q} else {}
  }

  lemma BothTaken(s: State)
    requires Inv(s) && s.rect.RPut1?
    ensures {s.rect.p, s.rect.q} == {0, 1}
  {
    assert DspOk(s, s.rect.p);
  }

  lemma UpdateStep(s: State, e: Event)
    requires Inv(s) && Enabled(s, e) && e != UpdateDone
    ensures Updated(Next(s, e).rect) == Updated(s.rect) + Sets(s, e)
  {
    if e == Put1 { BothTaken(s); }
  }

  ghost predicate Run(s: State, es: seq<Event>, t: State)
    decreases |es|
  {
    if es == [] then s == t else Sized(s) && Enabled(s, es[0]) && Run(Next(s, es[0]), es[1..], t)
  }

  /** The DSPs that get parameters in a run. */
  function AllSets(s: State, es: seq<Event>): set<nat>
    decreases |es|
  {
    if es == [] || !Sized(s) || !Enabled(s, es[0]) then {} else Sets(s, es[0]) + AllSets(Next(s, es[0]), es[1..])
  }

  /** Main result: an update that is through has set the parameters of both DSPs. */
  lemma {:induction false} BothGetParameters(s: State, es: seq<Event>, t: State)
    requires Inv(s) && Run(s, es, t) && forall i :: 0 <= i < |es| ==> es[i] != UpdateDone
    ensures Inv(t) && Updated(s.rect) + AllSets(s, es) == Updated(t.rect)
    ensures s.rect == RPoll && t.rect == RDone ==> AllSets(s, es) == {0, 1}
    decreases |es|
  {
    if es != [] {
      StepInv(s, es[0]);
      UpdateStep(s, es[0]);
      assert forall i :: 0 <= i < |es[1..]| ==> es[1..][i] == es[i + 1];
      BothGetParameters(Next(s, es[0]), es[1..], t);
    }
  }

  predicate AtRest(s: State)
    requires Sized(s)
  {
    && s.mbx == [] && s.proc == PWait && s.rect == RWait && s.sem == [0, 0]
    && s.worker == [WWait, WWait] && s.notProcess == 0
  }

  predicate TaskCanMove(s: State, e: Event)
    requires Sized(s)
  {
    !e.Offer? && !e.Update? && Enabled(s, e)
  }

  /** A busy DSP that no blocked task owns has a worker that can move. */
  lemma BusyWorkerMoves(s: State, d: nat)
    requires Inv(s) && d < DSPS && WorkerOwns(s, d) > 0
    ensures exists e :: TaskCanMove(s, e)
  {
    assert DspOk(s, d);
    match s.worker[d] {
      case WWait => assert TaskCanMove(s, Start(d));
      case WRun(_) => assert TaskCanMove(s, Finish(d));
      case WReport(_) => assert TaskCanMove(s, Report(d));
      case WRoute(_) => assert TaskCanMove(s, Route(d));
      case WPut => assert TaskCanMove(s, Put(d));
    }
  }

  lemma {:induction false} CountEmpty(q: seq<nat>)
    requires forall i :: 0 <= i < |q| ==> q[i] < DSPS
    requires Count(q, 0) == 0 && Count(q, 1) == 0
    ensures q == []
  {}

  lemma RectMoves(s: State)
    requires Inv(s) && s.rect != RWait && WorkerOwns(s, 0) == 0 && WorkerOwns(s, 1) == 0
    requires !s.proc.PGot? && !s.proc.PLoaded?
    ensures exists e :: TaskCanMove(s, e)
  {
    assert DspOk(s, 0) && DspOk(s, 1);
    match s.rect {
      case RSet1(_) => assert TaskCanMove(s, Set1);
      case RSet2(_, _) => assert TaskCanMove(s, Set2);
      case RPut1(_, _) => assert TaskCanMove(s, Put1);
      case RPut2(_) => assert TaskCanMove(s, Put2);
      case RDone => assert TaskCanMove(s, UpdateDone);
      case RTake2(p) => assert TaskCanMove(s, Take2);
      case RTake1 => assert TaskCanMove(s, Take1);
      case RPoll => CountEmpty(s.busy); assert TaskCanMove(s, Idle);
    }
  }

  /** The three kinds of task never deadlock: either some task can take a step, or
      every task is waiting for new work. */
  lemma NoDeadlock(s: State)
    requires Inv(s)
    ensures AtRest(s) || exists e :: TaskCanMove(s, e)
  {
    assert DspOk(s, 0) && DspOk(s, 1);
    if WorkerOwns(s, 0) > 0 { BusyWorkerMoves(s, 0); return; }
    if WorkerOwns(s, 1) > 0 { BusyWorkerMoves(s, 1); return; }
    if s.proc.PGot? { assert TaskCanMove(s, Load); return; }
    if s.proc.PLoaded? { assert TaskCanMove(s, Signal); return; }
    if s.proc == PWait && s.mbx != [] { assert TaskCanMove(s, Pend); return; }
    if s.rect != RWait { RectMoves(s); return; }
    if s.proc.PHave? {
      assert TaskCanMove(s, Take);
    } else {
      assert s.worker == [WWait, WWait] && s.sem == [0, 0];
    }
  }

  // ---------------------------------------------------------------- work left

  function ProcWork(p: Proc): nat {
    match p case PWait => 0 case PHave(_) => 10 case PGot(_, _) => 9 case PLoaded(_, _) => 8
  }

  function WorkerWork(w: Worker): nat {
    match w case WWait => 0 case WRun(_) => 6 case WReport(_) => 5 case WRoute(_) => 4 case WPut => 1
  }

  function RectWork(r: Rect): nat {
    match r
    case RWait => 0 case RPoll => 8 case RTake1 => 7 case RSet1(_) => 6 case RTake2(_) => 5
    case RSet2(_, _) => 4 case RPut1(_, _) => 3 case RPut2(_) => 2 case RDone => 1
  }

  /** At most how many steps the three kinds of task can still take without new groups and
      without a parameter update; a step that may post an image counts for three. */
  function Work(s: State): nat
    requires Sized(s)
  {
    11 * |s.mbx| + ProcWork(s.proc) + 7 * (s.sem[0] + s.sem[1])
    + WorkerWork(s.worker[0]) + WorkerWork(s.worker[1]) + RectWork(s.rect)
  }

  lemma WorkerWorkDrops(s: State, e: Event)
    requires Sized(s) && Enabled(s, e) && (e.Start? || e.Finish? || e.Report? || e.Route? || e.Put?)
    ensures Sized(Next(s, e)) && Work(Next(s, e)) < Work(s)
    ensures e.Route? ==> Work(Next(s, e)) + 3 <= Work(s)
  {
    assert e.d == 0 || e.d == 1;
  }

  lemma ProcWorkDrops(s: State, e: Event)
    requires Sized(s) && Enabled(s, e) && (e.Pend? || e.Take? || e.Load? || e.Signal?)
    ensures Sized(Next(s, e)) && Work(Next(s, e)) < Work(s)
  {
    if e.Signal? {
      assert s.proc.d == 0 || s.proc.d == 1;
    }
  }

  lemma WorkDrops(s: State, e: Event)
    requires Sized(s) && Enabled(s, e) && !e.Offer? && !e.Update?
    ensures Sized(Next(s, e)) && Work(Next(s, e)) < Work(s)
    ensures e.Route? ==> Work(Next(s, e)) + 3 <= Work(s)
  {
    if e.Start? || e.Finish? || e.Report? || e.Route? || e.Put? { WorkerWorkDrops(s, e); }
    else if e.Pend? || e.Take? || e.Load? || e.Signal? { ProcWorkDrops(s, e); }
  }

  // ---------------------------------------------------------------- who holds a group

  function AtDsp(s: State, d: nat, g: nat): nat
    requires Sized(s) && d < DSPS
  {
    One(s.sem[d] > 0 && s.slot[d] == g) + One(s.worker[d] == WRun(g)) + One(s.worker[d] == WReport(g))
  }

  /** How often group g is somewhere between being accepted and its result being sent. */
  function Owed(s: State, g: nat): nat
    requires Sized(s)
  {
    Count(s.mbx, g) + One(s.proc != PWait && s.proc.g == g) + AtDsp(s, 0, g) + AtDsp(s, 1, g)
  }

  /** How many workers have sent the result of g and are about to test the send mode. */
  function Routing(s: State, g: nat): nat
    requires Sized(s)
  {
    One(s.worker[0] == WRoute(g)) + One(s.worker[1] == WRoute(g))
  }

  predicate Adds(s: State, e: Event, g: nat) {
    e == Offer(g) && Accepts(s)
  }

  predicate Reports(s: State, e: Event, g: nat)
    requires Sized(s)
  {
    e.Report? && e.d < DSPS && s.worker[e.d] == WReport(g)
  }

  predicate Routes(s: State, e: Event, g: nat)
    requires Sized(s)
  {
    e.Route? && e.d < DSPS && s.worker[e.d] == WRoute(g)
  }

  ghost predicate Conserves(s: State, e: Event, g: nat)
    requires Inv(s) && Enabled(s, e)
  {
    && Owed(Next(s, e), g) == Owed(s, g) + One(Adds(s, e, g)) - One(Reports(s, e, g))
    && Routing(Next(s, e), g) == Routing(s, g) + One(Reports(s, e, g)) - One(Routes(s, e, g))
  }

  lemma StartFinishConserve(s: State, e: Event, g: nat)
    requires Inv(s) && Enabled(s, e) && (e.Start? || e.Finish?)
    ensures Conserves(s, e, g)
  {
    assert DspOk(s, e.d);
  }

  lemma ReportRouteConserve(s: State, e: Event, g: nat)
    requires Inv(s) && Enabled(s, e) && (e.Report? || e.Route? || e.Put?)
    ensures Conserves(s, e, g)
  {
    assert DspOk(s, e.d);
    assert e.d == 0 || e.d == 1;
  }

  lemma ProcConserves(s: State, e: Event, g: nat)
    requires Inv(s) && Enabled(s, e) && (e.Offer? || e.Pend? || e.Take? || e.Load?)
    ensures Conserves(s, e, g)
  {
    match e {
      case Offer(h) => CountAppend(s.mbx, h, g);
      case Load => assert DspOk(s, s.proc.d);
      case _ =>
    }
  }

  lemma SignalConserves(s: State, g: nat)
    requires Inv(s) && Enabled(s, Signal)
    ensures Conserves(s, Signal, g)
  {
    assert DspOk(s, s.proc.d);
    assert s.proc.d == 0 || s.proc.d == 1;
  }

  /** A group moves through the DSP side without being lost or duplicated: it enters
      when it is accepted and leaves when its result is sent. */
  lemma GroupsAreConserved(s: State, e: Event, g: nat)
    requires Inv(s) && Enabled(s, e)
    ensures Conserves(s, e, g)
  {
    match e {
      case Offer(_) => ProcConserves(s, e, g);
      case Pend => ProcConserves(s, e, g);
      case Take => ProcConserves(s, e, g);
      case Load => ProcConserves(s, e, g);
      case Signal => SignalConserves(s, g);
      case Start(_) => StartFinishConserve(s, e, g);
      case Finish(_) => StartFinishConserve(s, e, g);
      case Report(_) => ReportRouteConserve(s, e, g);
      case Route(_) => ReportRouteConserve(s, e, g);
      case Put(_) => ReportRouteConserve(s, e, g);
      case _ =>
    }
  }

  predicate Quiet(s: State)
    requires Sized(s)
  {
    && s.mbx == [] && s.proc == PWait && s.sem == [0, 0]
    && (s.worker[0] == WWait || s.worker[0] == WPut) && (s.worker[1] == WWait || s.worker[1] == WPut)
  }

  /** Without new groups, a quiet DSP side stays quiet. */
  lemma QuietStays(s: State, e: Event)
    requires Inv(s) && Enabled(s, e) && Quiet(s) && !e.Offer?
    ensures Quiet(Next(s, e))
  {}

  lemma QuietOwesNothing(s: State, g: nat)
    requires Sized(s) && Quiet(s)
    ensures Owed(s, g) == 0 && Routing(s, g) == 0
  {}
}
