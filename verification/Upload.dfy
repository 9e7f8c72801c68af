/** Uploading sample records and images (net/net_protocol.c:37-240, net/net.c:59-107):
    the 32-credit counter and 32-slot ring of send_sample_info, the one-credit staging
    buffer of send_image_info, the /net mailbox in priority order, and net_send_tsk as
    its single consumer. Calls are atomic. */
module Upload {
  import opened Counting
  import opened GroupStore
  import PriorityQueue

  const SAMPLE_INFO_ARRAY_MAX: nat := 32

  /** A message in the /net mailbox carries a pointer to its data: a ring slot, or the
      staging buffer. `serial` is history: which call it belongs to, as an index into
      the logs below. `Control` is any other upload, with its priority. */
  datatype Message =
    | Sample(slot: nat, serial: nat)
    | Image(serial: nat)
    | Control(prio: nat)

  function Prio(m: Message): nat {
    match m
    case Sample(_, _) => 5
    case Image(_) => 3
    case Control(p) => p
  }

  /** A picture is represented by a number. History: `sampleLog` has the record of
      every call that was given a ring slot, `imageLog` every picture staged and
      posted; `lost` counts credits taken by calls that then got no message;
      `sentSamples` and `sentImages` are what the consumer put on the wire. */
  datatype State = State(
    ring: seq<SampleInfo>, index: nat, inProcess: nat, sampleAbility: bool,
    staging: nat, imageAbility: bool,
    mbx: seq<Message>, held: seq<Message>,
    sampleLog: seq<SampleInfo>, imageLog: seq<nat>, lost: nat,
    sentSamples: seq<(nat, SampleInfo)>, sentImages: seq<(nat, nat)>)

  function Cleared(n: nat): (ring: seq<SampleInfo>)
    ensures |ring| == n && forall i :: 0 <= i < n ==> ring[i] == ZERO_INFO
  {
    if n == 0 then [] else Cleared(n - 1) + [ZERO_INFO]
  }

  const INIT := State(Cleared(SAMPLE_INFO_ARRAY_MAX), 0, 0, true, 0, true, [], [], [], [], 0, [], [])

  // ---------------------------------------------------------------- operations

  /** mq_send into the /net mailbox. */
  function Insert(q: seq<Message>, m: Message): seq<Message> {
    PriorityQueue.Insert(Prio, q, m)
  }

  function NextSlot(i: nat): nat {
    if i + 1 >= SAMPLE_INFO_ARRAY_MAX then 0 else i + 1
  }

  /** allow_send_sample. */
  function AllowSample(s: State): State {
    if s.inProcess > 0 then
      s.(inProcess := s.inProcess - 1,
         sampleAbility := s.sampleAbility || s.inProcess - 1 < SAMPLE_INFO_ARRAY_MAX)
    else s
  }

  /** send_sample_info. `link`: the connection is up; `gotMsg`: the message pool was
      not empty; `posted`: the mailbox took the message. */
  function SendSample(s: State, info: SampleInfo, link: bool, gotMsg: bool, posted: bool): State
    requires s.index < |s.ring|
  {
    if !link || !s.sampleAbility then s
    else
      var s1 := s.(inProcess := s.inProcess + 1,
                   sampleAbility := s.inProcess + 1 < SAMPLE_INFO_ARRAY_MAX);
      if !gotMsg then s1.(lost := s1.lost + 1)
      else
        var s2 := s1.(ring := s1.ring[s1.index := info],
                      index := NextSlot(s1.index),
                      sampleLog := s1.sampleLog + [info]);
        if posted then s2.(mbx := Insert(s2.mbx, Sample(s.index, |s.sampleLog|)))
        else AllowSample(s2)
  }

  /** send_image_info. */
  function SendImage(s: State, image: nat, link: bool, gotMsg: bool, posted: bool): State {
    if !link || !s.imageAbility || !gotMsg then s
    else if !posted then s.(staging := image)
    else s.(imageAbility := false, staging := image, imageLog := s.imageLog + [image],
            mbx := Insert(s.mbx, Image(|s.imageLog|)))
  }

  function SendControl(s: State, prio: nat): State {
    s.(mbx := Insert(s.mbx, Control(prio)))
  }

  predicate CanPend(s: State) {
    s.held == [] && s.mbx != []
  }

  function Pend(s: State): State
    requires CanPend(s)
  {
    s.(held := [s.mbx[0]], mbx := s.mbx[1..])
  }

  predicate CanFinish(s: State) {
    |s.held| == 1 && (s.held[0].Sample? ==> s.held[0].slot < |s.ring|)
  }

  /** net_send_tsk from the link test on: write the data the message points at, unless
      the link is down, then recycle the message, which runs its finish callback. */
  function Finish(s: State, link: bool): State
    requires CanFinish(s)
  {
    var m := s.held[0];
    var s1 := s.(held := []);
    match m
    case Sample(slot, serial) =>
      AllowSample(if link then s1.(sentSamples := s1.sentSamples + [(serial, s.ring[slot])]) else s1)
    case Image(serial) =>
      s1.(imageAbility := true,
          sentImages := if link then s1.sentImages + [(serial, s.staging)] else s1.sentImages)
    case Control(_) => s1
  }

  datatype Event =
    | EvSample(info: SampleInfo, link: bool, gotMsg: bool, posted: bool)
    | EvImage(image: nat, link: bool, gotMsg: bool, posted: bool)
    | EvControl(prio: nat)
    | EvPend
    | EvFinish(link: bool)

  predicate Enabled(s: State, e: Event) {
    match e
    case EvSample(_, _, _, _) => s.index < |s.ring|
    case EvPend => CanPend(s)
    case EvFinish(_) => CanFinish(s)
    case _ => true
  }

  function Next(s: State, e: Event): State
    requires Enabled(s, e)
  {
    match e
    case EvSample(info, link, gotMsg, posted) => SendSample(s, info, link, gotMsg, posted)
    case EvImage(image, link, gotMsg, posted) => SendImage(s, image, link, gotMsg, posted)
    case EvControl(prio) => SendControl(s, prio)
    case EvPend => Pend(s)
    case EvFinish(link) => Finish(s, link)
  }

  // ---------------------------------------------------------------- invariant

  function Samples(q: seq<Message>): seq<Message> {
    if q == [] then [] else (if q[0].Sample? then [q[0]] else []) + Samples(q[1..])
  }

  function Pictures(q: seq<Message>): seq<Message> {
    if q == [] then [] else (if q[0].Image? then [q[0]] else []) + Pictures(q[1..])
  }

  /** Sample records posted and not yet finished, oldest first. */
  function InFlight(s: State): seq<Message> {
    Samples(s.held) + Samples(s.mbx)
  }

  ghost predicate Sorted(q: seq<Message>) {
    PriorityQueue.Sorted(Prio, q)
  }

  ghost predicate CreditsOk(s: State) {
    && |s.ring| == SAMPLE_INFO_ARRAY_MAX
    && s.index == |s.sampleLog| % SAMPLE_INFO_ARRAY_MAX
    && s.inProcess == |InFlight(s)| + s.lost <= SAMPLE_INFO_ARRAY_MAX
    && (s.sampleAbility <==> s.inProcess < SAMPLE_INFO_ARRAY_MAX)
  }

  /** Message m is the upload of call `serial`, in the ring slot of that call, and the
      slot still has the contents that were handed over. */
  predicate RecordOk(s: State, m: Message, serial: int)
    requires |s.ring| == SAMPLE_INFO_ARRAY_MAX
  {
    && 0 <= serial < |s.sampleLog|
    && m == Sample(serial % SAMPLE_INFO_ARRAY_MAX, serial)
    && s.ring[serial % SAMPLE_INFO_ARRAY_MAX] == s.sampleLog[serial]
  }

  /** The records in flight are those of the latest calls, oldest first. */
  ghost predicate RecordsOk(s: State) {
    && |s.ring| == SAMPLE_INFO_ARRAY_MAX
    && forall k :: 0 <= k < |InFlight(s)| ==> RecordOk(s, InFlight(s)[k], |s.sampleLog| - |InFlight(s)| + k)
  }

  /** At most one picture is in flight, the latest staged, still in the buffer. */
  ghost predicate StagingOk(s: State) {
    var p := Pictures(s.held) + Pictures(s.mbx);
    && |p| <= 1
    && (s.imageAbility <==> p == [])
    && (p != [] ==> |s.imageLog| > 0 && p[0] == Image(|s.imageLog| - 1) && s.staging == s.imageLog[|s.imageLog| - 1])
  }

  /** What went out: every record as it was handed over, in the order of the calls,
      none of them still in flight. */
  ghost predicate WireOk(s: State) {
    && (forall i, j :: 0 <= i < j < |s.sentSamples| ==> s.sentSamples[i].0 < s.sentSamples[j].0)
    && (forall i :: 0 <= i < |s.sentSamples| ==>
          && s.sentSamples[i].0 < |s.sampleLog| - |InFlight(s)|
          && s.sentSamples[i].1 == s.sampleLog[s.sentSamples[i].0])
  }

  ghost predicate PicturesSent(s: State) {
    forall i :: 0 <= i < |s.sentImages| ==>
      s.sentImages[i].0 < |s.imageLog| && s.sentImages[i].1 == s.imageLog[s.sentImages[i].0]
  }

  ghost predicate Inv(s: State) {
    && |s.held| <= 1 && Sorted(s.mbx)
    && CreditsOk(s) && RecordsOk(s) && WireOk(s)
    && StagingOk(s) && PicturesSent(s)
  }

  lemma InitInv()
    ensures Inv(INIT)
  {}

  // ---------------------------------------------------------------- the priority queue

  lemma InsertSorted(q: seq<Message>, m: Message)
    requires Sorted(q)
    ensures Sorted(Insert(q, m))
  {
    PriorityQueue.InsertSorted(Prio, q, m);
  }

  lemma {:induction false} NoSamples(q: seq<Message>)
    requires forall i :: 0 <= i < |q| ==> Prio(q[i]) < 5
    ensures Samples(q) == []
  {
    if q != [] { NoSamples(q[1..]); }
  }

  lemma SamplesInFront(q: seq<Message>, m: Message)
    requires Sorted(q) && (q != [] ==> Prio(q[0]) < Prio(m))
    ensures Samples([m] + q) == Samples(q) + (if m.Sample? then [m] else [])
  {
    assert ([m] + q)[1..] == q;
    if m.Sample? {
      forall i | 0 <= i < |q| ensures Prio(q[i]) < 5 {
        assert i == 0 || Prio(q[0]) >= Prio(q[i]);
      }
      NoSamples(q);
    }
  }

  lemma SamplesBehind(first: Message, q: seq<Message>)
    ensures Samples([first] + q) == (if first.Sample? then [first] else []) + Samples(q)
  {
    assert ([first] + q)[1..] == q;
  }

  /** Records leave the mailbox in the order they were posted, whatever else is
      posted between them. */
  lemma {:induction false} InsertSamples(q: seq<Message>, m: Message)
    requires Sorted(q)
    ensures Samples(Insert(q, m)) == Samples(q) + (if m.Sample? then [m] else [])
  {
    if q == [] || Prio(q[0]) < Prio(m) {
      SamplesInFront(q, m);
    } else {
      InsertSamples(q[1..], m);
      SamplesBehind(q[0], Insert(q[1..], m));
    }
  }

  lemma {:induction false} InsertPictures(q: seq<Message>, m: Message)
    ensures |Pictures(Insert(q, m))| == |Pictures(q)| + (if m.Image? then 1 else 0)
    ensures m.Image? && Pictures(q) == [] ==> Pictures(Insert(q, m)) == [m]
    ensures !m.Image? ==> Pictures(Insert(q, m)) == Pictures(q)
  {
    if q == [] || Prio(q[0]) < Prio(m) {
      assert ([m] + q)[1..] == q;
    } else {
      InsertPictures(q[1..], m);
      assert ([q[0]] + Insert(q[1..], m))[1..] == Insert(q[1..], m);
    }
  }

  // ---------------------------------------------------------------- preservation

  lemma Single(m: Message)
    ensures Samples([m]) == if m.Sample? then [m] else []
    ensures Pictures([m]) == if m.Image? then [m] else []
  {
    assert [m][1..] == [];
  }

  lemma NextSlotIsModulo(n: nat)
    ensures NextSlot(n % SAMPLE_INFO_ARRAY_MAX) == (n + 1) % SAMPLE_INFO_ARRAY_MAX
  {}

  lemma OtherSlot(serial: nat, next: nat)
    requires serial < next < serial + SAMPLE_INFO_ARRAY_MAX
    ensures serial % SAMPLE_INFO_ARRAY_MAX != next % SAMPLE_INFO_ARRAY_MAX
  {}

  lemma SameRecordsButCredit(s: State, s': State)
    requires RecordsOk(s) && WireOk(s) && InFlight(s') == InFlight(s)
    requires s'.ring == s.ring && s'.sampleLog == s.sampleLog && s'.sentSamples == s.sentSamples
    ensures RecordsOk(s') && WireOk(s')
  {
    forall k | 0 <= k < |InFlight(s')| ensures RecordOk(s', InFlight(s')[k], |s'.sampleLog| - |InFlight(s')| + k) {
      assert RecordOk(s, InFlight(s)[k], |s.sampleLog| - |InFlight(s)| + k);
    }
  }

  lemma CreditLost(s: State, s': State)
    requires Inv(s) && s.sampleAbility
    requires s' == s.(inProcess := s.inProcess + 1, lost := s.lost + 1,
                      sampleAbility := s.inProcess + 1 < SAMPLE_INFO_ARRAY_MAX)
    ensures Inv(s')
  {
    assert InFlight(s') == InFlight(s);
    SameRecordsButCredit(s, s');
  }

  lemma SampleKeepsRest(s: State, info: SampleInfo)
    requires Inv(s) && s.sampleAbility
    ensures var s' := SendSample(s, info, true, true, true);
            |s'.held| <= 1 && Sorted(s'.mbx) && StagingOk(s') && PicturesSent(s')
  {
    var m := Sample(s.index, |s.sampleLog|);
    InsertSorted(s.mbx, m);
    InsertPictures(s.mbx, m);
  }

  lemma RecordJoins(s: State, s': State, info: SampleInfo)
    requires RecordsOk(s) && |InFlight(s)| < SAMPLE_INFO_ARRAY_MAX && s.index == |s.sampleLog| % SAMPLE_INFO_ARRAY_MAX
    requires InFlight(s') == InFlight(s) + [Sample(s.index, |s.sampleLog|)]
    requires s'.ring == s.ring[s.index := info] && s'.sampleLog == s.sampleLog + [info]
    ensures RecordsOk(s')
  {
    var n := |InFlight(s)|;
    forall k | 0 <= k < n + 1 ensures RecordOk(s', InFlight(s')[k], |s'.sampleLog| - (n + 1) + k) {
      if k < n {
        assert RecordOk(s, InFlight(s)[k], |s.sampleLog| - n + k);
        OtherSlot(|s.sampleLog| - n + k, |s.sampleLog|);
      }
    }
  }

  lemma SampleJoins(s: State, info: SampleInfo)
    requires Inv(s) && s.sampleAbility
    ensures var s' := SendSample(s, info, true, true, true);
            && CreditsOk(s') && RecordsOk(s') && WireOk(s')
            && InFlight(s') == InFlight(s) + [Sample(s.index, |s.sampleLog|)]
  {
    var s' := SendSample(s, info, true, true, true);
    var m := Sample(s.index, |s.sampleLog|);
    InsertSamples(s.mbx, m);
    assert InFlight(s') == InFlight(s) + [m];
    NextSlotIsModulo(|s.sampleLog|);
    RecordJoins(s, s', info);
  }

  /** A record joins the ones in flight: its slot is the one after theirs, and with at
      most 31 of them it is none of theirs. */
  lemma SendSampleKeeps(s: State, info: SampleInfo, link: bool, gotMsg: bool)
    requires Inv(s)
    ensures Inv(SendSample(s, info, link, gotMsg, true))
  {
    var s' := SendSample(s, info, link, gotMsg, true);
    if !link || !s.sampleAbility {
      assert s' == s;
    } else if gotMsg {
      SampleKeepsRest(s, info);
      SampleJoins(s, info);
    } else {
      CreditLost(s, s');
    }
  }

  lemma SameRecords(s: State, s': State)
    requires Inv(s) && InFlight(s') == InFlight(s)
    requires s'.ring == s.ring && s'.index == s.index && s'.sampleLog == s.sampleLog && s'.lost == s.lost
    requires s'.inProcess == s.inProcess && s'.sampleAbility == s.sampleAbility && s'.sentSamples == s.sentSamples
    ensures CreditsOk(s') && RecordsOk(s') && WireOk(s')
  {
    SameRecordsButCredit(s, s');
  }

  lemma ImageStaged(s: State, image: nat)
    requires Inv(s) && s.imageAbility
    ensures var s' := SendImage(s, image, true, true, true);
            StagingOk(s') && PicturesSent(s') && Sorted(s'.mbx) && InFlight(s') == InFlight(s)
  {
    var m := Image(|s.imageLog|);
    InsertSorted(s.mbx, m);
    InsertSamples(s.mbx, m);
    InsertPictures(s.mbx, m);
  }

  lemma SendImageKeeps(s: State, image: nat, link: bool, gotMsg: bool)
    requires Inv(s)
    ensures Inv(SendImage(s, image, link, gotMsg, true))
  {
    if link && s.imageAbility && gotMsg {
      ImageStaged(s, image);
      SameRecords(s, SendImage(s, image, link, gotMsg, true));
    }
  }

  lemma SendControlKeeps(s: State, prio: nat)
    requires Inv(s)
    ensures Inv(SendControl(s, prio))
  {
    InsertSorted(s.mbx, Control(prio));
    InsertSamples(s.mbx, Control(prio));
    InsertPictures(s.mbx, Control(prio));
    SameRecords(s, SendControl(s, prio));
  }

  lemma PendKeeps(s: State)
    requires Inv(s) && CanPend(s)
    ensures Inv(Pend(s)) && InFlight(Pend(s)) == InFlight(s)
  {
    var s' := Pend(s);
    Single(s.mbx[0]);
    assert InFlight(s') == InFlight(s);
    assert Pictures(s'.held) + Pictures(s'.mbx) == Pictures(s.held) + Pictures(s.mbx);
    SameRecords(s, s');
  }

  /** The picture the consumer holds is the only one, and the one last staged. */
  lemma HeldImage(s: State)
    requires StagingOk(s) && |s.held| == 1 && s.held[0].Image?
    ensures Pictures(s.mbx) == [] && |s.imageLog| > 0
    ensures s.held[0].serial == |s.imageLog| - 1 && s.staging == s.imageLog[|s.imageLog| - 1]
  {
    var m := s.held[0];
    assert s.held == [m];
    Single(m);
    assert (Pictures(s.held) + Pictures(s.mbx))[0] == m;
  }

  lemma FinishImageKeeps(s: State, link: bool)
    requires Inv(s) && |s.held| == 1 && s.held[0].Image?
    ensures CanFinish(s) && InFlight(Finish(s, link)) == InFlight(s)
    ensures StagingOk(Finish(s, link)) && PicturesSent(Finish(s, link))
  {
    HeldImage(s);
    assert s.held == [s.held[0]];
    Single(s.held[0]);
    assert Pictures(Finish(s, link).held) + Pictures(Finish(s, link).mbx) == [];
  }

  lemma FinishControlKeeps(s: State, link: bool)
    requires Inv(s) && |s.held| == 1 && s.held[0].Control?
    ensures CanFinish(s) && InFlight(Finish(s, link)) == InFlight(s)
    ensures StagingOk(Finish(s, link)) && PicturesSent(Finish(s, link))
  {
    assert s.held == [s.held[0]];
    Single(s.held[0]);
  }

  lemma RecordLeaves(s: State, s': State)
    requires RecordsOk(s) && InFlight(s) != [] && InFlight(s') == InFlight(s)[1..]
    requires s'.ring == s.ring && s'.sampleLog == s.sampleLog
    ensures RecordsOk(s')
  {
    var n := |InFlight(s)|;
    forall k | 0 <= k < n - 1 ensures RecordOk(s', InFlight(s')[k], |s'.sampleLog| - (n - 1) + k) {
      assert RecordOk(s, InFlight(s)[k + 1], |s.sampleLog| - n + (k + 1));
    }
  }

  lemma RecordSent(s: State, s': State, link: bool)
    requires WireOk(s) && InFlight(s) != [] && InFlight(s') == InFlight(s)[1..] && s'.sampleLog == s.sampleLog
    requires |InFlight(s)| <= |s.sampleLog|
    requires var k := |s.sampleLog| - |InFlight(s)|;
             s'.sentSamples == if link then s.sentSamples + [(k, s.sampleLog[k])] else s.sentSamples
    ensures WireOk(s')
  {}

  lemma FinishSampleKeeps(s: State, link: bool)
    requires Inv(s) && |s.held| == 1 && s.held[0].Sample?
    requires Samples(s.held) == [s.held[0]]
    ensures CanFinish(s)
    ensures var s' := Finish(s, link);
            && CreditsOk(s') && RecordsOk(s') && WireOk(s')
            && InFlight(s) == [s.held[0]] + InFlight(s')
  {
    var n := |InFlight(s)|;
    assert InFlight(s)[0] == s.held[0];
    assert RecordOk(s, InFlight(s)[0], |s.sampleLog| - n);
    var s' := Finish(s, link);
    assert InFlight(s') == InFlight(s)[1..];
    RecordLeaves(s, s');
    RecordSent(s, s', link);
  }

  lemma FinishSampleKeepsPictures(s: State, link: bool)
    requires StagingOk(s) && PicturesSent(s) && CanFinish(s) && s.held[0].Sample? && Pictures(s.held) == []
    ensures StagingOk(Finish(s, link)) && PicturesSent(Finish(s, link)) && Finish(s, link).mbx == s.mbx
  {}

  lemma FinishRecord(s: State, link: bool)
    requires Inv(s) && |s.held| == 1 && s.held[0].Sample?
    ensures CanFinish(s) && Inv(Finish(s, link)) && InFlight(s) == [s.held[0]] + InFlight(Finish(s, link))
  {
    assert s.held == [s.held[0]];
    Single(s.held[0]);
    FinishSampleKeeps(s, link);
    FinishSampleKeepsPictures(s, link);
  }

  lemma FinishOther(s: State, link: bool)
    requires Inv(s) && |s.held| == 1 && !s.held[0].Sample?
    ensures CanFinish(s) && Inv(Finish(s, link))
  {
    if s.held[0].Image? { FinishImageKeeps(s, link); } else { FinishControlKeeps(s, link); }
    SameRecords(s, Finish(s, link));
  }

  lemma FinishKeeps(s: State, link: bool)
    requires Inv(s) && |s.held| == 1
    ensures CanFinish(s) && Inv(Finish(s, link))
    ensures s.held[0].Sample? ==> InFlight(s) == [s.held[0]] + InFlight(Finish(s, link))
  {
    if s.held[0].Sample? { FinishRecord(s, link); } else { FinishOther(s, link); }
  }

  predicate Posted(e: Event) {
    match e
    case EvSample(_, _, _, posted) => posted
    case EvImage(_, _, _, posted) => posted
    case _ => true
  }

  lemma StepInv(s: State, e: Event)
    requires Inv(s) && Enabled(s, e) && Posted(e)
    ensures Inv(Next(s, e))
  {
    match e {
      case EvSample(info, link, gotMsg, _) => SendSampleKeeps(s, info, link, gotMsg);
      case EvImage(image, link, gotMsg, _) => SendImageKeeps(s, image, link, gotMsg);
      case EvControl(prio) => SendControlKeeps(s, prio);
      case EvPend => PendKeeps(s);
      case EvFinish(link) => FinishKeeps(s, link);
    }
  }

  // ---------------------------------------------------------------- results over runs

  /** The events es, each enabled in its turn and every post taken, lead from s to t. */
  ghost predicate Run(s: State, es: seq<Event>, t: State)
    decreases |es|
  {
    if es == [] then s == t
    else Enabled(s, es[0]) && Posted(es[0]) && Run(Next(s, es[0]), es[1..], t)
  }

  lemma {:induction false} RunInv(s: State, es: seq<Event>, t: State)
    requires Inv(s) && Run(s, es, t)
    ensures Inv(t)
    decreases |es|
  {
    if es != [] {
      StepInv(s, es[0]);
      RunInv(Next(s, es[0]), es[1..], t);
    }
  }

  lemma InFlightApart(s: State, j: nat, k: nat)
    requires RecordsOk(s) && j < k < |InFlight(s)| <= SAMPLE_INFO_ARRAY_MAX
    ensures InFlight(s)[j].Sample? && InFlight(s)[k].Sample? && InFlight(s)[j].slot != InFlight(s)[k].slot
  {
    var n := |s.sampleLog| - |InFlight(s)|;
    assert RecordOk(s, InFlight(s)[j], n + j) && RecordOk(s, InFlight(s)[k], n + k);
    OtherSlot(n + j, n + k);
  }

  ghost predicate SlotsApart(q: seq<Message>) {
    forall j, k :: 0 <= j < k < |q| ==> q[j].Sample? && q[k].Sample? && q[j].slot != q[k].slot
  }

  lemma InFlightDistinct(s: State)
    requires RecordsOk(s) && |InFlight(s)| <= SAMPLE_INFO_ARRAY_MAX
    ensures SlotsApart(InFlight(s))
  {
    forall j, k | 0 <= j < k < |InFlight(s)|
      ensures InFlight(s)[j].Sample? && InFlight(s)[k].Sample? && InFlight(s)[j].slot != InFlight(s)[k].slot
    {
      InFlightApart(s, j, k);
    }
  }

  /** In every reachable state: at most 32 records are in flight; they are in pairwise
      distinct, cyclically consecutive slots that still hold what was handed over. */
  lemma InFlightIsSafe(es: seq<Event>, s: State)
    requires Run(INIT, es, s)
    ensures |InFlight(s)| <= s.inProcess <= SAMPLE_INFO_ARRAY_MAX
    ensures RecordsOk(s) && SlotsApart(InFlight(s))
  {
    InitInv();
    RunInv(INIT, es, s);
    InFlightDistinct(s);
  }

  /** In every reachable state: whatever went out went out as handed over, and records in
      the order of the calls. */
  lemma UploadsAreFaithful(es: seq<Event>, s: State)
    requires Run(INIT, es, s)
    ensures forall i, j :: 0 <= i < j < |s.sentSamples| ==> s.sentSamples[i].0 < s.sentSamples[j].0
    ensures forall i :: 0 <= i < |s.sentSamples| ==>
              s.sentSamples[i].0 < |s.sampleLog| && s.sentSamples[i].1 == s.sampleLog[s.sentSamples[i].0]
    ensures forall i :: 0 <= i < |s.sentImages| ==>
              s.sentImages[i].0 < |s.imageLog| && s.sentImages[i].1 == s.imageLog[s.sentImages[i].0]
  {
    InitInv();
    RunInv(INIT, es, s);
  }

  // ---------------------------------------------------------------- which records are missing

  /** A call that was given a ring slot. */
  predicate Takes(s: State, e: Event) {
    e.EvSample? && e.link && s.sampleAbility && e.gotMsg
  }

  /** The consumer has a record in its hands. */
  predicate HasRecord(s: State) {
    |s.held| == 1 && s.held[0].Sample?
  }

  lemma InFlightStep(s: State, e: Event)
    requires Inv(s) && Enabled(s, e) && Posted(e)
    ensures |InFlight(Next(s, e))| == |InFlight(s)| + One(Takes(s, e)) - One(e.EvFinish? && HasRecord(s))
  {
    match e {
      case EvSample(info, link, gotMsg, _) => if Takes(s, e) { SampleJoins(s, info); }
      case EvImage(image, link, gotMsg, _) => if link && s.imageAbility && gotMsg { ImageStaged(s, image); }
      case EvControl(prio) => InsertSamples(s.mbx, Control(prio));
      case EvPend => PendKeeps(s);
      case EvFinish(link) =>
        if HasRecord(s) { FinishKeeps(s, link); }
        else if s.held[0].Image? { FinishImageKeeps(s, link); } else { FinishControlKeeps(s, link); }
    }
  }

  /** Records given a slot, but neither in flight nor sent. */
  function Missing(s: State): int {
    |s.sampleLog| - |InFlight(s)| - |s.sentSamples|
  }

  /** A record goes missing exactly at the step that finishes it while the link is down. */
  lemma MissingExactly(s: State, e: Event)
    requires Inv(s) && Enabled(s, e) && Posted(e)
    ensures Missing(Next(s, e)) == Missing(s) + One(e.EvFinish? && HasRecord(s) && !e.link)
  {
    InFlightStep(s, e);
  }

  predicate Linked(es: seq<Event>) {
    forall i :: 0 <= i < |es| && es[i].EvFinish? ==> es[i].link
  }

  ghost predicate Complete(s: State) {
    Missing(s) == 0 && forall i :: 0 <= i < |s.sentSamples| ==> s.sentSamples[i].0 == i
  }

  lemma HeldIsOldest(s: State)
    requires Inv(s) && HasRecord(s)
    ensures s.held[0].serial == |s.sampleLog| - |InFlight(s)|
  {
    assert s.held == [s.held[0]];
    Single(s.held[0]);
    assert RecordOk(s, InFlight(s)[0], |s.sampleLog| - |InFlight(s)|);
  }

  lemma CompleteStep(s: State, e: Event)
    requires Inv(s) && Complete(s) && Enabled(s, e) && Posted(e) && (e.EvFinish? ==> e.link)
    ensures Complete(Next(s, e))
  {
    MissingExactly(s, e);
    if e.EvFinish? && HasRecord(s) { HeldIsOldest(s); }
  }

  lemma {:induction false} CompleteRun(s: State, es: seq<Event>, t: State)
    requires Inv(s) && Complete(s) && Run(s, es, t) && Linked(es)
    ensures Inv(t) && Complete(t)
    decreases |es|
  {
    if es != [] {
      StepInv(s, es[0]);
      CompleteStep(s, es[0]);
      assert Linked(es[1..]) by { assert forall i :: 0 <= i < |es[1..]| ==> es[1..][i] == es[i + 1]; }
      CompleteRun(Next(s, es[0]), es[1..], t);
    }
  }

  lemma InitComplete()
    ensures Inv(INIT) && Complete(INIT)
  {
    InitInv();
  }

  lemma CompleteIsFaithful(s: State)
    requires WireOk(s) && Complete(s)
    ensures |s.sentSamples| + |InFlight(s)| == |s.sampleLog|
    ensures forall i :: 0 <= i < |s.sentSamples| ==> s.sentSamples[i] == (i, s.sampleLog[i])
  {}

  /** Main result: while the link is up whenever the consumer writes, no record that was
      given a slot is missing: what went out is the log without the records in flight. */
  lemma NoneMissing(es: seq<Event>, s: State)
    requires Run(INIT, es, s) && Linked(es)
    ensures |s.sentSamples| + |InFlight(s)| == |s.sampleLog|
    ensures forall i :: 0 <= i < |s.sentSamples| ==> s.sentSamples[i] == (i, s.sampleLog[i])
  {
    InitComplete();
    CompleteRun(INIT, es, s);
    CompleteIsFaithful(s);
  }

  // ---------------------------------------------------------------- what is handed over

  /** A call whose picture goes out. */
  predicate Stages(s: State, e: Event) {
    e.EvImage? && e.link && s.imageAbility && e.gotMsg && e.posted
  }

  /** Exactly which calls put a record or a picture into the logs, and that it is the one
      handed over. */
  lemma LogsExactly(s: State, e: Event)
    requires Enabled(s, e)
    ensures Next(s, e).sampleLog == if Takes(s, e) then s.sampleLog + [e.info] else s.sampleLog
    ensures Next(s, e).imageLog == if Stages(s, e) then s.imageLog + [e.image] else s.imageLog
  {}

  lemma {:induction false} LogsGrow(s: State, es: seq<Event>, t: State)
    requires Run(s, es, t)
    ensures s.sampleLog <= t.sampleLog && s.imageLog <= t.imageLog
    decreases |es|
  {
    if es != [] {
      LogsExactly(s, es[0]);
      LogsGrow(Next(s, es[0]), es[1..], t);
    }
  }

  /** Main result: whenever the wire carries a picture, it is the one handed over by the
      call it belongs to. */
  lemma PictureArrives(s: State, e: Event, es: seq<Event>, t: State, i: nat)
    requires Inv(s) && Enabled(s, e) && Stages(s, e) && Run(Next(s, e), es, t)
    requires i < |t.sentImages| && t.sentImages[i].0 == |s.imageLog|
    ensures t.sentImages[i].1 == e.image
  {
    StepInv(s, e);
    RunInv(Next(s, e), es, t);
    LogsExactly(s, e);
    LogsGrow(Next(s, e), es, t);
  }

  /** The consumer has a picture in its hands. */
  predicate HasPicture(s: State) {
    |s.held| == 1 && s.held[0].Image?
  }

  function PicturesInFlight(s: State): nat {
    |Pictures(s.held)| + |Pictures(s.mbx)|
  }

  lemma PicturesStep(s: State, e: Event)
    requires Inv(s) && Enabled(s, e) && Posted(e)
    ensures PicturesInFlight(Next(s, e)) == PicturesInFlight(s) + One(Stages(s, e)) - One(e.EvFinish? && HasPicture(s))
  {
    match e {
      case EvSample(info, _, _, _) => InsertPictures(s.mbx, Sample(s.index, |s.sampleLog|));
      case EvImage(_, _, _, _) => InsertPictures(s.mbx, Image(|s.imageLog|));
      case EvControl(prio) => InsertPictures(s.mbx, Control(prio));
      case EvPend => Single(s.mbx[0]);
      case EvFinish(_) =>
        assert s.held == [s.held[0]];
        Single(s.held[0]);
    }
  }

  /** Pictures staged, but neither in flight nor sent. */
  function MissingPictures(s: State): int {
    |s.imageLog| - PicturesInFlight(s) - |s.sentImages|
  }

  lemma SentExactly(s: State, e: Event)
    requires Enabled(s, e)
    ensures |Next(s, e).sentImages| == |s.sentImages| + One(e.EvFinish? && HasPicture(s) && e.link)
  {}

  /** A picture goes missing exactly at the step that finishes it while the link is down. */
  lemma PictureMissingExactly(s: State, e: Event)
    requires Inv(s) && Enabled(s, e) && Posted(e)
    ensures MissingPictures(Next(s, e)) == MissingPictures(s) + One(e.EvFinish? && HasPicture(s) && !e.link)
  {
    PicturesStep(s, e);
    SentExactly(s, e);
    LogsExactly(s, e);
  }

  /** Pictures leave in the order of the calls, each at most once. */
  ghost predicate PicturesOrdered(s: State) {
    && (forall i, j :: 0 <= i < j < |s.sentImages| ==> s.sentImages[i].0 < s.sentImages[j].0)
    && (forall i :: 0 <= i < |s.sentImages| ==> s.sentImages[i].0 < |s.imageLog| - PicturesInFlight(s))
  }

  ghost predicate PicturesComplete(s: State) {
    MissingPictures(s) == 0 && forall i :: 0 <= i < |s.sentImages| ==> s.sentImages[i].0 == i
  }

  lemma OthersSendNothing(s: State, e: Event)
    requires Enabled(s, e) && !(e.EvFinish? && HasPicture(s))
    ensures Next(s, e).sentImages == s.sentImages
  {}

  lemma OnePicture(s: State)
    requires StagingOk(s) && HasPicture(s)
    ensures PicturesInFlight(s) == 1 && Pictures(s.mbx) == []
    ensures |s.imageLog| > 0 && s.held[0] == Image(|s.imageLog| - 1)
  {
    HeldImage(s);
    assert s.held == [s.held[0]];
    Single(s.held[0]);
  }

  lemma PictureLeaves(s: State, link: bool)
    requires StagingOk(s) && HasPicture(s)
    ensures PicturesInFlight(s) == 1 && |s.imageLog| > 0 && CanFinish(s)
    ensures var s' := Finish(s, link);
            && PicturesInFlight(s') == 0 && s'.imageLog == s.imageLog
            && s'.sentImages == if link then s.sentImages + [(|s.imageLog| - 1, s.staging)] else s.sentImages
  {
    OnePicture(s);
    var s' := Finish(s, link);
    assert s'.held == [] && s'.mbx == s.mbx;
  }

  lemma OrderedMore(s: State, s': State, x: nat)
    requires PicturesOrdered(s) && PicturesInFlight(s) == 1 && PicturesInFlight(s') == 0 && s'.imageLog == s.imageLog
    requires |s.imageLog| > 0
    requires s'.sentImages == s.sentImages + [(|s.imageLog| - 1, x)] || s'.sentImages == s.sentImages
    ensures PicturesOrdered(s')
  {}

  lemma PictureOrderStep(s: State, e: Event)
    requires Inv(s) && PicturesOrdered(s) && Enabled(s, e) && Posted(e)
    ensures PicturesOrdered(Next(s, e))
  {
    if e.EvFinish? && HasPicture(s) {
      PictureLeaves(s, e.link);
      OrderedMore(s, Next(s, e), s.staging);
    } else {
      OthersSendNothing(s, e);
      PicturesStep(s, e);
      LogsExactly(s, e);
    }
  }

  lemma PictureTurnStep(s: State, e: Event)
    requires Inv(s) && PicturesComplete(s) && Enabled(s, e) && Posted(e) && (e.EvFinish? ==> e.link)
    ensures PicturesComplete(Next(s, e))
  {
    PictureMissingExactly(s, e);
    if e.EvFinish? && HasPicture(s) { PictureLeaves(s, e.link); } else { OthersSendNothing(s, e); }
  }

  lemma {:induction false} PictureOrderRun(s: State, es: seq<Event>, t: State)
    requires Inv(s) && PicturesOrdered(s) && Run(s, es, t)
    ensures Inv(t) && PicturesOrdered(t)
    ensures PicturesComplete(s) && Linked(es) ==> PicturesComplete(t)
    decreases |es|
  {
    if es != [] {
      StepInv(s, es[0]);
      PictureOrderStep(s, es[0]);
      if PicturesComplete(s) && Linked(es) { PictureTurnStep(s, es[0]); }
      if Linked(es) { assert forall i :: 0 <= i < |es[1..]| ==> es[1..][i] == es[i + 1]; }
      PictureOrderRun(Next(s, es[0]), es[1..], t);
    }
  }

  lemma InitPictures()
    ensures Inv(INIT) && PicturesOrdered(INIT) && PicturesComplete(INIT)
  {
    InitInv();
  }

  /** Main result: pictures go out in the order of the calls, each at most once; and while
      the link is up whenever the consumer writes, every picture staged has gone out, or
      is the one in flight. */
  lemma NoPictureMissing(es: seq<Event>, s: State)
    requires Run(INIT, es, s)
    ensures forall i, j :: 0 <= i < j < |s.sentImages| ==> s.sentImages[i].0 < s.sentImages[j].0
    ensures Linked(es) ==> |s.sentImages| + PicturesInFlight(s) == |s.imageLog|
    ensures Linked(es) ==> forall i :: 0 <= i < |s.sentImages| ==> s.sentImages[i].0 == i
  {
    InitPictures();
    PictureOrderRun(INIT, es, s);
  }

  /** What the posts add to the mailbox: the message of the call, with its priority. */
  lemma PostsExactly(s: State, e: Event)
    requires Enabled(s, e) && !e.EvPend? && !e.EvFinish?
    ensures var more := if Takes(s, e) && e.posted then multiset{Sample(s.index, |s.sampleLog|)}
                        else if Stages(s, e) then multiset{Image(|s.imageLog|)}
                        else if e.EvControl? then multiset{Control(e.prio)} else multiset{};
            multiset(Next(s, e).mbx) == multiset(s.mbx) + more
  {
    if Takes(s, e) { PriorityQueue.InsertHas(Prio, s.mbx, Sample(s.index, |s.sampleLog|)); }
    if Stages(s, e) { PriorityQueue.InsertHas(Prio, s.mbx, Image(|s.imageLog|)); }
    if e.EvControl? { PriorityQueue.InsertHas(Prio, s.mbx, Control(e.prio)); }
  }

  /** Records overtake pictures, whichever was posted first. */
  lemma RecordsFirst(s: State, i: nat, j: nat)
    requires Inv(s) && i < |s.mbx| && j < |s.mbx| && s.mbx[i].Sample? && s.mbx[j].Image?
    ensures i < j
  {}

  // ---------------------------------------------------------------- lost credits

  /** A credit is lost exactly when a call takes one and then finds no message. */
  lemma LostExactly(s: State, e: Event)
    requires Enabled(s, e)
    ensures Next(s, e).lost == s.lost + One(e.EvSample? && e.link && s.sampleAbility && !e.gotMsg)
  {}

  /** Such a credit never comes back: after 32 of them no record is ever uploaded again. */
  lemma {:induction false} LostCreditsStarve(s: State, es: seq<Event>, t: State)
    requires Inv(s) && s.lost == SAMPLE_INFO_ARRAY_MAX && Run(s, es, t)
    ensures t.lost == SAMPLE_INFO_ARRAY_MAX && !t.sampleAbility && InFlight(t) == []
    ensures t.sampleLog == s.sampleLog && t.sentSamples == s.sentSamples
    decreases |es|
  {
    if es != [] {
      var s1 := Next(s, es[0]);
      StepInv(s, es[0]);
      if es[0].EvFinish? {
        FinishKeeps(s, es[0].link);
      }
      LostCreditsStarve(s1, es[1..], t);
    }
  }

  lemma {:induction false} RunCons(s: State, e: Event, es: seq<Event>, t: State)
    requires Enabled(s, e) && Posted(e) && Run(Next(s, e), es, t)
    ensures Run(s, [e] + es, t)
  {
    assert ([e] + es)[1..] == es;
  }

  /** The consumer alone empties the mailbox. */
  lemma {:induction false} Drained(s: State) returns (es: seq<Event>, t: State)
    requires Inv(s)
    ensures Run(s, es, t) && Inv(t) && t.held == [] && t.mbx == [] && t.lost == s.lost
    decreases 2 * |s.mbx| + |s.held|
  {
    if s.held == [] && s.mbx == [] {
      es, t := [], s;
    } else {
      var e := if s.held == [] then EvPend else EvFinish(true);
      if s.held != [] { FinishKeeps(s, true); }
      StepInv(s, e);
      LostExactly(s, e);
      var rest;
      rest, t := Drained(Next(s, e));
      RunCons(s, e, rest, t);
      es := [e] + rest;
    }
  }

  /** There is a continuation after which records are accepted. */
  ghost predicate Recovers(s: State) {
    exists es: seq<Event>, t: State :: Run(s, es, t) && t.sampleAbility
  }

  lemma StarvedForGood(s: State)
    requires Inv(s) && s.lost == SAMPLE_INFO_ARRAY_MAX
    ensures !Recovers(s)
  {
    if Recovers(s) {
      var es: seq<Event>, t: State :| Run(s, es, t) && t.sampleAbility;
      LostCreditsStarve(s, es, t);
      assert false;
    }
  }

  /** Main result: as long as fewer than 32 credits are lost, and no longer, there is a
      continuation after which records are accepted again. */
  lemma StarvedExactly(s: State)
    requires Inv(s)
    ensures Recovers(s) <==> s.lost < SAMPLE_INFO_ARRAY_MAX
    ensures InFlight(s) == [] ==> (s.sampleAbility <==> s.lost < SAMPLE_INFO_ARRAY_MAX)
  {
    if s.lost < SAMPLE_INFO_ARRAY_MAX {
      var es, t := Drained(s);
      assert t.sampleAbility;
    } else {
      StarvedForGood(s);
    }
  }

  /** n calls with a record, over a link that is up, that find no message. */
  function Losses(info: SampleInfo, n: nat): (es: seq<Event>)
    ensures |es| == n
  {
    if n == 0 then [] else [EvSample(info, true, false, true)] + Losses(info, n - 1)
  }

  lemma {:induction false} LosingCredits(s: State, info: SampleInfo, n: nat) returns (t: State)
    requires Inv(s) && s.held == [] && s.mbx == [] && s.lost + n <= SAMPLE_INFO_ARRAY_MAX
    ensures Run(s, Losses(info, n), t) && Inv(t) && t.lost == s.lost + n
    decreases n
  {
    if n == 0 {
      t := s;
    } else {
      var e := EvSample(info, true, false, true);
      StepInv(s, e);
      t := LosingCredits(Next(s, e), info, n - 1);
      RunCons(s, e, Losses(info, n - 1), t);
    }
  }

  /** From the start, 32 such calls in a row stop all uploads of records. */
  lemma ThirtyTwoLossesStarve(info: SampleInfo) returns (t: State)
    ensures Run(INIT, Losses(info, SAMPLE_INFO_ARRAY_MAX), t)
    ensures t.lost == SAMPLE_INFO_ARRAY_MAX
    ensures !Recovers(t)
  {
    InitInv();
    t := LosingCredits(INIT, info, SAMPLE_INFO_ARRAY_MAX);
    StarvedForGood(t);
  }

  // ---------------------------------------------------------------- if posts could fail

  /** Message m is the upload of an earlier call, in the ring slot of that call. */
  predicate IsRecord(s: State, m: Message) {
    m.Sample? && m.serial < |s.sampleLog| && m.slot == m.serial % SAMPLE_INFO_ARRAY_MAX
  }

  /** What holds even if posts fail: each slot has what the latest call that was given
      that slot handed over. */
  ghost predicate RingTracks(s: State) {
    && |s.ring| == SAMPLE_INFO_ARRAY_MAX && s.index == |s.sampleLog| % SAMPLE_INFO_ARRAY_MAX
    && forall j :: 0 <= j < |s.sampleLog| && |s.sampleLog| - SAMPLE_INFO_ARRAY_MAX <= j ==>
         s.ring[j % SAMPLE_INFO_ARRAY_MAX] == s.sampleLog[j]
  }

  ghost predicate AllRecords(s: State, q: seq<Message>) {
    forall k :: 0 <= k < |q| ==> IsRecord(s, q[k])
  }

  ghost predicate Tracked(s: State) {
    |s.held| <= 1 && Sorted(s.mbx) && RingTracks(s) && AllRecords(s, InFlight(s))
  }

  lemma RingStep(s: State, s': State, info: SampleInfo)
    requires RingTracks(s) && s'.sampleLog == s.sampleLog + [info] && s'.ring == s.ring[s.index := info]
    requires s'.index == NextSlot(s.index)
    ensures RingTracks(s')
  {
    var n := |s.sampleLog|;
    NextSlotIsModulo(n);
    forall j | 0 <= j < n + 1 && n + 1 - SAMPLE_INFO_ARRAY_MAX <= j
      ensures s'.ring[j % SAMPLE_INFO_ARRAY_MAX] == s'.sampleLog[j]
    {
      if j < n { OtherSlot(j, n); }
    }
  }

  lemma SampleTracked(s: State, info: SampleInfo, link: bool, gotMsg: bool, posted: bool)
    requires Tracked(s)
    ensures Tracked(SendSample(s, info, link, gotMsg, posted))
  {
    var s' := SendSample(s, info, link, gotMsg, posted);
    if link && s.sampleAbility && gotMsg {
      var m := Sample(s.index, |s.sampleLog|);
      RingStep(s, s', info);
      if posted {
        InsertSorted(s.mbx, m);
        InsertSamples(s.mbx, m);
        assert InFlight(s') == InFlight(s) + [m];
      }
    }
  }

  /** Nothing but the oldest records leaves. */
  lemma FewerTracked(s: State, s': State, d: nat)
    requires Tracked(s) && |s'.held| <= 1 && Sorted(s'.mbx)
    requires s'.ring == s.ring && s'.index == s.index && s'.sampleLog == s.sampleLog
    requires d <= |InFlight(s)| && InFlight(s') == InFlight(s)[d..]
    ensures Tracked(s')
  {
    forall k | 0 <= k < |InFlight(s')| ensures IsRecord(s', InFlight(s')[k]) {
      assert IsRecord(s, InFlight(s)[d + k]);
    }
  }

  lemma ImageTracked(s: State, image: nat, link: bool, gotMsg: bool, posted: bool)
    requires Tracked(s)
    ensures Tracked(SendImage(s, image, link, gotMsg, posted))
  {
    var m := Image(|s.imageLog|);
    InsertSorted(s.mbx, m);
    InsertSamples(s.mbx, m);
    FewerTracked(s, SendImage(s, image, link, gotMsg, posted), 0);
  }

  lemma ControlTracked(s: State, prio: nat)
    requires Tracked(s)
    ensures Tracked(SendControl(s, prio))
  {
    InsertSorted(s.mbx, Control(prio));
    InsertSamples(s.mbx, Control(prio));
    FewerTracked(s, SendControl(s, prio), 0);
  }

  lemma PendTracked(s: State)
    requires Tracked(s) && CanPend(s)
    ensures Tracked(Pend(s))
  {
    Single(s.mbx[0]);
    assert InFlight(Pend(s)) == InFlight(s);
    FewerTracked(s, Pend(s), 0);
  }

  lemma FinishTracked(s: State, link: bool)
    requires Tracked(s) && CanFinish(s)
    ensures Tracked(Finish(s, link))
  {
    assert s.held == [s.held[0]];
    Single(s.held[0]);
    FewerTracked(s, Finish(s, link), if s.held[0].Sample? then 1 else 0);
  }

  /** The events es, each enabled in its turn; posts may fail. */
  ghost predicate AnyRun(s: State, es: seq<Event>, t: State)
    decreases |es|
  {
    if es == [] then s == t else Enabled(s, es[0]) && AnyRun(Next(s, es[0]), es[1..], t)
  }

  lemma {:induction false} TrackedRun(s: State, es: seq<Event>, t: State)
    requires Tracked(s) && AnyRun(s, es, t)
    ensures Tracked(t)
    decreases |es|
  {
    if es != [] {
      match es[0] {
        case EvSample(info, link, gotMsg, posted) => SampleTracked(s, info, link, gotMsg, posted);
        case EvImage(image, link, gotMsg, posted) => ImageTracked(s, image, link, gotMsg, posted);
        case EvControl(prio) => ControlTracked(s, prio);
        case EvPend => PendTracked(s);
        case EvFinish(link) => FinishTracked(s, link);
      }
      TrackedRun(Next(s, es[0]), es[1..], t);
    }
  }

  /** The latest of n calls that was given the slot of call `serial`. */
  function Latest(serial: nat, n: nat): (j: nat)
    requires serial < n
    ensures serial <= j < n && n - SAMPLE_INFO_ARRAY_MAX <= j
    ensures j % SAMPLE_INFO_ARRAY_MAX == serial % SAMPLE_INFO_ARRAY_MAX
    ensures j == serial <==> n <= serial + SAMPLE_INFO_ARRAY_MAX
    decreases n - serial
  {
    if n <= serial + SAMPLE_INFO_ARRAY_MAX then serial else Latest(serial + SAMPLE_INFO_ARRAY_MAX, n)
  }

  /** Main result: whether posts fail or not, a record in flight points at what the latest
      call with its slot handed over, which is its own exactly until 32 further calls
      have been given a slot. */
  lemma InFlightPointsAtLatest(es: seq<Event>, s: State, k: nat)
    requires AnyRun(INIT, es, s) && k < |InFlight(s)|
    ensures var m := InFlight(s)[k];
            && IsRecord(s, m) && m.slot < |s.ring|
            && s.ring[m.slot] == s.sampleLog[Latest(m.serial, |s.sampleLog|)]
            && (Latest(m.serial, |s.sampleLog|) == m.serial <==> |s.sampleLog| <= m.serial + SAMPLE_INFO_ARRAY_MAX)
  {
    TrackedRun(INIT, es, s);
    assert IsRecord(s, InFlight(s)[k]);
  }

  /** A call whose post fails, or that finds no message, leaves the staging buffer free for
      the next picture. */
  lemma FailedPictureFrees(s: State, image: nat, gotMsg: bool)
    requires s.imageAbility
    ensures var s' := SendImage(s, image, true, gotMsg, false);
            s'.imageAbility && s'.imageLog == s.imageLog && s'.mbx == s.mbx
    ensures forall next: nat :: SendImage(SendImage(s, image, true, gotMsg, false), next, true, true, true).imageLog
                                == s.imageLog + [next]
  {}

  /** n calls in a row whose mailbox_timedpost fails. */
  function FailedPosts(s: State, info: SampleInfo, n: nat): State
    requires |s.ring| == SAMPLE_INFO_ARRAY_MAX && s.index < SAMPLE_INFO_ARRAY_MAX
    ensures |FailedPosts(s, info, n).ring| == SAMPLE_INFO_ARRAY_MAX
    ensures FailedPosts(s, info, n).index < SAMPLE_INFO_ARRAY_MAX
  {
    if n == 0 then s else SendSample(FailedPosts(s, info, n - 1), info, true, true, false)
  }

  lemma FailedPost(s: State, info: SampleInfo)
    requires |s.ring| == SAMPLE_INFO_ARRAY_MAX && s.index < SAMPLE_INFO_ARRAY_MAX
    requires s.sampleAbility && s.inProcess < SAMPLE_INFO_ARRAY_MAX - 1
    ensures SendSample(s, info, true, true, false) ==
            s.(ring := s.ring[s.index := info], sampleLog := s.sampleLog + [info],
               index := NextSlot(s.index))
  {}

  lemma {:induction false} FailuresWrap(s: State, info: SampleInfo, n: nat)
    requires |s.ring| == SAMPLE_INFO_ARRAY_MAX && s.index == 1 && s.inProcess == 1 && s.sampleAbility
    ensures var t := FailedPosts(s, info, n);
            && t.held == s.held && t.mbx == s.mbx
            && t.ring[0] == (if n < SAMPLE_INFO_ARRAY_MAX then s.ring[0] else info)
            && t.index == (n + 1) % SAMPLE_INFO_ARRAY_MAX && t.inProcess == 1 && t.sampleAbility
  {
    if n > 0 {
      FailuresWrap(s, info, n - 1);
      var t := FailedPosts(s, info, n - 1);
      FailedPost(t, info);
      NextSlotIsModulo(n);
    }
  }

  /** Why the mailbox must never be full: a failed post gives its credit back but not
      its ring slot, so a record in flight is overwritten as soon as, and only if, 32
      posts fail behind it. */
  lemma FailedPostsOverwrite(first: SampleInfo, info: SampleInfo, n: nat)
    requires first != info
    ensures var s := FailedPosts(SendSample(INIT, first, true, true, true), info, n);
            && InFlight(s) == [Sample(0, 0)]
            && (s.ring[0] == first <==> n < SAMPLE_INFO_ARRAY_MAX)
  {
    FailuresWrap(SendSample(INIT, first, true, true, true), info, n);
    Single(Sample(0, 0));
  }
}
