/** From a sample record in a group to the wire: what the UI, DSP and upload sides of the
    pipeline do with a group that is recycled at once. */
module PipelineUploads {
  import opened GroupStore
  import opened Pipeline
  import opened PipelineInv
  import opened PipelineResults
  import D = DspProtocol
  import U = Upload

  /** The three callers of send_sample_info. */
  predicate SendsRecord(e: Event) {
    e.CapSend? || e.OverSend? || e.WorkReport?
  }

  lemma SendingStep(s: State, e: Event)
    requires Enabled(s, e) && SendsRecord(e)
    ensures 0 <= Victim(s, e) < GROUPS && Sized(s.store) && s.net.index < |s.net.ring|
    ensures Next(s, e).net == U.SendSample(s.net, s.store.group[Victim(s, e)].info, e.link, e.gotMsg, true)
  {}

  lemma QuietForUploads(s: State, e: Event)
    requires Enabled(s, e) && !SendsRecord(e) && !e.SendHand? && !e.NetStep? && Victim(s, e) == -1
    ensures Next(s, e).net == s.net
  {}

  lemma ReleasesOnly(s: State, e: Event)
    requires Enabled(s, e) && !SendsRecord(e) && !e.SendHand? && !e.NetStep? && Victim(s, e) != -1
    ensures Next(s, e).net == s.net
  {}

  lemma PictureStep(s: State, e: Event)
    requires Enabled(s, e) && e.SendHand?
    ensures Next(s, e).net == U.SendImage(s.net, e.picture, e.link, e.gotMsg, true)
  {}

  /** The logs of handed-over records and pictures only grow. */
  lemma LogGrows(s: State, e: Event)
    requires Enabled(s, e)
    ensures s.net.sampleLog <= Next(s, e).net.sampleLog && s.net.imageLog <= Next(s, e).net.imageLog
  {
    if SendsRecord(e) { SendingStep(s, e); }
    else if e.SendHand? { PictureStep(s, e); }
    else if !e.SendHand? && !e.NetStep? {
      if Victim(s, e) == -1 { QuietForUploads(s, e); } else { ReleasesOnly(s, e); }
    }
  }

  lemma {:induction false} LogGrowsOverRuns(s: State, es: seq<Event>, t: State)
    requires Inv(s) && Run(s, es, t)
    ensures Inv(t) && s.net.sampleLog <= t.net.sampleLog && s.net.imageLog <= t.net.imageLog
    decreases |es|
  {
    if es != [] {
      StepInv(s, es[0]);
      LogGrows(s, es[0]);
      LogGrowsOverRuns(Next(s, es[0]), es[1..], t);
    }
  }

  /** Main result: whenever the wire carries the record of a call of send_sample_info, it
      carries what the group held at that call, whatever happened to the group since: it
      may be recycled, refilled and sent again. */
  lemma RecordsArriveUnchanged(s: State, e: Event, es: seq<Event>, t: State, i: nat)
    requires Inv(s) && Enabled(s, e) && SendsRecord(e) && Run(Next(s, e), es, t)
    requires i < |t.net.sentSamples| && t.net.sentSamples[i].0 == |s.net.sampleLog|
    requires |Next(s, e).net.sampleLog| > |s.net.sampleLog|
    ensures 0 <= Victim(s, e) < GROUPS && Sized(s.store)
    ensures t.net.sentSamples[i].1 == s.store.group[Victim(s, e)].info
  {
    StepInv(s, e);
    SendingStep(s, e);
    LogGrowsOverRuns(Next(s, e), es, t);
  }

  /** Main result: and whenever the wire carries the picture of a call of send_image_info,
      it is the one handed over at that call. */
  lemma PicturesArriveUnchanged(s: State, e: Event, es: seq<Event>, t: State, i: nat)
    requires Inv(s) && Enabled(s, e) && e.SendHand? && Run(Next(s, e), es, t)
    requires i < |t.net.sentImages| && t.net.sentImages[i].0 == |s.net.imageLog|
    requires |Next(s, e).net.imageLog| > |s.net.imageLog|
    ensures t.net.sentImages[i].1 == e.picture && e.link && e.gotMsg && s.net.imageAbility
  {
    StepInv(s, e);
    PictureStep(s, e);
    LogGrowsOverRuns(Next(s, e), es, t);
  }

  lemma WaitingIsOwed(d: D.State, g: nat)
    requires D.Sized(d)
    ensures D.Count(D.Waiting(d), g) <= D.Owed(d, g)
  {
    var held := if d.proc.PHave? || d.proc.PGot? then [d.proc.g] else [];
    if held != [] {
      assert (held + d.mbx)[1..] == d.mbx;
    } else {
      assert held + d.mbx == d.mbx;
    }
  }

  lemma WaitsOnce(s: State, g: nat)
    requires Inv(s)
    ensures D.Count(D.Waiting(s.dsp), g) <= 1
  {
    WaitingIsOwed(s.dsp, g);
    assert GroupOwed(s, g);
  }

  /** In every reachable state the back-pressure counter is the number of accepted groups
      no DSP has got yet, never more than 3, and groups reach the DSPs in the order they
      were accepted, each once. */
  lemma BackPressure(s: State)
    requires Reachable(s)
    ensures s.dsp.notProcess == |D.Waiting(s.dsp)| <= 3
    ensures s.dsp.accepted == s.dsp.dispatched + D.Waiting(s.dsp)
    ensures forall g: nat :: D.Count(D.Waiting(s.dsp), g) <= 1
  {
    ReachableInv(s);
    forall g: nat ensures D.Count(D.Waiting(s.dsp), g) <= 1 {
      WaitsOnce(s, g);
    }
  }
}
