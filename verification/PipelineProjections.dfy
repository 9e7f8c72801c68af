/** The pipeline contains the three smaller systems: every run of it is, for the numbering,
    the DSP side and the uploads, a run of SampleCount, DspProtocol and Upload. So what is
    proved of their runs holds in the pipeline. */
module PipelineProjections {
  import opened GroupStore
  import opened Pipeline
  import opened PipelineResults
  import opened PipelineUploads
  import opened PipelineRecords
  import D = DspProtocol
  import U = Upload
  import N = SampleCount

  // ---------------------------------------------------------------- numbering

  /** The overclock interrupt records, the capture task numbers, and the reset resets. */
  function NumEvents(e: Event): seq<N.Event> {
    match e
    case OverTake(reading) => [N.EvOverclock(reading)]
    case CapNumber(reading, _) => [N.EvCapture(reading)]
    case CounterReset => [N.EvReset]
    case _ => []
  }

  function AllNumEvents(es: seq<Event>): seq<N.Event> {
    if es == [] then [] else NumEvents(es[0]) + AllNumEvents(es[1..])
  }

  function Numbering(h: N.History, es: seq<N.Event>): N.History
    requires N.Sized(h)
    decreases |es|
  {
    if es == [] then h else Numbering(N.Step(h, es[0]), es[1..])
  }

  lemma NumStepVictim(s: State, e: Event)
    requires Enabled(s, e) && Victim(s, e) != -1
    ensures Next(s, e).num == s.num && NumEvents(e) == []
  {}

  lemma NumStepOthers(s: State, e: Event)
    requires Enabled(s, e) && Victim(s, e) == -1
    requires !e.OverTake? && !e.CapNumber? && !e.CounterReset?
    ensures Next(s, e).num == s.num
  {}

  lemma NumStep(s: State, e: Event)
    requires N.Sized(s.num) && Enabled(s, e)
    ensures Next(s, e).num == Numbering(s.num, NumEvents(e))
  {
    if Victim(s, e) != -1 { NumStepVictim(s, e); }
    else if !e.OverTake? && !e.CapNumber? && !e.CounterReset? { NumStepOthers(s, e); }
    else { assert NumEvents(e)[1..] == []; }
  }

  lemma {:induction false} NumberingJoins(h: N.History, es: seq<N.Event>, fs: seq<N.Event>)
    requires N.Sized(h)
    ensures N.Sized(Numbering(h, es)) && Numbering(h, es + fs) == Numbering(Numbering(h, es), fs)
    decreases |es|
  {
    if es == [] {
      assert es + fs == fs;
    } else {
      NumberingJoins(N.Step(h, es[0]), es[1..], fs);
      assert (es + fs)[1..] == es[1..] + fs;
    }
  }

  /** Main result: the counters and the ring of the pipeline are those of the interrupts,
      images and resets of the run, in their order. */
  lemma {:induction false} RunNumbers(s: State, es: seq<Event>, t: State)
    requires N.Sized(s.num) && Run(s, es, t)
    ensures N.Sized(t.num) && t.num == Numbering(s.num, AllNumEvents(es))
    decreases |es|
  {
    if es != [] {
      NumStep(s, es[0]);
      NumberingJoins(s.num, NumEvents(es[0]), AllNumEvents(es[1..]));
      RunNumbers(Next(s, es[0]), es[1..], t);
    }
  }

  // ---------------------------------------------------------------- uploads

  function NetEvents(s: State, e: Event): seq<U.Event>
    requires Enabled(s, e)
  {
    if SendsRecord(e) then
      SendingStep(s, e);
      [U.EvSample(s.store.group[Victim(s, e)].info, e.link, e.gotMsg, true)]
    else if e.SendHand? then [U.EvImage(e.picture, e.link, e.gotMsg, true)]
    else if e.NetStep? then [e.netEvent]
    else []
  }

  function AllNetEvents(s: State, es: seq<Event>): seq<U.Event>
    decreases |es|
  {
    if es == [] || !Enabled(s, es[0]) then [] else NetEvents(s, es[0]) + AllNetEvents(Next(s, es[0]), es[1..])
  }

  lemma NetStepIs(s: State, e: Event)
    requires Enabled(s, e) && e.NetStep?
    ensures U.Enabled(s.net, e.netEvent) && U.Posted(e.netEvent) && Next(s, e).net == U.Next(s.net, e.netEvent)
  {}

  lemma NetMoves(s: State, e: Event)
    requires Enabled(s, e)
    ensures U.Run(s.net, NetEvents(s, e), Next(s, e).net)
  {
    if SendsRecord(e) { SendingStep(s, e); }
    else if e.SendHand? { PictureStep(s, e); }
    else if e.NetStep? { NetStepIs(s, e); }
    else if Victim(s, e) == -1 { QuietForUploads(s, e); } else { ReleasesOnly(s, e); }
    OneStep(s.net, NetEvents(s, e), Next(s, e).net);
  }

  lemma OneStep(x: U.State, es: seq<U.Event>, y: U.State)
    requires |es| <= 1
    requires if es == [] then y == x else U.Enabled(x, es[0]) && U.Posted(es[0]) && y == U.Next(x, es[0])
    ensures U.Run(x, es, y)
  {
    if es != [] {
      assert es[1..] == [];
      assert U.Run(y, [], y);
    }
  }

  lemma {:induction false} UploadRunJoins(x: U.State, es: seq<U.Event>, y: U.State, fs: seq<U.Event>, z: U.State)
    requires U.Run(x, es, y) && U.Run(y, fs, z)
    ensures U.Run(x, es + fs, z)
    decreases |es|
  {
    if es == [] {
      assert es + fs == fs;
    } else {
      UploadRunJoins(U.Next(x, es[0]), es[1..], y, fs, z);
      assert (es + fs)[1..] == es[1..] + fs;
    }
  }

  /** Main result: the uploads of the pipeline are a run of Upload, in which every post is
      taken. */
  lemma {:induction false} RunUploads(s: State, es: seq<Event>, t: State)
    requires Run(s, es, t)
    ensures U.Run(s.net, AllNetEvents(s, es), t.net)
    decreases |es|
  {
    if es != [] {
      var s1 := Next(s, es[0]);
      NetMoves(s, es[0]);
      RunUploads(s1, es[1..], t);
      UploadRunJoins(s.net, NetEvents(s, es[0]), s1.net, AllNetEvents(s1, es[1..]), t.net);
    }
  }

  /** For instance: in the pipeline, too, no record and no picture is missing while the
      link is up whenever the consumer writes. */
  lemma NothingMissing(s: State, es: seq<Event>, t: State)
    requires IsInit(s) && Run(s, es, t) && U.Linked(AllNetEvents(s, es))
    ensures |t.net.sentSamples| + |U.InFlight(t.net)| == |t.net.sampleLog|
    ensures |t.net.sentImages| + U.PicturesInFlight(t.net) == |t.net.imageLog|
  {
    RunUploads(s, es, t);
    U.NoneMissing(AllNetEvents(s, es), t.net);
    U.NoPictureMissing(AllNetEvents(s, es), t.net);
  }

  // ---------------------------------------------------------------- the DSP side

  function DspEvents(s: State, e: Event): seq<D.Event> {
    if DspEvent(s, e).1 then [DspEvent(s, e).0] else []
  }

  function AllDspEvents(s: State, es: seq<Event>): seq<D.Event>
    decreases |es|
  {
    if es == [] || !Enabled(s, es[0]) then [] else DspEvents(s, es[0]) + AllDspEvents(Next(s, es[0]), es[1..])
  }

  lemma DspRunCons(x: D.State, e: D.Event, y: D.State, fs: seq<D.Event>, z: D.State)
    requires D.Sized(x) && D.Enabled(x, e) && y == D.Next(x, e) && D.Run(y, fs, z)
    ensures D.Run(x, [e] + fs, z)
  {
    assert ([e] + fs)[1..] == fs;
  }

  lemma DspStays(s: State, e: Event)
    requires Enabled(s, e) && !DspEvent(s, e).1
    ensures Next(s, e).dsp == s.dsp
  {
    if Victim(s, e) != -1 { DspRestsVictim(s, e); } else { DspRestsOthers(s, e); }
  }

  lemma DspSized(x: D.State, e: D.Event)
    requires D.Sized(x) && D.Enabled(x, e)
    ensures D.Sized(D.Next(x, e))
  {}

  lemma DspMovesOn(s: State, e: Event)
    requires D.Sized(s.dsp) && Enabled(s, e)
    ensures D.Sized(Next(s, e).dsp)
    ensures if DspEvents(s, e) == [] then Next(s, e).dsp == s.dsp
            else D.Enabled(s.dsp, DspEvents(s, e)[0]) && Next(s, e).dsp == D.Next(s.dsp, DspEvents(s, e)[0])
  {
    if DspEvent(s, e).1 {
      DspMoves(s, e);
      DspSized(s.dsp, DspEvent(s, e).0);
    } else {
      DspStays(s, e);
    }
  }

  /** Main result: the DSP side of the pipeline is a run of DspProtocol. */
  lemma {:induction false} RunDsps(s: State, es: seq<Event>, t: State)
    requires D.Sized(s.dsp) && Run(s, es, t)
    ensures D.Run(s.dsp, AllDspEvents(s, es), t.dsp)
    decreases |es|
  {
    if es != [] {
      var s1 := Next(s, es[0]);
      var fs := AllDspEvents(s1, es[1..]);
      DspMovesOn(s, es[0]);
      RunDsps(s1, es[1..], t);
      if DspEvents(s, es[0]) == [] {
        assert [] + fs == fs;
      } else {
        DspRunCons(s.dsp, DspEvents(s, es[0])[0], s1.dsp, fs, t.dsp);
      }
    }
  }
}
