/** A session with the detector that the service gives it: what it can hear depends on the settings of both. */
module LiveDetection {
  import opened Wrappers
  import opened Basics
  import opened LiveSession
  import opened LiveGuarantees
  import Vad = VoiceActivity

  /** The ranges of the settings, where they matter beyond what session and detector demand themselves. */
  predicate Configured(c: Config, s: Vad.Settings) {
    && c.Valid() && 1024 <= c.maxChunkBytes && 160_000 <= c.maxSessionSamples
    && s.Valid() && s.minSpeechMs <= 2000 && 0.05 <= s.threshold <= 0.99
  }

  // ---- What the detector can answer ----

  /** The model gives one probability for each window, the last one padded. */
  function Frames(samples: nat): nat {
    (samples + Vad.WINDOW_SAMPLES - 1) / Vad.WINDOW_SAMPLES
  }

  /** What the session makes of the regions. */
  predicate Reported(rs: seq<Vad.Region>, v: Detection) {
    if rs == [] then v.NoRegions? else v.LastRegionEnd? && v.end == rs[|rs| - 1].end
  }

  /** The model finds these probabilities, and they make these regions. */
  ghost predicate Finds(s: Vad.Settings, samples: nat, p: seq<real>, rs: seq<Vad.Region>) {
    |p| == Frames(samples) && Vad.RegionsOfAudio(s, p, samples, rs)
  }

  /** Some probabilities make the detector answer so, or it raises. */
  ghost predicate Answers(s: Vad.Settings, samples: nat, v: Detection) {
    v.DetectorRaises? || exists p, rs :: Finds(s, samples, p, rs) && Reported(rs, v)
  }

  lemma ShortClustersMakeNoRegions(s: Vad.Settings, cs: seq<Vad.Cluster>, p: seq<real>, samples: nat)
    requires s.Valid() && Vad.InFrames(cs, |p|) && samples < s.MinSpeechSamples()
    ensures Vad.RegionsOf(s, cs, p, samples) == []
  {
    assert forall k :: 0 <= k < |cs| ==> !Vad.LongEnough(s, cs[k], samples);
    if Vad.RegionsOf(s, cs, p, samples) != [] {
      Vad.RegionsStem(s, cs, p, samples, 0);
      assert false;
    }
  }

  /** Audio that is shorter than the shortest speech has no regions, whatever the model makes of it. */
  lemma ShortAudioIsSilent(s: Vad.Settings, p: seq<real>, samples: nat, rs: seq<Vad.Region>)
    requires s.Valid() && Vad.RegionsOfAudio(s, p, samples, rs) && samples < s.MinSpeechSamples()
    ensures rs == []
  {
    var cs :| Vad.Clustering(Vad.Voiced(p, s.threshold), |p|, s.MinSilenceFrames(), cs) && Vad.InFrames(cs, |p|)
      && rs == Vad.RegionsOf(s, cs, p, samples);
    ShortClustersMakeNoRegions(s, cs, p, samples);
  }

  lemma AnswersAreTruthful(s: Vad.Settings, samples: nat, v: Detection)
    requires s.Valid() && Answers(s, samples, v) && v.LastRegionEnd?
    ensures 0 < v.end <= samples && s.MinSpeechSamples() <= samples
  {
    var p, rs :| Finds(s, samples, p, rs) && Reported(rs, v);
    Vad.RegionsOfAudioAreOk(s, p, samples, rs);
    if samples < s.MinSpeechSamples() {
      ShortAudioIsSilent(s, p, samples, rs);
    }
  }

  lemma EverythingVoicedIsOneCluster(s: Vad.Settings, p: seq<real>)
    requires s.Valid() && p != [] && forall k :: 0 <= k < |p| ==> p[k] >= s.threshold
    ensures Vad.Clustering(Vad.Voiced(p, s.threshold), |p|, s.MinSilenceFrames(), [Vad.Cluster(0, |p| - 1)])
  {
    var v := Vad.Voiced(p, s.threshold);
    var c := Vad.Cluster(0, |p| - 1);
    forall i, j | 0 <= i && j <= |p| - 1 && Vad.Neighbours(v, i, j) ensures j - i - 1 < s.MinSilenceFrames() {
      assert v[i + 1];
    }
    assert Vad.Stretch(v, s.MinSilenceFrames(), c);
    forall i | 0 <= i < |p| && v[i] ensures Vad.Covered([c], i) {
      assert Vad.Covers([c][0], i);
    }
  }

  lemma NothingVoicedIsNoCluster(s: Vad.Settings, p: seq<real>)
    requires s.Valid() && forall k :: 0 <= k < |p| ==> p[k] < s.threshold
    ensures Vad.Clustering(Vad.Voiced(p, s.threshold), |p|, s.MinSilenceFrames(), [])
  {
  }

  /** When every frame is certain to be speech, all of the audio is one region. */
  lemma LongAudioCanBeHeard(s: Vad.Settings, samples: nat)
    requires s.Valid() && s.threshold <= 1.0 && s.MinSpeechSamples() <= samples
    ensures Answers(s, samples, LastRegionEnd(samples))
  {
    var p := seq(Frames(samples), _ => 1.0);
    var cs := [Vad.Cluster(0, |p| - 1)];
    EverythingVoicedIsOneCluster(s, p);
    var rs := Vad.RegionsOf(s, cs, p, samples);
    assert cs[..0] == [] && Vad.RegionsOf(s, cs[..0], p, samples) == [];
    assert Vad.VoicedEnd(cs[0], samples) == samples && Vad.LongEnough(s, cs[0], samples);
    assert rs == [Vad.RegionOf(s, cs[0], p, samples)] && rs[0].end == samples;
    assert Vad.InFrames(cs, |p|);
    assert Finds(s, samples, p, rs) && Reported(rs, LastRegionEnd(samples));
  }

  lemma AnyAudioCanBeSilent(s: Vad.Settings, samples: nat)
    requires s.Valid() && 0.0 < s.threshold
    ensures Answers(s, samples, NoRegions)
  {
    var p := seq(Frames(samples), _ => 0.0);
    NothingVoicedIsNoCluster(s, p);
    assert Vad.InFrames([], |p|) && Vad.RegionsOf(s, [], p, samples) == [];
    assert Finds(s, samples, p, []) && Reported([], NoRegions);
  }

  // ---- What an idle session can hear ----

  /** The samples that the detector is given with this chunk. */
  function Analysed(c: Config, s: Session, chunk: Pcm): nat
    requires c.Valid()
  {
    |Analysis(c, Hear(c, s, chunk))| / 2
  }

  ghost predicate Detectable(c: Config, s: Vad.Settings, session: Session, i: Input)
    requires c.Valid()
  {
    Detects(c, session, i) ==> Answers(s, Analysed(c, session, i.chunk), i.detection)
  }

  ghost predicate AllDetectable(c: Config, s: Vad.Settings, inputs: seq<Input>)
    requires c.Valid()
  {
    forall n :: 0 <= n < |inputs| ==> Detectable(c, s, Live(c, inputs[..n]).session, inputs[n])
  }

  /** The service's detector reports regions within the audio only, so SpeechIsFedInOrder holds of it. */
  lemma DetectableIsTruthful(c: Config, s: Vad.Settings, inputs: seq<Input>)
    requires c.Valid() && s.Valid() && AllDetectable(c, s, inputs)
    ensures AllTruthful(c, inputs)
  {
    forall n | 0 <= n < |inputs| ensures Truthful(c, Live(c, inputs[..n]).session, inputs[n]) {
      var session := Live(c, inputs[..n]).session;
      assert Detectable(c, s, session, inputs[n]);
      if Detects(c, session, inputs[n]) && inputs[n].detection.LastRegionEnd? {
        AnswersAreTruthful(s, Analysed(c, session, inputs[n].chunk), inputs[n].detection);
      }
    }
  }

  /** An idle session shows the detector its pre-roll, or as much of it as the analysis window allows. */
  lemma IdleSessionsShowTheirPreRoll(c: Config, session: Session, chunk: Pcm)
    requires c.Valid() && !session.active
    ensures |Hear(c, session, chunk).preRoll| <= 2 * c.preRollSamples
    ensures Analysed(c, session, chunk) == Min(|Hear(c, session, chunk).preRoll| / 2, c.analysisSamples)
  {
  }

  /** Whenever an idle session consults the detector, it can hear speech exactly if it shows it enough audio. */
  lemma IdleSessionsHearExactlyEnough(c: Config, s: Vad.Settings, session: Session, chunk: Pcm, decode: Decode)
    requires c.Valid() && s.Valid() && s.threshold <= 1.0
    requires !session.active && Detects(c, session, Audio(chunk, NoRegions, decode))
    ensures s.MinSpeechSamples() <= Analysed(c, session, chunk) <==>
            exists v: Detection ::
              Answers(s, Analysed(c, session, chunk), v) && Prepared(c, session, Audio(chunk, v, decode)).active
  {
    var n := Analysed(c, session, chunk);
    if s.MinSpeechSamples() <= n {
      LongAudioCanBeHeard(s, n);
      assert Prepared(c, session, Audio(chunk, LastRegionEnd(n), decode)).active;
    }
    if v: Detection :| Answers(s, n, v) && Prepared(c, session, Audio(chunk, v, decode)).active {
      AnswersAreTruthful(s, n, v);
    }
  }

  // ---- Settings that never hear speech ----

  /** The most that an idle session ever shows the detector. */
  function MostShown(c: Config): int {
    Min(c.preRollSamples, c.analysisSamples)
  }

  lemma IdleCallsStayIdle(c: Config, s: Vad.Settings, session: Session, i: Input)
    requires c.Valid() && s.Valid() && MostShown(c) < s.MinSpeechSamples()
    requires !session.active && session.id == 0 && Detectable(c, s, session, i)
    ensures var step := Apply(c, session, i);
            !step.session.active && step.session.id == 0 && (step.reply.Events? ==> step.reply.events == [])
  {
    if Detects(c, session, i) {
      IdleSessionsShowTheirPreRoll(c, session, i.chunk);
      if i.detection.LastRegionEnd? {
        AnswersAreTruthful(s, Analysed(c, session, i.chunk), i.detection);
      }
    }
  }

  /** Then the session stays idle and silent for good. */
  lemma {:induction false} TooLittleIsNeverHeard(c: Config, s: Vad.Settings, inputs: seq<Input>)
    requires c.Valid() && s.Valid() && MostShown(c) < s.MinSpeechSamples() && AllDetectable(c, s, inputs)
    ensures var j := Live(c, inputs); !j.session.active && j.session.id == 0 && j.events == []
  {
    if inputs != [] {
      var before := inputs[..|inputs| - 1];
      assert forall n :: 0 <= n < |before| ==> before[..n] == inputs[..n];
      TooLittleIsNeverHeard(c, s, before);
      IdleCallsStayIdle(c, s, Live(c, before).session, inputs[|inputs| - 1]);
    }
  }

  // ---- Settings that can hear speech ----

  /** One window of audio, in which nothing or something is heard. */
  function Window(v: Detection): Input {
    Audio(seq(2 * VAD_WINDOW_SAMPLES, _ => 0), v, Text(""))
  }

  function Quiet(k: nat): (inputs: seq<Input>)
    ensures |inputs| == k
  {
    seq(k, _ => Window(NoRegions))
  }

  /** After k quiet windows. */
  ghost predicate Waiting(c: Config, session: Session, k: nat) {
    && !session.active && !session.closed && session.id == 0
    && session.total == session.lastVadTotal == k * VAD_WINDOW_SAMPLES
    && |session.preRoll| == 2 * Min(k * VAD_WINDOW_SAMPLES, c.preRollSamples)
  }

  lemma QuietWindowsKeepWaiting(c: Config, session: Session, k: nat)
    requires c.Valid() && 1024 <= c.maxChunkBytes && (k + 1) * VAD_WINDOW_SAMPLES <= c.maxSessionSamples
    requires Waiting(c, session, k)
    ensures Detects(c, session, Window(NoRegions)) && Waiting(c, Apply(c, session, Window(NoRegions)).session, k + 1)
    ensures Analysed(c, session, Window(NoRegions).chunk) == Min((k + 1) * VAD_WINDOW_SAMPLES, MostShown(c))
  {
    assert |Window(NoRegions).chunk| == 1024;
  }

  lemma {:induction false} QuietSessionsWait(c: Config, s: Vad.Settings, k: nat)
    requires Configured(c, s) && k * VAD_WINDOW_SAMPLES <= c.maxSessionSamples
    ensures Waiting(c, Live(c, Quiet(k)).session, k) && AllDetectable(c, s, Quiet(k))
  {
    if k > 0 {
      QuietSessionsWait(c, s, k - 1);
      var session := Live(c, Quiet(k - 1)).session;
      QuietWindowsKeepWaiting(c, session, k - 1);
      assert Quiet(k) == Quiet(k - 1) + [Window(NoRegions)];
      CallsGoOn(c, Quiet(k - 1), Window(NoRegions));
      AnyAudioCanBeSilent(s, Analysed(c, session, Window(NoRegions).chunk));
      AppendingDetectable(c, s, Quiet(k - 1), Window(NoRegions));
    }
  }

  lemma AppendingDetectable(c: Config, s: Vad.Settings, inputs: seq<Input>, i: Input)
    requires c.Valid() && AllDetectable(c, s, inputs) && Detectable(c, s, Live(c, inputs).session, i)
    ensures AllDetectable(c, s, inputs + [i])
  {
    var more := inputs + [i];
    forall n | 0 <= n < |more| ensures Detectable(c, s, Live(c, more[..n]).session, more[n]) {
      if n < |inputs| {
        assert more[..n] == inputs[..n] && more[n] == inputs[n];
      } else {
        assert more[..n] == inputs;
      }
    }
  }

  /** Enough quiet windows to show the detector the shortest speech. */
  function Enough(s: Vad.Settings): nat
    requires s.Valid()
  {
    Frames(s.MinSpeechSamples())
  }

  lemma EnoughIsHeard(c: Config, s: Vad.Settings)
    requires Configured(c, s) && s.MinSpeechSamples() <= MostShown(c)
    ensures exists inputs :: AllDetectable(c, s, inputs) && Live(c, inputs).session.id > 0
  {
    var k: nat := Enough(s) - 1;
    QuietSessionsWait(c, s, k);
    var session := Live(c, Quiet(k)).session;
    QuietWindowsKeepWaiting(c, session, k);
    var n := Analysed(c, session, Window(NoRegions).chunk);
    LongAudioCanBeHeard(s, n);
    var speech := Window(LastRegionEnd(n));
    AppendingDetectable(c, s, Quiet(k), speech);
    CallsGoOn(c, Quiet(k), speech);
    CallsConclude(c, session, speech);
    assert Live(c, Quiet(k) + [speech]).session.id > 0;
  }

  /**
   * With the service's own detector a session can ever hear speech if and only if the shortest speech fits both the
   * pre-roll and the analysis window. The settings do not compare them.
   */
  lemma SessionsHearExactly(c: Config, s: Vad.Settings)
    requires Configured(c, s)
    ensures (exists inputs :: AllDetectable(c, s, inputs) && Live(c, inputs).session.id > 0) <==>
            s.MinSpeechSamples() <= Min(c.preRollSamples, c.analysisSamples)
  {
    if s.MinSpeechSamples() <= MostShown(c) {
      EnoughIsHeard(c, s);
    } else {
      forall inputs | AllDetectable(c, s, inputs) ensures Live(c, inputs).session.id == 0 {
        TooLittleIsNeverHeard(c, s, inputs);
      }
    }
  }

  // ---- Some settings ----

  /** The default settings, but for these. */
  function SessionWith(preRollMs: nat): Config {
    Config(4_800_000, 480_000, 32_000, 11_200, 48_000, 16 * preRollMs, 16_000, 32_000)
  }

  function DetectorWith(minSpeechMs: nat): Vad.Settings {
    Vad.Settings(0.5, minSpeechMs, 160, 160)
  }

  /** The defaults hear speech; a pre-roll of 200 ms does not, nor does a shortest speech of 500 ms. */
  lemma DefaultsHearButNeighboursDoNot()
    ensures Configured(SessionWith(320), DetectorWith(250))
    ensures Configured(SessionWith(200), DetectorWith(250)) && Configured(SessionWith(320), DetectorWith(500))
    ensures exists inputs ::
              && AllDetectable(SessionWith(320), DetectorWith(250), inputs)
              && Live(SessionWith(320), inputs).session.id > 0
    ensures forall inputs ::
              AllDetectable(SessionWith(200), DetectorWith(250), inputs) ==> Live(SessionWith(200), inputs).events == []
    ensures forall inputs ::
              AllDetectable(SessionWith(320), DetectorWith(500), inputs) ==> Live(SessionWith(320), inputs).events == []
  {
    assert DetectorWith(250).MinSpeechSamples() == 4000 && DetectorWith(500).MinSpeechSamples() == 8000;
    EnoughIsHeard(SessionWith(320), DetectorWith(250));
    forall inputs | AllDetectable(SessionWith(200), DetectorWith(250), inputs)
      ensures Live(SessionWith(200), inputs).events == []
    {
      TooLittleIsNeverHeard(SessionWith(200), DetectorWith(250), inputs);
    }
    forall inputs | AllDetectable(SessionWith(320), DetectorWith(500), inputs)
      ensures Live(SessionWith(320), inputs).events == []
    {
      TooLittleIsNeverHeard(SessionWith(320), DetectorWith(500), inputs);
    }
  }
}
