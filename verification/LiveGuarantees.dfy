/** What holds after any sequence of calls on a live session, whatever the detector and the recognizer answer. */
module LiveGuarantees {
  import opened Wrappers
  import opened Basics
  import opened LiveSession

  // ---- A call first takes in audio, then concludes ----

  predicate TakesIn(c: Config, s: Session, i: Input) {
    i.Audio? && Accepts(c, s, i.chunk)
  }

  predicate Detects(c: Config, s: Session, i: Input)
    requires c.Valid()
  {
    TakesIn(c, s, i) && Hear(c, s, i.chunk).total - s.lastVadTotal >= VAD_WINDOW_SAMPLES
  }

  /** The session once the chunk is heard and the detector has answered. */
  function Prepared(c: Config, s: Session, i: Input): Session
    requires c.Valid()
  {
    if !TakesIn(c, s, i) then s
    else
      var heard := Hear(c, s, i.chunk);
      if !Detects(c, s, i) then heard
      else
        var marked := heard.(lastVadTotal := heard.total);
        if !i.detection.LastRegionEnd? then marked
        else
          var detected := Detected(marked, Analysis(c, heard), i.detection.end);
          if s.active then detected else Start(detected)
  }

  /** How the session may look at the end of the call, given what was decoded. */
  ghost predicate Concludes(c: Config, p: Session, t: Session, decoded: Option<Decoding>)
    requires c.Valid()
  {
    && t.total == p.total && t.lastVadTotal == p.lastVadTotal && t.start == p.start && t.id == p.id
    && match decoded
       case None => t == p || t == Emptied(p)
       case Some(Decoding(audio, true)) =>
         && p.active && audio == p.utterance && DraftDue(c, p) && !TooLong(c, p) && !Silent(c, p)
         && t == p.(lastPartial := |audio| / 2, lastText := t.lastText, revision := t.revision)
       case Some(Decoding(audio, false)) =>
         && p.active && audio == p.utterance
         && !t.active && t.utterance == [] && t.lastSpeech.None? && t.lastPartial == 0
         && (t.preRoll == [] || (Silent(c, p) && t.preRoll == LastBytes(audio, 2 * c.preRollSamples)))
  }

  ghost predicate Settled(c: Config, s: Session) {
    s.active ==> !TooLong(c, s) && !Silent(c, s)
  }

  function AnalysedBy(c: Config, s: Session, i: Input): Option<Pcm>
    requires c.Valid()
  {
    if Detects(c, s, i) then Some(Analysis(c, Hear(c, s, i.chunk))) else None
  }

  function StartedBy(c: Config, s: Session, i: Input): seq<LiveEvent>
    requires c.Valid()
  {
    var p := Prepared(c, s, i);
    if !s.active && p.active then [SpeechStarted(p.id, p.start)] else []
  }

  /** Taking in audio and concluding are separate: the second half depends on the first through the session only. */
  lemma IngestContinues(c: Config, s: Session, i: Input)
    requires c.Valid() && TakesIn(c, s, i)
    ensures Apply(c, s, i) ==
            if Detects(c, s, i) && i.detection.DetectorRaises? then
              Step(Prepared(c, s, i), DetectorError, AnalysedBy(c, s, i), None)
            else
              Continue(c, Prepared(c, s, i), StartedBy(c, s, i), AnalysedBy(c, s, i), i.decode)
  {
  }

  lemma ContinueConcludes(c: Config, p: Session, events: seq<LiveEvent>, analysed: Option<Pcm>, d: Decode)
    requires c.Valid()
    ensures var step := Continue(c, p, events, analysed, d);
            && Concludes(c, p, step.session, step.decoded)
            && step.analysed == analysed
            && (step.reply.Events? ==> Settled(c, step.session))
  {
  }

  lemma CallsConclude(c: Config, s: Session, i: Input)
    requires c.Valid()
    ensures Concludes(c, Prepared(c, s, i), Apply(c, s, i).session, Apply(c, s, i).decoded)
    ensures Apply(c, s, i).analysed == AnalysedBy(c, s, i)
    ensures TakesIn(c, s, i) && Apply(c, s, i).reply.Events? ==> Settled(c, Apply(c, s, i).session)
  {
    if TakesIn(c, s, i) {
      IngestContinues(c, s, i);
      ContinueConcludes(c, Prepared(c, s, i), StartedBy(c, s, i), AnalysedBy(c, s, i), i.decode);
    }
  }

  // ---- The journal of a session ----

  /** One finished utterance, and the end of the last speech detected in it. */
  datatype Utterance = Utterance(start: int, end: int, lastSpeech: int)

  /** Everything that went in and came out so far. */
  datatype Journal = Journal(
    session: Session,
    stream: Pcm,
    events: seq<LiveEvent>,
    finished: seq<Utterance>,
    vadCalls: nat,
    drafts: nat,
    fed: int,           // samples of finished utterances
    failed: set<int>,   // utterances in which a decode raised
    stopped: bool)      // a non-recoverable error was raised

  const BLANK := Journal(OPENED, [], [], [], 0, 0, 0, {}, false)

  function Prepare(c: Config, j: Journal, i: Input): Journal
    requires c.Valid()
  {
    j.(session := Prepared(c, j.session, i),
       stream := if TakesIn(c, j.session, i) then j.stream + i.chunk else j.stream,
       vadCalls := if Detects(c, j.session, i) then j.vadCalls + 1 else j.vadCalls)
  }

  function Finished(p: Session): Utterance {
    Utterance(p.start, p.total, if p.lastSpeech.Some? then p.lastSpeech.value else p.start)
  }

  function Conclude(j: Journal, step: Step): Journal {
    var ends := step.decoded.Some? && !step.decoded.value.draft;
    var p := j.session;
    j.(session := step.session,
       events := if step.reply.Events? then j.events + step.reply.events else j.events,
       finished := if ends then j.finished + [Finished(p)] else j.finished,
       drafts := if step.decoded.Some? && step.decoded.value.draft then j.drafts + 1 else j.drafts,
       fed := if ends then j.fed + |p.utterance| / 2 else j.fed,
       failed := if step.decoded.Some? && !step.reply.Events? then j.failed + {p.id} else j.failed,
       stopped := j.stopped || !step.reply.Recoverable())
  }

  function Live(c: Config, inputs: seq<Input>): Journal
    requires c.Valid()
  {
    if inputs == [] then BLANK
    else
      var j := Live(c, inputs[..|inputs| - 1]);
      var i := inputs[|inputs| - 1];
      Conclude(Prepare(c, j, i), Apply(c, j.session, i))
  }

  /** One more call, one more entry in the journal. */
  lemma CallsGoOn(c: Config, inputs: seq<Input>, i: Input)
    requires c.Valid()
    ensures var j := Live(c, inputs);
            var k := Live(c, inputs + [i]);
            && k == Conclude(Prepare(c, j, i), Apply(c, j.session, i))
            && k.stream == (if TakesIn(c, j.session, i) then j.stream + i.chunk else j.stream)
            && k.session.start == Prepare(c, j, i).session.start
  {
    assert (inputs + [i])[..|inputs|] == inputs;
    CallsConclude(c, Live(c, inputs).session, i);
  }

  // ---- The buffers are exact slices of the stream ----

  predicate Suffix(s: Pcm, stream: Pcm) {
    |s| <= |stream| && s == stream[|stream| - |s|..]
  }

  ghost predicate SlicesOk(c: Config, s: Session, stream: Pcm) {
    && |stream| == 2 * s.total && 0 <= s.total <= c.maxSessionSamples
    && |s.utterance| % 2 == 0 && |s.preRoll| % 2 == 0
    && Suffix(if s.active then s.utterance else s.preRoll, stream)
    && (s.active ==> !s.closed && 2 * s.start + |s.utterance| == |stream| && s.lastSpeech.Some?)
  }

  lemma SuffixOfExtension(s: Pcm, stream: Pcm, chunk: Pcm)
    requires Suffix(s, stream)
    ensures Suffix(s + chunk, stream + chunk)
  {
  }

  lemma SuffixOfSuffix(t: Pcm, s: Pcm, stream: Pcm)
    requires Suffix(t, s) && Suffix(s, stream)
    ensures Suffix(t, stream)
  {
  }

  lemma TrimmingKeepsSuffix(s: Pcm, n: nat, stream: Pcm)
    requires Suffix(s, stream)
    ensures Suffix(TrimLeft(s, n), stream) && Suffix(LastBytes(s, n), stream)
    ensures |TrimLeft(s, n)| <= n &&
      (|s| % 2 == 0 && n % 2 == 0 ==> |TrimLeft(s, n)| % 2 == 0 && |LastBytes(s, n)| % 2 == 0)
  {
    SuffixOfSuffix(TrimLeft(s, n), s, stream);
    SuffixOfSuffix(LastBytes(s, n), s, stream);
  }

  lemma HearingKeepsSlices(c: Config, s: Session, stream: Pcm, chunk: Pcm)
    requires c.Valid() && SlicesOk(c, s, stream) && Accepts(c, s, chunk)
    ensures SlicesOk(c, Hear(c, s, chunk), stream + chunk)
    ensures !s.active ==> |Hear(c, s, chunk).preRoll| <= 2 * c.preRollSamples
  {
    if s.active {
      SuffixOfExtension(s.utterance, stream, chunk);
    } else {
      SuffixOfExtension(s.preRoll, stream, chunk);
      TrimmingKeepsSuffix(s.preRoll + chunk, 2 * c.preRollSamples, stream + chunk);
    }
  }

  lemma PreparingKeepsSlices(c: Config, s: Session, stream: Pcm, i: Input)
    requires c.Valid() && SlicesOk(c, s, stream)
    ensures SlicesOk(c, Prepared(c, s, i), if TakesIn(c, s, i) then stream + i.chunk else stream)
  {
    if TakesIn(c, s, i) {
      HearingKeepsSlices(c, s, stream, i.chunk);
    }
  }

  lemma ConcludingKeepsSlices(c: Config, p: Session, t: Session, decoded: Option<Decoding>, stream: Pcm)
    requires c.Valid() && SlicesOk(c, p, stream) && Concludes(c, p, t, decoded)
    ensures SlicesOk(c, t, stream)
  {
    if decoded.Some? && !decoded.value.draft {
      TrimmingKeepsSuffix(p.utterance, 2 * c.preRollSamples, stream);
    }
  }

  /** Through every call and raised error, an active utterance is stream[start..total] and an idle pre-roll a suffix. */
  lemma {:induction false} BuffersAreSlices(c: Config, inputs: seq<Input>)
    requires c.Valid()
    ensures SlicesOk(c, Live(c, inputs).session, Live(c, inputs).stream)
  {
    if inputs != [] {
      var j := Live(c, inputs[..|inputs| - 1]);
      var i := inputs[|inputs| - 1];
      BuffersAreSlices(c, inputs[..|inputs| - 1]);
      PreparingKeepsSlices(c, j.session, j.stream, i);
      CallsConclude(c, j.session, i);
      ConcludingKeepsSlices(c, Prepared(c, j.session, i),
                            Apply(c, j.session, i).session, Apply(c, j.session, i).decoded,
                            Prepare(c, j, i).stream);
    }
  }

  /** An event of the current utterance, spanning its audio from its start to the newest sample. */
  ghost predicate Spans(e: LiveEvent, p: Session) {
    && e.id == p.id && e.start == p.start
    && (!e.SpeechStarted? ==> e.end == p.start + |p.utterance| / 2)
  }

  lemma ContinueSpans(c: Config, p: Session, events: seq<LiveEvent>, analysed: Option<Pcm>, d: Decode)
    requires c.Valid() && forall e :: e in events ==> Spans(e, p)
    ensures var r := Continue(c, p, events, analysed, d).reply; r.Events? ==> forall e :: e in r.events ==> Spans(e, p)
  {
  }

  lemma CallsSpan(c: Config, s: Session, i: Input)
    requires c.Valid()
    ensures var r := Apply(c, s, i).reply; r.Events? ==> forall e :: e in r.events ==> Spans(e, Prepared(c, s, i))
  {
    if TakesIn(c, s, i) {
      IngestContinues(c, s, i);
      ContinueSpans(c, Prepared(c, s, i), StartedBy(c, s, i), AnalysedBy(c, s, i), i.decode);
    }
  }

  /** What an event demands of its fields when it is built. */
  predicate ValidEvent(e: LiveEvent) {
    && 1 <= e.id && 0 <= e.start
    && (!e.SpeechStarted? ==> 0 <= e.revision && e.start <= e.end)
  }

  ghost predicate CountersOk(s: Session) {
    0 <= s.id && 0 <= s.revision && (s.active ==> 1 <= s.id)
  }

  lemma ContinuingKeepsCounters(c: Config, p: Session, events: seq<LiveEvent>, analysed: Option<Pcm>, d: Decode)
    requires c.Valid() && CountersOk(p)
    ensures CountersOk(Continue(c, p, events, analysed, d).session)
    ensures var r := Continue(c, p, events, analysed, d).reply;
            r.Events? ==> forall e :: e in r.events && e !in events ==>
              1 <= e.id && !e.SpeechStarted? && 1 <= e.revision
  {
  }

  lemma CallsKeepCounters(c: Config, s: Session, i: Input)
    requires c.Valid() && CountersOk(s)
    ensures CountersOk(Apply(c, s, i).session)
    ensures var r := Apply(c, s, i).reply;
            r.Events? ==> forall e :: e in r.events ==> 1 <= e.id && (!e.SpeechStarted? ==> 1 <= e.revision)
  {
    if TakesIn(c, s, i) {
      IngestContinues(c, s, i);
      ContinuingKeepsCounters(c, Prepared(c, s, i), StartedBy(c, s, i), AnalysedBy(c, s, i), i.decode);
    }
  }

  lemma {:induction false} CountersStayOk(c: Config, inputs: seq<Input>)
    requires c.Valid()
    ensures CountersOk(Live(c, inputs).session)
  {
    if inputs != [] {
      CountersStayOk(c, inputs[..|inputs| - 1]);
      CallsKeepCounters(c, Live(c, inputs[..|inputs| - 1]).session, inputs[|inputs| - 1]);
    }
  }

  lemma EventsNeedSpeech(c: Config, s: Session, i: Input)
    requires c.Valid() && Apply(c, s, i).reply.Events? && Apply(c, s, i).reply.events != []
    ensures Prepared(c, s, i).active
  {
    if TakesIn(c, s, i) {
      IngestContinues(c, s, i);
      ContinuingAddsOne(c, Prepared(c, s, i), StartedBy(c, s, i), AnalysedBy(c, s, i), i.decode);
    }
  }

  /** Building an event never raises: its id is positive and its span starts at or after zero and does not end early. */
  lemma EventsAreValid(c: Config, inputs: seq<Input>, i: Input)
    requires c.Valid()
    ensures var r := Apply(c, Live(c, inputs).session, i).reply;
            r.Events? ==> forall e :: e in r.events ==> ValidEvent(e)
  {
    var j := Live(c, inputs);
    var r := Apply(c, j.session, i).reply;
    if r.Events? && r.events != [] {
      BuffersAreSlices(c, inputs);
      PreparingKeepsSlices(c, j.session, j.stream, i);
      CountersStayOk(c, inputs);
      CallsKeepCounters(c, j.session, i);
      CallsSpan(c, j.session, i);
      EventsNeedSpeech(c, j.session, i);
    }
  }

  /** The detector gets the newest audio of whichever buffer is in use. */
  lemma AnalysedAudioIsNewest(c: Config, inputs: seq<Input>, i: Input)
    requires c.Valid() && Apply(c, Live(c, inputs).session, i).analysed.Some?
    ensures Suffix(Apply(c, Live(c, inputs).session, i).analysed.value, Prepare(c, Live(c, inputs), i).stream)
  {
    var j := Live(c, inputs);
    BuffersAreSlices(c, inputs);
    CallsConclude(c, j.session, i);
    HearingKeepsSlices(c, j.session, j.stream, i.chunk);
    var heard := Hear(c, j.session, i.chunk);
    TrimmingKeepsSuffix(if heard.active then heard.utterance else heard.preRoll,
                        2 * c.analysisSamples, j.stream + i.chunk);
  }

  /** The recognizer gets exactly stream[start..total], and every event of the call spans exactly that. */
  lemma DecodedAudioIsTheUtterance(c: Config, inputs: seq<Input>, i: Input)
    requires c.Valid()
    ensures var step := Apply(c, Live(c, inputs).session, i);
            var mid := Prepare(c, Live(c, inputs), i);
            && (step.decoded.Some? ==>
                  0 <= 2 * mid.session.start <= |mid.stream| &&
                  step.decoded.value.audio == mid.stream[2 * mid.session.start..])
            && (step.reply.Events? ==> forall e :: e in step.reply.events ==> Spans(e, mid.session))
            && (mid.session.active ==> mid.session.start + |mid.session.utterance| / 2 == |mid.stream| / 2)
  {
    var j := Live(c, inputs);
    BuffersAreSlices(c, inputs);
    PreparingKeepsSlices(c, j.session, j.stream, i);
    CallsConclude(c, j.session, i);
    CallsSpan(c, j.session, i);
  }

  /** After a call that took in audio and returned, an active utterance is below its limit and not yet silent. */
  lemma ActiveUtterancesAreSettled(c: Config, inputs: seq<Input>, i: Input)
    requires c.Valid()
    requires var s := Live(c, inputs).session; TakesIn(c, s, i) && Apply(c, s, i).reply.Events?
    ensures var t := Live(c, inputs + [i]).session;
            t.active ==>
              && |t.utterance| / 2 < c.maxUtteranceSamples
              && t.lastSpeech.Some? && t.total - t.lastSpeech.value < c.endSilenceSamples
  {
    assert (inputs + [i])[..|inputs|] == inputs;
    BuffersAreSlices(c, inputs + [i]);
    CallsConclude(c, Live(c, inputs).session, i);
  }

  // ---- How an utterance begins, is drafted and ends ----

  /** A new utterance is the newest audio, from its start to the newest sample, and has its own id. */
  lemma StartedUtterancesAreNewest(c: Config, s: Session, stream: Pcm)
    requires c.Valid() && SlicesOk(c, s, stream) && !s.active
    ensures var t := Start(s);
            && t.active && t.id == s.id + 1 && t.revision == 0
            && 0 <= 2 * t.start <= |stream| && t.utterance == stream[2 * t.start..]
            && t.total - t.start == |s.preRoll| / 2
  {
  }

  /**
   * A draft is not due again before another whole interval of audio, whatever the recognizer does; it reports a text
   * that differs from the last one reported and nothing else, so the same text is never reported twice in a row.
   */
  lemma DraftsAreSpacedAndNew(c: Config, s: Session, events: seq<LiveEvent>, analysed: Option<Pcm>, d: Decode)
    requires c.Valid()
    ensures var step := Draft(s, events, analysed, d);
            && !DraftDue(c, step.session) && step.session.utterance == s.utterance
            && (step.reply.Events? <==> !d.Breaks?)
            && (step.reply.Events? ==>
                  events <= step.reply.events
                  && |step.reply.events| - |events| == step.session.revision - s.revision
                  && (|step.reply.events| > |events| <==> d.Text? && d.text != s.lastText))
            && (d.Text? ==> Draft(step.session, [], analysed, d).reply == Events([]))
  {
  }

  lemma FinishIgnoresTheDecode(
    c: Config, s: Session, events: seq<LiveEvent>, keepTail: bool, analysed: Option<Pcm>, d: Decode, e: Decode)
    requires c.Valid()
    ensures Finish(c, s, events, keepTail, analysed, d).session.(revision := 0) ==
            Finish(c, s, events, keepTail, analysed, e).session.(revision := 0)
  {
  }

  lemma FinishKeepsTheTail(
    c: Config, s: Session, stream: Pcm, events: seq<LiveEvent>, keepTail: bool, analysed: Option<Pcm>, d: Decode)
    requires c.Valid() && SlicesOk(c, s, stream) && s.active
    ensures var t := Finish(c, s, events, keepTail, analysed, d).session;
            && t == s.(active := false, utterance := [], preRoll := t.preRoll, lastSpeech := None, lastPartial := 0,
                       lastText := "", revision := t.revision)
            && t.preRoll == if keepTail then LastBytes(s.utterance, 2 * c.preRollSamples) else []
  {
  }

  /**
   * An utterance ends whatever the final decode does: only the revision tells the outcomes apart. What is kept for the
   * next one is the newest audio, at most the pre-roll (all of it when the pre-roll is zero), or nothing.
   */
  lemma FinishedUtterancesAreOver(
    c: Config, s: Session, stream: Pcm, events: seq<LiveEvent>, keepTail: bool, analysed: Option<Pcm>,
    d: Decode, e: Decode)
    requires c.Valid() && SlicesOk(c, s, stream) && s.active
    ensures var t := Finish(c, s, events, keepTail, analysed, d).session;
            && SlicesOk(c, t, stream) && !t.active && t.total == s.total && t.id == s.id
            && (keepTail && c.preRollSamples > 0 ==> |t.preRoll| == 2 * Min(|s.utterance| / 2, c.preRollSamples))
            && (!keepTail ==> t.preRoll == [])
            && Finish(c, s, events, keepTail, analysed, e).session.(revision := 0) == t.(revision := 0)
  {
    FinishKeepsTheTail(c, s, stream, events, keepTail, analysed, d);
    FinishIgnoresTheDecode(c, s, events, keepTail, analysed, d, e);
    TrimmingKeepsSuffix(s.utterance, 2 * c.preRollSamples, stream);
  }

  /** Closing is refused as a rejected decode exactly when it happens in mid-speech and the final decode is rejected. */
  lemma ClosingIsRejectedInSpeech(c: Config, s: Session, d: Decode)
    requires c.Valid()
    ensures Shut(c, s, d).reply == DecodeRejected <==> !s.closed && s.active && d.Rejects?
    ensures Shut(c, s, d).reply.Events? <==> s.closed || !s.active || d.Text?
  {
  }

  // ---- No speech is fed twice ----

  /** The detector reports ends within the audio it was given, and finds nothing in no audio. */
  predicate Truthful(c: Config, s: Session, i: Input)
    requires c.Valid()
  {
    Detects(c, s, i) && i.detection.LastRegionEnd? ==> 0 < i.detection.end <= |Analysis(c, Hear(c, s, i.chunk))| / 2
  }

  predicate AllTruthful(c: Config, inputs: seq<Input>)
    requires c.Valid()
  {
    forall n :: 0 <= n < |inputs| ==> Truthful(c, Live(c, inputs[..n]).session, inputs[n])
  }

  /** b may follow a: starts never decrease, overlaps are at most a pre-roll, and with a short one no speech recurs. */
  ghost predicate Follows(c: Config, a: Utterance, start: int) {
    && a.start <= start
    && a.end - start <= c.preRollSamples
    && (c.preRollSamples <= c.endSilenceSamples ==> a.lastSpeech <= start)
  }

  /** Where the next utterance would begin at the earliest. */
  function NextStart(s: Session): int {
    if s.active then s.start else s.total - |s.preRoll| / 2
  }

  ghost predicate FeedsOk(c: Config, s: Session, finished: seq<Utterance>) {
    && (forall n :: 0 < n < |finished| ==> Follows(c, finished[n - 1], finished[n].start))
    && (finished != [] ==> Follows(c, finished[|finished| - 1], NextStart(s)))
    && (s.lastSpeech.Some? ==> s.lastSpeech.value <= s.total)
  }

  /**
   * With no pre-roll an idle session analyses no audio at all, so it never leaves idleness, whatever the detector.
   * LiveDetection says exactly which settings have this effect with the service's own detector.
   */
  ghost predicate Deaf(c: Config, s: Session) {
    c.preRollSamples == 0 ==> !s.active && s.id == 0 && s.lastSpeech.None?
  }

  lemma PreparingStaysDeaf(c: Config, s: Session, i: Input)
    requires c.Valid() && Deaf(c, s) && Truthful(c, s, i)
    ensures Deaf(c, Prepared(c, s, i))
  {
  }

  lemma PreparingKeepsFeeds(c: Config, s: Session, stream: Pcm, i: Input, finished: seq<Utterance>)
    requires c.Valid() && SlicesOk(c, s, stream) && FeedsOk(c, s, finished) && Truthful(c, s, i)
    ensures FeedsOk(c, Prepared(c, s, i), finished)
  {
    if TakesIn(c, s, i) {
      HearingKeepsSlices(c, s, stream, i.chunk);
      var heard := Hear(c, s, i.chunk);
      assert NextStart(s) <= NextStart(heard);
      assert NextStart(Prepared(c, s, i)) == NextStart(heard);
    }
  }

  lemma FinishingKeepsFeeds(c: Config, p: Session, t: Session, d: Decoding, stream: Pcm, finished: seq<Utterance>)
    requires c.Valid() && SlicesOk(c, p, stream) && FeedsOk(c, p, finished) && Deaf(c, p)
    requires Concludes(c, p, t, Some(d)) && !d.draft
    ensures FeedsOk(c, t, finished + [Finished(p)])
  {
    assert Follows(c, Finished(p), NextStart(t));
  }

  lemma ConcludingKeepsFeeds(c: Config, p: Session, t: Session, decoded: Option<Decoding>,
    stream: Pcm, finished: seq<Utterance>)
    requires c.Valid() && SlicesOk(c, p, stream) && FeedsOk(c, p, finished)
    requires Concludes(c, p, t, decoded) && (decoded.Some? ==> decoded.value.draft)
    ensures FeedsOk(c, t, finished)
  {
    assert NextStart(p) <= NextStart(t);
  }

  /**
   * Successive utterances start in order and overlap by at most the pre-roll; when the pre-roll is no longer than the
   * end silence, each starts at or after the last speech of the one before. A session without pre-roll hears nothing.
   */
  lemma {:induction false} SpeechIsFedInOrder(c: Config, inputs: seq<Input>)
    requires c.Valid() && AllTruthful(c, inputs)
    ensures FeedsOk(c, Live(c, inputs).session, Live(c, inputs).finished) && Deaf(c, Live(c, inputs).session)
  {
    if inputs != [] {
      var before := inputs[..|inputs| - 1];
      var j := Live(c, before);
      var i := inputs[|inputs| - 1];
      assert forall n :: 0 <= n < |before| ==> before[..n] == inputs[..n];
      SpeechIsFedInOrder(c, before);
      BuffersAreSlices(c, before);
      PreparingStaysDeaf(c, j.session, i);
      PreparingKeepsSlices(c, j.session, j.stream, i);
      PreparingKeepsFeeds(c, j.session, j.stream, i, j.finished);
      CallsConclude(c, j.session, i);
      var mid := Prepare(c, j, i);
      var step := Apply(c, j.session, i);
      if step.decoded.Some? && !step.decoded.value.draft {
        FinishingKeepsFeeds(c, mid.session, step.session, step.decoded.value, mid.stream, j.finished);
      } else {
        ConcludingKeepsFeeds(c, mid.session, step.session, step.decoded, mid.stream, j.finished);
      }
    }
  }

  // ---- What the session costs ----

  ghost predicate CostsOk(c: Config, j: Journal) {
    var s := j.session;
    && j.vadCalls * VAD_WINDOW_SAMPLES <= s.lastVadTotal <= s.total
    && j.drafts * c.partialIntervalSamples <= j.fed + s.lastPartial
    && (!s.active && !s.closed ==> s.lastPartial == 0)
    && 0 <= s.lastPartial && j.fed + s.lastPartial <= s.total + s.id * c.preRollSamples
    && (s.active ==>
          s.lastPartial <= |s.utterance| / 2 && j.fed + |s.utterance| / 2 <= s.total + s.id * c.preRollSamples)
  }

  lemma OneMore(n: int, k: int)
    ensures (n + 1) * k == n * k + k
  {
  }

  lemma HearingKeepsCosts(c: Config, j: Journal, chunk: Pcm)
    requires c.Valid() && SlicesOk(c, j.session, j.stream) && CostsOk(c, j) && Accepts(c, j.session, chunk)
    ensures CostsOk(c, j.(session := Hear(c, j.session, chunk)))
  {
  }

  lemma StartingKeepsCosts(c: Config, j: Journal)
    requires c.Valid() && CostsOk(c, j) && |j.session.preRoll| <= 2 * c.preRollSamples
    requires !j.session.active && !j.session.closed
    ensures CostsOk(c, j.(session := Start(j.session)))
  {
    OneMore(j.session.id, c.preRollSamples);
  }

  lemma PreparingKeepsCosts(c: Config, j: Journal, i: Input)
    requires c.Valid() && SlicesOk(c, j.session, j.stream) && CostsOk(c, j)
    ensures CostsOk(c, Prepare(c, j, i))
  {
    if TakesIn(c, j.session, i) {
      HearingKeepsSlices(c, j.session, j.stream, i.chunk);
      HearingKeepsCosts(c, j, i.chunk);
      var mid := Prepare(c, j, i);
      if mid.session.active && !j.session.active {
        var heard := Hear(c, j.session, i.chunk);
        var idle := mid.(session := heard.(lastVadTotal := heard.total));
        StartingKeepsCosts(c, idle);
      }
    }
  }

  lemma ConcludingKeepsCosts(c: Config, mid: Journal, step: Step)
    requires c.Valid() && SlicesOk(c, mid.session, mid.stream) && CostsOk(c, mid)
    requires Concludes(c, mid.session, step.session, step.decoded)
    ensures CostsOk(c, Conclude(mid, step))
  {
    OneMore(mid.drafts, c.partialIntervalSamples);
  }

  lemma {:induction false} CostsStayOk(c: Config, inputs: seq<Input>)
    requires c.Valid()
    ensures CostsOk(c, Live(c, inputs))
  {
    if inputs != [] {
      var before := inputs[..|inputs| - 1];
      var j := Live(c, before);
      var i := inputs[|inputs| - 1];
      CostsStayOk(c, before);
      BuffersAreSlices(c, before);
      PreparingKeepsCosts(c, j, i);
      PreparingKeepsSlices(c, j.session, j.stream, i);
      CallsConclude(c, j.session, i);
      ConcludingKeepsCosts(c, Prepare(c, j, i), Apply(c, j.session, i));
    }
  }

  /** Draft decodes and detector calls are paid for by audio, and audio is bounded by the session limit. */
  lemma InferenceIsAmortised(c: Config, inputs: seq<Input>)
    requires c.Valid()
    ensures var j := Live(c, inputs);
            && j.drafts * c.partialIntervalSamples <= j.session.total + j.session.id * c.preRollSamples
            && j.vadCalls * VAD_WINDOW_SAMPLES <= j.session.total <= c.maxSessionSamples
            && |j.stream| == 2 * j.session.total
  {
    CostsStayOk(c, inputs);
    BuffersAreSlices(c, inputs);
  }

  // ---- The grammar of events ----

  /** How far a reader of the events has got: the last utterance started, its revision, and whether it may go on. */
  datatype Cursor = Cursor(id: int, revision: int, open: bool)

  function Accept(k: Cursor, e: LiveEvent): Option<Cursor> {
    match e
    case SpeechStarted(id, _) => if id > k.id then Some(Cursor(id, 0, true)) else None
    case Partial(id, revision, _, _, _) =>
      if k.open && id == k.id && revision == k.revision + 1 then Some(k.(revision := revision)) else None
    case Final(id, revision, _, _, _) =>
      if k.open && id == k.id && revision == k.revision + 1 then Some(Cursor(id, revision, false)) else None
  }

  /** (Started Partial* Final?)* with increasing ids and revisions 0, 1, 2, ... within each. */
  function Parse(events: seq<LiveEvent>): Option<Cursor> {
    if events == [] then Some(Cursor(0, 0, false))
    else
      var k := Parse(events[..|events| - 1]);
      if k.None? then None else Accept(k.value, events[|events| - 1])
  }

  lemma {:induction false} ParseOneMore(events: seq<LiveEvent>, e: LiveEvent)
    ensures Parse(events + [e]) == (if Parse(events).None? then None else Accept(Parse(events).value, e))
  {
    assert (events + [e])[..|events|] == events;
  }

  /** The events parse, and an active utterance is the one they left open. */
  ghost predicate GrammarOk(s: Session, events: seq<LiveEvent>) {
    var k := Parse(events);
    && k.Some? && 0 <= k.value.id <= s.id
    && (s.active ==> k.value.open && k.value.id == s.id && k.value.revision == s.revision)
  }

  lemma StartingExtends(c: Config, s: Session, i: Input, events: seq<LiveEvent>)
    requires c.Valid() && GrammarOk(s, events)
    ensures GrammarOk(Prepared(c, s, i), events + StartedBy(c, s, i))
  {
    if StartedBy(c, s, i) == [] {
      assert events + [] == events;
    } else {
      ParseOneMore(events, StartedBy(c, s, i)[0]);
    }
  }

  /** At most one event is added, and only while an utterance is active. */
  lemma ContinuingAddsOne(c: Config, p: Session, pending: seq<LiveEvent>, analysed: Option<Pcm>, d: Decode)
    requires c.Valid()
    ensures var step := Continue(c, p, pending, analysed, d);
            step.reply.Events? ==>
              && |pending| <= |step.reply.events| <= |pending| + 1
              && (|step.reply.events| == |pending| ==>
                    step.reply.events == pending && step.session.id == p.id
                    && (step.session.active ==> p.active && step.session.revision == p.revision))
              && (|step.reply.events| > |pending| ==>
                    p.active && step.reply.events == pending + [step.reply.events[|pending|]])
  {
  }

  lemma ContinuingExtends(
    c: Config, p: Session, before: seq<LiveEvent>, pending: seq<LiveEvent>, analysed: Option<Pcm>, d: Decode)
    requires c.Valid() && GrammarOk(p, before + pending)
    ensures var step := Continue(c, p, pending, analysed, d);
            step.reply.Events? ==> GrammarOk(step.session, before + step.reply.events)
  {
    var step := Continue(c, p, pending, analysed, d);
    ContinuingAddsOne(c, p, pending, analysed, d);
    if step.reply.Events? && |step.reply.events| > |pending| {
      var e := step.reply.events[|pending|];
      assert before + step.reply.events == (before + pending) + [e];
      ParseOneMore(before + pending, e);
    }
  }

  lemma ConcludingOtherwiseExtends(c: Config, s: Session, i: Input, before: seq<LiveEvent>)
    requires c.Valid() && GrammarOk(s, before) && !TakesIn(c, s, i)
    ensures var step := Apply(c, s, i);
            step.reply.Events? ==> GrammarOk(step.session, before + step.reply.events)
  {
    var step := Apply(c, s, i);
    if step.reply.Events? {
      if step.reply.events == [] {
        assert before + [] == before;
      } else {
        ParseOneMore(before, step.reply.events[0]);
      }
    }
  }

  lemma CallExtendsGrammar(c: Config, s: Session, i: Input, before: seq<LiveEvent>)
    requires c.Valid() && GrammarOk(s, before) && Apply(c, s, i).reply.Recoverable()
    ensures var step := Apply(c, s, i);
            GrammarOk(step.session, if step.reply.Events? then before + step.reply.events else before)
  {
    CallsConclude(c, s, i);
    if TakesIn(c, s, i) {
      IngestContinues(c, s, i);
      StartingExtends(c, s, i, before);
      ContinuingExtends(c, Prepared(c, s, i), before, StartedBy(c, s, i), AnalysedBy(c, s, i), i.decode);
    } else {
      ConcludingOtherwiseExtends(c, s, i, before);
    }
  }

  /**
   * Until a non-recoverable error, the returned events form (Started Partial* Final?)* with increasing ids and
   * revisions 0, 1, 2, ..., and an active utterance is the one last started, at its current revision.
   */
  lemma {:induction false} EventsFollowTheGrammar(c: Config, inputs: seq<Input>)
    requires c.Valid() && !Live(c, inputs).stopped
    ensures GrammarOk(Live(c, inputs).session, Live(c, inputs).events)
  {
    if inputs != [] {
      var before := inputs[..|inputs| - 1];
      EventsFollowTheGrammar(c, before);
      CallExtendsGrammar(c, Live(c, before).session, inputs[|inputs| - 1], Live(c, before).events);
    }
  }

  lemma TakingInAnnounces(c: Config, s: Session, i: Input)
    requires c.Valid() && TakesIn(c, s, i) && Apply(c, s, i).reply.Events? && Apply(c, s, i).session.id > s.id
    ensures exists e :: e in Apply(c, s, i).reply.events && e.SpeechStarted? && e.id == Apply(c, s, i).session.id
  {
    CallsConclude(c, s, i);
    IngestContinues(c, s, i);
    ContinuingAddsOne(c, Prepared(c, s, i), StartedBy(c, s, i), AnalysedBy(c, s, i), i.decode);
    var e := StartedBy(c, s, i)[0];
    assert e == Apply(c, s, i).reply.events[0] && e.SpeechStarted? && e.id == Apply(c, s, i).session.id;
  }

  lemma IdsGrowByOne(c: Config, s: Session, i: Input)
    requires c.Valid() && Apply(c, s, i).reply.Recoverable()
    ensures var step := Apply(c, s, i);
            && s.id <= step.session.id <= s.id + 1
            && (step.session.id > s.id ==> TakesIn(c, s, i) && (step.reply.Events? || step.decoded.Some?))
  {
    CallsConclude(c, s, i);
    if TakesIn(c, s, i) {
      IngestContinues(c, s, i);
    }
  }

  /** What a call does to the announcements: ids grow by at most one, and a new id is announced or its decode raised. */
  lemma CallAnnounces(c: Config, s: Session, i: Input)
    requires c.Valid() && Apply(c, s, i).reply.Recoverable()
    ensures var step := Apply(c, s, i);
            && s.id <= step.session.id <= s.id + 1
            && (step.session.id > s.id ==>
                  if step.reply.Events?
                  then exists e :: e in step.reply.events && e.SpeechStarted? && e.id == step.session.id
                  else step.decoded.Some?)
  {
    IdsGrowByOne(c, s, i);
    if Apply(c, s, i).session.id > s.id && Apply(c, s, i).reply.Events? {
      TakingInAnnounces(c, s, i);
    }
  }

  /** A SpeechStarted event named the utterance, or a decode raised while it was being handled. */
  ghost predicate Announced(j: Journal, id: int) {
    id in j.failed || exists e :: e in j.events && e.SpeechStarted? && e.id == id
  }

  lemma StepKeepsAnnouncements(c: Config, inputs: seq<Input>, id: int)
    requires c.Valid() && inputs != [] && Announced(Live(c, inputs[..|inputs| - 1]), id)
    ensures Announced(Live(c, inputs), id)
  {
    var j := Live(c, inputs[..|inputs| - 1]);
    if id !in j.failed {
      var e :| e in j.events && e.SpeechStarted? && e.id == id;
      assert e in Live(c, inputs).events;
    }
  }

  lemma StepAnnouncesItsOwn(c: Config, inputs: seq<Input>, id: int)
    requires c.Valid() && inputs != [] && !Live(c, inputs).stopped
    requires Live(c, inputs[..|inputs| - 1]).session.id < id == Live(c, inputs).session.id
    ensures Announced(Live(c, inputs), id)
  {
    var j := Live(c, inputs[..|inputs| - 1]);
    var i := inputs[|inputs| - 1];
    var step := Apply(c, j.session, i);
    CallAnnounces(c, j.session, i);
    CallsConclude(c, j.session, i);
    if step.reply.Events? {
      var e :| e in step.reply.events && e.SpeechStarted? && e.id == id;
      assert e in Live(c, inputs).events;
    }
  }

  /** Until a non-recoverable error, the only utterances never announced are those in which a decode raised. */
  lemma {:induction false} UtterancesAreAnnounced(c: Config, inputs: seq<Input>, id: int)
    requires c.Valid() && !Live(c, inputs).stopped && 1 <= id <= Live(c, inputs).session.id
    ensures Announced(Live(c, inputs), id)
  {
    if inputs != [] {
      var before := inputs[..|inputs| - 1];
      CallAnnounces(c, Live(c, before).session, inputs[|inputs| - 1]);
      if id <= Live(c, before).session.id {
        UtterancesAreAnnounced(c, before, id);
        StepKeepsAnnouncements(c, inputs, id);
      } else {
        StepAnnouncesItsOwn(c, inputs, id);
      }
    }
  }
}
