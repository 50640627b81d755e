/** The dictation session as an object: it does in place what LiveSession says, and keeps what LiveGuarantees proves. */
module DictationSession {
  import opened Wrappers
  import opened Basics
  import opened LiveSession
  import opened LiveGuarantees

  /**
   * What every answer is about: an active utterance is the stream from its start on, the recognizer got the stream from
   * there on, and the events are well-formed and span it.
   */
  ghost predicate Heeded(stream: Pcm, s: Session, reply: Reply, decoded: Option<Decoding>) {
    && |stream| == 2 * s.total
    && (s.active ==> 0 <= 2 * s.start <= |stream| && s.utterance == stream[2 * s.start..])
    && (decoded.Some? ==> 0 <= 2 * s.start <= |stream| && decoded.value.audio == stream[2 * s.start..])
    && (reply.Events? ==> forall e :: e in reply.events ==>
          ValidEvent(e) && e.id == s.id && e.start == s.start && (!e.SpeechStarted? ==> e.end == s.total))
  }

  /** An active utterance may go on: it is below its limit and not yet silent for too long. */
  predicate Unfinished(c: Config, s: Session) {
    s.active ==>
      && |s.utterance| / 2 < c.maxUtteranceSamples
      && s.lastSpeech.Some? && s.total - s.lastSpeech.value < c.endSilenceSamples
  }

  lemma EventsNeedAnUtterance(c: Config, inputs: seq<Input>, i: Input, e: LiveEvent)
    requires c.Valid()
    requires var r := Apply(c, Live(c, inputs).session, i).reply; r.Events? && e in r.events
    ensures var k := Live(c, inputs + [i]);
            ValidEvent(e) && e.id == k.session.id && e.start == k.session.start
            && (!e.SpeechStarted? ==> e.end == k.session.total)
  {
    var s := Live(c, inputs).session;
    CallsGoOn(c, inputs, i);
    CallsConclude(c, s, i);
    CallsSpan(c, s, i);
    EventsAreValid(c, inputs, i);
    EventsNeedSpeech(c, s, i);
    BuffersAreSlices(c, inputs);
    PreparingKeepsSlices(c, s, Live(c, inputs).stream, i);
  }

  lemma CallIsHeeded(c: Config, inputs: seq<Input>, i: Input)
    requires c.Valid()
    ensures var k := Live(c, inputs + [i]);
            var step := Apply(c, Live(c, inputs).session, i);
            Heeded(k.stream, k.session, step.reply, step.decoded)
  {
    var reply := Apply(c, Live(c, inputs).session, i).reply;
    CallsGoOn(c, inputs, i);
    BuffersAreSlices(c, inputs + [i]);
    DecodedAudioIsTheUtterance(c, inputs, i);
    if reply.Events? {
      forall e | e in reply.events
        ensures var k := Live(c, inputs + [i]).session;
                ValidEvent(e) && e.id == k.id && e.start == k.start && (!e.SpeechStarted? ==> e.end == k.total)
      {
        EventsNeedAnUtterance(c, inputs, i, e);
      }
    }
  }

  lemma CallSettles(c: Config, inputs: seq<Input>, i: Input)
    requires c.Valid()
    requires TakesIn(c, Live(c, inputs).session, i) && Apply(c, Live(c, inputs).session, i).reply.Events?
    ensures Unfinished(c, Live(c, inputs + [i]).session)
  {
    ActiveUtterancesAreSettled(c, inputs, i);
  }

  class LiveTranscriptionSession {
    const config: Config
    var totalSamples: int
    var lastVadTotalSamples: int
    var preRoll: Pcm
    var utterance: Pcm
    var utteranceStartSample: int
    var lastSpeechSample: Option<int>
    var lastPartialSamples: int
    var lastPartialText: string
    var utteranceId: int
    var revision: int
    var speechActive: bool
    var closed: bool
    /** Every call so far, with what the detector and the recognizer answered. */
    ghost var inputs: seq<Input>

    constructor (config: Config)
      requires config.Valid()
      ensures this.config == config && inputs == [] && Valid() && State() == OPENED
    {
      this.config := config;
      inputs := [];
      totalSamples, lastVadTotalSamples := 0, 0;
      preRoll, utterance := [], [];
      utteranceStartSample, lastSpeechSample := 0, None;
      lastPartialSamples, lastPartialText := 0, "";
      utteranceId, revision := 0, 0;
      speechActive, closed := false, false;
    }

    function State(): Session
      reads this
    {
      Session(totalSamples, lastVadTotalSamples, preRoll, utterance, utteranceStartSample, lastSpeechSample,
              lastPartialSamples, lastPartialText, utteranceId, revision, speechActive, closed)
    }

    /** The session is what its calls have made of it. */
    ghost predicate Valid()
      reads this
    {
      config.Valid() && State() == Live(config, inputs).session
    }

    /** All audio taken in so far. */
    ghost function Stream(): Pcm
      requires config.Valid()
      reads this
    {
      Live(config, inputs).stream
    }

    /** Everything returned so far. */
    ghost function Events(): seq<LiveEvent>
      requires config.Valid()
      reads this
    {
      Live(config, inputs).events
    }

    /** What holds of the object between any two calls. */
    lemma AlwaysHolds()
      requires Valid()
      ensures SlicesOk(config, State(), Stream()) && CountersOk(State())
      ensures !Live(config, inputs).stopped ==> GrammarOk(State(), Events())
      ensures var j := Live(config, inputs);
              && j.drafts * config.partialIntervalSamples <= totalSamples + utteranceId * config.preRollSamples
              && j.vadCalls * VAD_WINDOW_SAMPLES <= totalSamples <= config.maxSessionSamples
    {
      BuffersAreSlices(config, inputs);
      CountersStayOk(config, inputs);
      InferenceIsAmortised(config, inputs);
      if !Live(config, inputs).stopped {
        EventsFollowTheGrammar(config, inputs);
      }
    }

    method Ingest(chunk: Pcm, detection: Detection, decode: Decode)
        returns (reply: Reply, analysed: Option<Pcm>, decoded: Option<Decoding>)
      requires Valid()
      modifies this
      ensures Valid() && inputs == old(inputs) + [Audio(chunk, detection, decode)]
      ensures Stream() == old(Stream()) + (if Accepts(config, old(State()), chunk) then chunk else [])
      ensures Heeded(Stream(), State(), reply, decoded)
      ensures reply.Events? && Accepts(config, old(State()), chunk) ==> Unfinished(config, State())
      ensures Step(State(), reply, analysed, decoded) == Ingested(config, old(State()), chunk, detection, decode)
    {
      ghost var i := Audio(chunk, detection, decode);
      CallsGoOn(config, inputs, i);
      CallIsHeeded(config, inputs, i);
      if Accepts(config, State(), chunk) && Ingested(config, State(), chunk, detection, decode).reply.Events? {
        CallSettles(config, inputs, i);
      }
      reply, analysed, decoded := TakeIn(chunk, detection, decode);
      inputs := inputs + [i];
    }

    method TakeIn(chunk: Pcm, detection: Detection, decode: Decode)
        returns (reply: Reply, analysed: Option<Pcm>, decoded: Option<Decoding>)
      requires config.Valid()
      modifies this
      ensures inputs == old(inputs)
      ensures Step(State(), reply, analysed, decoded) == Ingested(config, old(State()), chunk, detection, decode)
    {
      analysed, decoded := None, None;
      if closed {
        return SessionClosed, None, None;
      }
      if chunk == [] {
        return Reply.Events([]), None, None;
      }
      if |chunk| > config.maxChunkBytes || |chunk| % 2 != 0 {
        return InvalidChunk, None, None;
      }
      var chunkSamples := |chunk| / 2;
      if totalSamples + chunkSamples > config.maxSessionSamples {
        return LimitReached, None, None;
      }
      totalSamples := totalSamples + chunkSamples;
      if speechActive {
        utterance := utterance + chunk;
      } else {
        preRoll := TrimLeft(preRoll + chunk, 2 * config.preRollSamples);
      }

      assert State() == Hear(config, old(State()), chunk);

      var events: seq<LiveEvent> := [];
      if totalSamples - lastVadTotalSamples >= VAD_WINDOW_SAMPLES {
        var raised;
        events, analysed, raised := DetectSpeech(detection);
        if raised {
          return DetectorError, analysed, None;
        }
      }
      reply, decoded := FinalizeOrDraft(events, decode);
    }

    /** The detection half of ingest; an utterance starts with the first speech heard while idle. */
    method DetectSpeech(detection: Detection) returns (events: seq<LiveEvent>, analysed: Option<Pcm>, raised: bool)
      requires config.Valid()
      modifies this
      ensures inputs == old(inputs)
      ensures raised <==> detection.DetectorRaises?
      ensures forall d ::
                Analyse(config, old(State()), detection, d) ==
                (if raised then Step(State(), DetectorError, analysed, None)
                 else Continue(config, State(), events, analysed, d))
    {
      lastVadTotalSamples := totalSamples;
      var analysis := LastBytes(if speechActive then utterance else preRoll, 2 * config.analysisSamples);
      events, analysed, raised := [], Some(analysis), detection.DetectorRaises?;
      if detection.LastRegionEnd? {
        var latest := totalSamples - |analysis| / 2 + detection.end;
        lastSpeechSample := Some(Max(if lastSpeechSample.Some? then lastSpeechSample.value else 0, latest));
        if !speechActive {
          StartUtterance();
          events := [SpeechStarted(utteranceId, utteranceStartSample)];
        }
      }
    }

    /** The second half of ingest: end the utterance if it is too long or silent, or decode a draft if one is due. */
    method FinalizeOrDraft(events: seq<LiveEvent>, decode: Decode) returns (reply: Reply, decoded: Option<Decoding>)
      requires config.Valid()
      modifies this
      ensures inputs == old(inputs)
      ensures forall analysed ::
                Step(State(), reply, analysed, decoded) == Continue(config, old(State()), events, analysed, decode)
    {
      decoded := None;
      if !speechActive {
        return Reply.Events(events), None;
      }
      var utteranceSamples := |utterance| / 2;
      if utteranceSamples >= config.maxUtteranceSamples {
        reply, decoded := Finalize(events, false, decode);
      } else if lastSpeechSample.Some? && totalSamples - lastSpeechSample.value >= config.endSilenceSamples {
        reply, decoded := Finalize(events, true, decode);
      } else if utteranceSamples >= config.partialMinSamples
                && utteranceSamples - lastPartialSamples >= config.partialIntervalSamples {
        reply, decoded := DraftPartial(events, decode);
      } else {
        reply := Reply.Events(events);
      }
    }

    method CommitUtterance(decode: Decode) returns (reply: Reply, decoded: Option<Decoding>)
      requires Valid()
      modifies this
      ensures Valid() && inputs == old(inputs) + [Commit(decode)]
      ensures Stream() == old(Stream()) && Heeded(Stream(), State(), reply, decoded)
      ensures Step(State(), reply, None, decoded) == Committed(config, old(State()), decode)
    {
      ghost var i := Commit(decode);
      CallsGoOn(config, inputs, i);
      CallIsHeeded(config, inputs, i);
      reply, decoded := EndUtterance(decode);
      inputs := inputs + [i];
    }

    method EndUtterance(decode: Decode) returns (reply: Reply, decoded: Option<Decoding>)
      requires config.Valid()
      modifies this
      ensures inputs == old(inputs)
      ensures Step(State(), reply, None, decoded) == Committed(config, old(State()), decode)
    {
      if closed {
        return SessionClosed, None;
      }
      if !speechActive {
        return Reply.Events([]), None;
      }
      reply, decoded := Finalize([], false, decode);
    }

    method CloseSession(decode: Decode) returns (reply: Reply, decoded: Option<Decoding>)
      requires Valid()
      modifies this
      ensures Valid() && inputs == old(inputs) + [Close(decode)]
      ensures Stream() == old(Stream()) && Heeded(Stream(), State(), reply, decoded)
      ensures closed <==> reply.Events?
      ensures Step(State(), reply, None, decoded) == Shut(config, old(State()), decode)
    {
      ghost var i := Close(decode);
      CallsGoOn(config, inputs, i);
      CallIsHeeded(config, inputs, i);
      reply, decoded := ShutDown(decode);
      inputs := inputs + [i];
    }

    method ShutDown(decode: Decode) returns (reply: Reply, decoded: Option<Decoding>)
      requires config.Valid()
      modifies this
      ensures inputs == old(inputs)
      ensures Step(State(), reply, None, decoded) == Shut(config, old(State()), decode)
    {
      if closed {
        return Reply.Events([]), None;
      }
      reply, decoded := Reply.Events([]), None;
      if speechActive {
        reply, decoded := EndUtterance(decode);
        if !reply.Events? {
          return;
        }
      }
      ClearAudio();
    }

    method DiscardSession()
      requires Valid()
      modifies this
      ensures Valid() && inputs == old(inputs) + [Discard]
      ensures Stream() == old(Stream()) && closed && utterance == [] && preRoll == []
      ensures Step(State(), Reply.Events([]), None, None) == Dropped(old(State()))
    {
      CallsGoOn(config, inputs, Discard);
      ClearAudio();
      inputs := inputs + [Discard];
    }

    method StartUtterance()
      modifies this
      ensures inputs == old(inputs)
      ensures State() == Start(old(State()))
    {
      speechActive := true;
      utteranceId := utteranceId + 1;
      revision := 0;
      utterance := preRoll;
      utteranceStartSample := totalSamples - |preRoll| / 2;
      lastPartialSamples, lastPartialText := 0, "";
    }

    method DraftPartial(events: seq<LiveEvent>, decode: Decode) returns (reply: Reply, decoded: Option<Decoding>)
      modifies this
      ensures inputs == old(inputs)
      ensures forall analysed ::
                Step(State(), reply, analysed, decoded) == Draft(old(State()), events, analysed, decode)
    {
      var snapshot := utterance;
      lastPartialSamples := |snapshot| / 2;
      decoded := Some(Decoding(snapshot, true));
      match decode {
        case Breaks => reply := DecodeError;
        case Rejects => reply := Reply.Events(events);
        case Text(text) =>
          if text == lastPartialText {
            return Reply.Events(events), decoded;
          }
          lastPartialText := text;
          revision := revision + 1;
          reply := Reply.Events(events + [Partial(utteranceId, revision, utteranceStartSample,
                                            utteranceStartSample + |snapshot| / 2, text)]);
      }
    }

    method Finalize(events: seq<LiveEvent>, retainSilenceTail: bool, decode: Decode)
        returns (reply: Reply, decoded: Option<Decoding>)
      requires config.Valid()
      modifies this
      ensures inputs == old(inputs)
      ensures forall analysed ::
                Step(State(), reply, analysed, decoded)
                == Finish(config, old(State()), events, retainSilenceTail, analysed, decode)
    {
      var snapshot := utterance;
      var retainedTail := if retainSilenceTail then LastBytes(snapshot, 2 * config.preRollSamples) else [];
      decoded := Some(Decoding(snapshot, false));
      match decode {
        case Breaks => reply := DecodeError;
        case Rejects => reply := DecodeRejected;
        case Text(text) =>
          revision := revision + 1;
          reply := Reply.Events(events + [Final(utteranceId, revision, utteranceStartSample,
                                          utteranceStartSample + |snapshot| / 2, text)]);
      }
      speechActive := false;
      utterance := [];
      preRoll := retainedTail;
      lastSpeechSample := None;
      lastPartialSamples, lastPartialText := 0, "";
    }

    method ClearAudio()
      modifies this
      ensures inputs == old(inputs)
      ensures State() == Emptied(old(State()))
    {
      closed := true;
      preRoll, utterance := [], [];
      speechActive, lastSpeechSample := false, None;
    }
  }
}
