/**
 * One live dictation session. `Ingested`, `Committed`, `Shut` and `Dropped` say what a call does to the session's
 * state, what it hands to the detector and the recognizer, and what it returns or raises.
 */
module LiveSession {
  import opened Wrappers
  import opened Basics

  const VAD_WINDOW_SAMPLES := 512

  /** The configured limits in samples and bytes; the inequalities are those the settings enforce. */
  datatype Config = Config(
    maxSessionSamples: int,
    maxUtteranceSamples: int,
    maxChunkBytes: int,
    endSilenceSamples: int,
    analysisSamples: int,
    preRollSamples: int,
    partialMinSamples: int,
    partialIntervalSamples: int)
  {
    predicate Valid() {
      && 0 < maxUtteranceSamples <= maxSessionSamples
      && 0 < maxChunkBytes && 0 < endSilenceSamples
      && 0 < analysisSamples <= maxUtteranceSamples
      && 0 <= preRollSamples
      && 0 < partialMinSamples <= maxUtteranceSamples
      && 0 < partialIntervalSamples
    }
  }

  /** Positions are samples since the start of the session. */
  datatype LiveEvent =
    | SpeechStarted(id: int, start: int)
    | Partial(id: int, revision: int, start: int, end: int, text: string)
    | Final(id: int, revision: int, start: int, end: int, text: string)

  /** The detector's last region, as its end within the analysed audio. */
  datatype Detection = NoRegions | LastRegionEnd(end: nat) | DetectorRaises

  /** InvalidAudio and UncertainLanguage reject; anything else breaks. */
  datatype Decode = Text(text: string) | Rejects | Breaks

  datatype Reply =
    | Events(events: seq<LiveEvent>)
    | SessionClosed
    | InvalidChunk
    | LimitReached
    | DetectorError
    | DecodeRejected
    | DecodeError
  {
    /** The transport goes on after a result and after a rejected decode, and stops at any other error. */
    predicate Recoverable() {
      Events? || DecodeRejected?
    }
  }

  datatype Decoding = Decoding(audio: Pcm, draft: bool)

  datatype Session = Session(
    total: int,
    lastVadTotal: int,
    preRoll: Pcm,
    utterance: Pcm,
    start: int,
    lastSpeech: Option<int>,
    lastPartial: int,
    lastText: string,
    id: int,
    revision: int,
    active: bool,
    closed: bool)

  datatype Step = Step(session: Session, reply: Reply, analysed: Option<Pcm>, decoded: Option<Decoding>)

  /** s[-n:], which is all of s when n is zero. */
  function LastBytes(s: Pcm, n: nat): Pcm {
    if n == 0 || |s| <= n then s else s[|s| - n..]
  }

  function TrimLeft(s: Pcm, n: nat): Pcm {
    if |s| > n then s[|s| - n..] else s
  }

  const OPENED := Session(0, 0, [], [], 0, None, 0, "", 0, 0, false, false)

  // ---- What one call does ----

  function Hear(c: Config, s: Session, chunk: Pcm): Session
    requires c.Valid()
  {
    var counted := s.(total := s.total + |chunk| / 2);
    if s.active then counted.(utterance := s.utterance + chunk)
    else counted.(preRoll := TrimLeft(s.preRoll + chunk, 2 * c.preRollSamples))
  }

  function Start(s: Session): Session {
    s.(active := true, id := s.id + 1, revision := 0, utterance := s.preRoll, start := s.total - |s.preRoll| / 2,
       lastPartial := 0, lastText := "")
  }

  function Detected(s: Session, analysed: Pcm, end: nat): Session {
    var heard := if s.lastSpeech.Some? then s.lastSpeech.value else 0;
    s.(lastSpeech := Some(Max(heard, s.total - |analysed| / 2 + end)))
  }

  function Finish(c: Config, s: Session, events: seq<LiveEvent>, keepTail: bool, analysed: Option<Pcm>, d: Decode): Step
    requires c.Valid()
  {
    var cleared := s.(
      active := false, utterance := [],
      preRoll := if keepTail then LastBytes(s.utterance, 2 * c.preRollSamples) else [],
      lastSpeech := None, lastPartial := 0, lastText := "");
    var decoded := Some(Decoding(s.utterance, false));
    match d
    case Text(text) =>
      Step(cleared.(revision := s.revision + 1),
           Events(events + [Final(s.id, s.revision + 1, s.start, s.start + |s.utterance| / 2, text)]),
           analysed, decoded)
    case Rejects => Step(cleared, DecodeRejected, analysed, decoded)
    case Breaks => Step(cleared, DecodeError, analysed, decoded)
  }

  function Draft(s: Session, events: seq<LiveEvent>, analysed: Option<Pcm>, d: Decode): Step {
    var tried := s.(lastPartial := |s.utterance| / 2);
    var decoded := Some(Decoding(s.utterance, true));
    match d
    case Text(text) =>
      if text == s.lastText then Step(tried, Events(events), analysed, decoded)
      else
        Step(tried.(lastText := text, revision := s.revision + 1),
             Events(events + [Partial(s.id, s.revision + 1, s.start, s.start + |s.utterance| / 2, text)]),
             analysed, decoded)
    case Rejects => Step(tried, Events(events), analysed, decoded)
    case Breaks => Step(tried, DecodeError, analysed, decoded)
  }

  predicate TooLong(c: Config, s: Session) {
    |s.utterance| / 2 >= c.maxUtteranceSamples
  }

  predicate Silent(c: Config, s: Session) {
    s.lastSpeech.Some? && s.total - s.lastSpeech.value >= c.endSilenceSamples
  }

  predicate DraftDue(c: Config, s: Session) {
    |s.utterance| / 2 >= c.partialMinSamples && |s.utterance| / 2 - s.lastPartial >= c.partialIntervalSamples
  }

  function Continue(c: Config, s: Session, events: seq<LiveEvent>, analysed: Option<Pcm>, d: Decode): Step
    requires c.Valid()
  {
    if !s.active then Step(s, Events(events), analysed, None)
    else if TooLong(c, s) then Finish(c, s, events, false, analysed, d)
    else if Silent(c, s) then Finish(c, s, events, true, analysed, d)
    else if DraftDue(c, s) then Draft(s, events, analysed, d)
    else Step(s, Events(events), analysed, None)
  }

  /** The chunk is well-formed and within the limits, so it becomes part of the session's audio. */
  predicate Accepts(c: Config, s: Session, chunk: Pcm) {
    && !s.closed && chunk != []
    && |chunk| <= c.maxChunkBytes && |chunk| % 2 == 0
    && s.total + |chunk| / 2 <= c.maxSessionSamples
  }

  function Analysis(c: Config, s: Session): Pcm
    requires c.Valid()
  {
    LastBytes(if s.active then s.utterance else s.preRoll, 2 * c.analysisSamples)
  }

  function Analyse(c: Config, s: Session, v: Detection, d: Decode): Step
    requires c.Valid()
  {
    var marked := s.(lastVadTotal := s.total);
    var analysed := Analysis(c, s);
    match v
    case DetectorRaises => Step(marked, DetectorError, Some(analysed), None)
    case NoRegions => Continue(c, marked, [], Some(analysed), d)
    case LastRegionEnd(end) =>
      var detected := Detected(marked, analysed, end);
      if s.active then Continue(c, detected, [], Some(analysed), d)
      else
        var started := Start(detected);
        Continue(c, started, [SpeechStarted(started.id, started.start)], Some(analysed), d)
  }

  function Ingested(c: Config, s: Session, chunk: Pcm, v: Detection, d: Decode): Step
    requires c.Valid()
  {
    if s.closed then Step(s, SessionClosed, None, None)
    else if chunk == [] then Step(s, Events([]), None, None)
    else if |chunk| > c.maxChunkBytes || |chunk| % 2 != 0 then Step(s, InvalidChunk, None, None)
    else if s.total + |chunk| / 2 > c.maxSessionSamples then Step(s, LimitReached, None, None)
    else
      var heard := Hear(c, s, chunk);
      if heard.total - heard.lastVadTotal >= VAD_WINDOW_SAMPLES then Analyse(c, heard, v, d)
      else Continue(c, heard, [], None, d)
  }

  function Committed(c: Config, s: Session, d: Decode): Step
    requires c.Valid()
  {
    if s.closed then Step(s, SessionClosed, None, None)
    else if !s.active then Step(s, Events([]), None, None)
    else Finish(c, s, [], false, None, d)
  }

  function Emptied(s: Session): Session {
    s.(closed := true, preRoll := [], utterance := [], active := false, lastSpeech := None)
  }

  /** A decode that raises leaves the session open. */
  function Shut(c: Config, s: Session, d: Decode): Step
    requires c.Valid()
  {
    if s.closed then Step(s, Events([]), None, None)
    else
      var last := Committed(c, s, d);
      if last.reply.Events? then last.(session := Emptied(last.session)) else last
  }

  function Dropped(s: Session): Step {
    Step(Emptied(s), Events([]), None, None)
  }

  datatype Input =
    | Audio(chunk: Pcm, detection: Detection, decode: Decode)
    | Commit(decode: Decode)
    | Close(decode: Decode)
    | Discard

  function Apply(c: Config, s: Session, i: Input): Step
    requires c.Valid()
  {
    match i
    case Audio(chunk, v, d) => Ingested(c, s, chunk, v, d)
    case Commit(d) => Committed(c, s, d)
    case Close(d) => Shut(c, s, d)
    case Discard => Dropped(s)
  }
}
