/**
 * The connection and its session together: the processor hands each message it takes to the session, and the session's
 * answer decides how the processor goes on. Every course of LiveSocket arises with the answers that a session gives.
 */
module LiveDictation {
  import opened Wrappers
  import opened Basics
  import opened LiveSession
  import opened LiveGuarantees
  import Socket = LiveSocket

  /** `inputs` is history: the calls on the session so far, of which it is the outcome. */
  datatype World = World(socket: Socket.Socket, inputs: seq<Input>)

  /** While a message is handled the detector and the recognizer answer, and the reply is delivered or not. */
  datatype Event =
    | Receives(incoming: Socket.Incoming)
    | CancelsReceiver
    | Processes(detection: Detection, decode: Decode, delivered: bool)

  function SessionOf(c: Config, w: World): Session
    requires c.Valid()
  {
    Live(c, w.inputs).session
  }

  /** The message being handled. */
  function InHand(s: Socket.Socket): Option<Socket.Message> {
    if s.processor.Handling? && s.processor.item.Input? then Some(s.processor.item.message) else None
  }

  function CallFor(m: Socket.Message, detection: Detection, decode: Decode): Option<Input> {
    match m
    case Audio(bytes) => Some(Audio(bytes, detection, decode))
    case Commit => Some(Commit(decode))
    case Ping => None
    case Stop => Some(Close(decode))
  }

  /** The call that the next step of the processor makes. */
  function CallNow(w: World, e: Event): Option<Input>
    requires e.Processes?
  {
    if InHand(w.socket).Some? then CallFor(InHand(w.socket).value, e.detection, e.decode)
    else if w.socket.processor.Checking? && w.socket.disconnected then Some(Discard)
    else None
  }

  function HandledBy(c: Config, w: World, e: Event): Socket.Handled
    requires c.Valid() && e.Processes?
  {
    var call := CallNow(w, e);
    if !e.delivered then Socket.Fatally
    else if call.None? then Socket.Normally
    else
      match Apply(c, SessionOf(c, w), call.value).reply
      case Events(_) => Socket.Normally
      case DecodeRejected => Socket.Recovered
      case _ => Socket.Fatally
  }

  function SocketEvent(c: Config, w: World, e: Event): Socket.Event
    requires c.Valid()
  {
    match e
    case Receives(incoming) => Socket.Receives(incoming)
    case CancelsReceiver => Socket.CancelsReceiver
    case Processes(_, _, _) => Socket.Processes(HandledBy(c, w, e))
  }

  function After(c: Config, w: World, e: Event): World
    requires c.Valid()
  {
    var call := if e.Processes? then CallNow(w, e) else None;
    World(Socket.After(w.socket, SocketEvent(c, w, e)), if call.Some? then w.inputs + [call.value] else w.inputs)
  }

  ghost predicate Course(c: Config, ws: seq<World>, es: seq<Event>) {
    && c.Valid() && |ws| == |es| + 1
    && (exists capacity: nat :: capacity > 0 && ws[0] == World(Socket.Opened(capacity, c.maxChunkBytes), []))
    && (forall n :: 0 <= n < |es| ==>
          Socket.Possible(ws[n].socket, SocketEvent(c, ws[n], es[n])) && ws[n + 1] == After(c, ws[n], es[n]))
  }

  // ---- The connection's own courses ----

  ghost function Sockets(ws: seq<World>): (ss: seq<Socket.Socket>)
    ensures |ss| == |ws| && forall n :: 0 <= n < |ss| ==> ss[n] == ws[n].socket
  {
    seq(|ws|, n requires 0 <= n < |ws| => ws[n].socket)
  }

  ghost function SocketEvents(c: Config, ws: seq<World>, es: seq<Event>): (ts: seq<Socket.Event>)
    requires c.Valid() && |ws| == |es| + 1
    ensures |ts| == |es| && forall n :: 0 <= n < |ts| ==> ts[n] == SocketEvent(c, ws[n], es[n])
  {
    seq(|es|, n requires 0 <= n < |es| => SocketEvent(c, ws[n], es[n]))
  }

  /** Whatever is proved of the connection holds of it here. */
  lemma SocketsFormACourse(c: Config, ws: seq<World>, es: seq<Event>)
    requires Course(c, ws, es)
    ensures Socket.Course(Sockets(ws), SocketEvents(c, ws, es))
  {
    var capacity: nat :| capacity > 0 && ws[0] == World(Socket.Opened(capacity, c.maxChunkBytes), []);
    var maxChunkBytes: nat := c.maxChunkBytes;
    assert Sockets(ws)[0] == Socket.Opened(capacity, maxChunkBytes);
  }

  lemma SocketsAreSound(c: Config, ws: seq<World>, es: seq<Event>, n: nat)
    requires Course(c, ws, es) && n < |ws|
    ensures Socket.Sound(ws[n].socket)
  {
    SocketsFormACourse(c, ws, es);
    Socket.CoursesAreSound(Sockets(ws), SocketEvents(c, ws, es), n);
  }

  // ---- No audio is lost on the way to the session ----

  function AudioOf(ms: seq<Socket.Message>): Pcm {
    if ms == [] then []
    else AudioOf(ms[..|ms| - 1]) + (if ms[|ms| - 1].Audio? then ms[|ms| - 1].bytes else [])
  }

  lemma AudioOneMore(ms: seq<Socket.Message>, m: Socket.Message)
    ensures AudioOf(ms + [m]) == AudioOf(ms) + (if m.Audio? then m.bytes else [])
  {
    assert (ms + [m])[..|ms|] == ms;
  }

  /** What has been taken and handled. */
  function HandledMessages(s: Socket.Socket): seq<Socket.Message> {
    if InHand(s).Some? && s.taken != [] then s.taken[..|s.taken| - 1] else s.taken
  }

  predicate WellFormed(c: Config, ms: seq<Socket.Message>) {
    forall k :: 0 <= k < |ms| && ms[k].Audio? ==> |ms[k].bytes| <= c.maxChunkBytes && |ms[k].bytes| % 2 == 0
  }

  /** While the processor goes on, the session is open and has exactly the audio of the messages handled. */
  ghost predicate Fed(c: Config, w: World)
    requires c.Valid()
  {
    var j := Live(c, w.inputs);
    && w.socket.maxChunkBytes == c.maxChunkBytes && WellFormed(c, w.socket.accepted)
    && (!w.socket.processor.Ended? ==>
          !j.session.closed && !j.stopped && j.stream == AudioOf(HandledMessages(w.socket)))
    && j.stream <= AudioOf(w.socket.taken)
  }

  function BytesOf(m: Socket.Message): Pcm {
    if m.Audio? then m.bytes else []
  }

  lemma AcceptedOrRefused(c: Config, s: Session, chunk: Pcm, v: Detection, d: Decode)
    requires c.Valid() && !s.closed && |chunk| <= c.maxChunkBytes && |chunk| % 2 == 0
    requires Apply(c, s, Audio(chunk, v, d)).reply.Recoverable()
    ensures chunk == [] || TakesIn(c, s, Audio(chunk, v, d))
  {
  }

  lemma SessionsStayOpen(c: Config, s: Session, i: Input)
    requires c.Valid() && !s.closed && !i.Discard?
    requires i.Close? ==> !Apply(c, s, i).reply.Events?
    ensures !Apply(c, s, i).session.closed
  {
  }

  /** A message that is handled without a fatal error has fed all of its audio, and no message feeds anything else. */
  lemma MessageFeedsItsAudio(c: Config, inputs: seq<Input>, m: Socket.Message, v: Detection, d: Decode)
    requires c.Valid() && CallFor(m, v, d).Some? && WellFormed(c, [m]) && !Live(c, inputs).session.closed
    ensures var i := CallFor(m, v, d).value;
            var j := Live(c, inputs);
            var k := Live(c, inputs + [i]);
            var reply := Apply(c, j.session, i).reply;
            && k.stream <= j.stream + BytesOf(m)
            && (k.stopped <==> j.stopped || !reply.Recoverable())
            && (reply.Recoverable() ==> k.stream == j.stream + BytesOf(m))
            && (reply.Recoverable() && (m.Stop? ==> !reply.Events?) ==> !k.session.closed)
  {
    var i := CallFor(m, v, d).value;
    var j := Live(c, inputs);
    CallsGoOn(c, inputs, i);
    assert [m][0] == m;
    var reply := Apply(c, j.session, i).reply;
    if reply.Recoverable() {
      if m.Audio? {
        AcceptedOrRefused(c, j.session, m.bytes, v, d);
      }
      if m.Stop? ==> !reply.Events? {
        SessionsStayOpen(c, j.session, i);
      }
    }
  }

  lemma InHandWasTakenLast(c: Config, s: Socket.Socket)
    requires Socket.Sound(s) && InHand(s).Some? && WellFormed(c, s.accepted)
    ensures s.taken == HandledMessages(s) + [InHand(s).value] && WellFormed(c, [InHand(s).value])
    ensures AudioOf(s.taken) == AudioOf(HandledMessages(s)) + BytesOf(InHand(s).value)
  {
    var m := InHand(s).value;
    AudioOneMore(HandledMessages(s), m);
    assert s.accepted[|s.taken| - 1] == m;
  }

  lemma HandlingMovesOn(s: Socket.Socket, handled: Socket.Handled)
    requires InHand(s).Some?
    ensures var t := Socket.Process(s, handled);
            && t.taken == s.taken && t.accepted == s.accepted && t.maxChunkBytes == s.maxChunkBytes
            && (t.processor.Ended? || t.processor.Checking?)
            && (t.processor.Checking? ==> !handled.Fatally? && (InHand(s).value.Stop? ==> !handled.Normally?))
  {
  }

  /** The next step is described by what the session's stream and the processor have become. */
  lemma FedAfterHandling(c: Config, w: World, e: Event, k: Journal)
    requires c.Valid() && Fed(c, w) && e.Processes? && InHand(w.socket).Some? && !w.socket.processor.Ended?
    requires k == Live(c, After(c, w, e).inputs)
    requires AudioOf(w.socket.taken) == AudioOf(HandledMessages(w.socket)) + BytesOf(InHand(w.socket).value)
    requires k.stream <= Live(c, w.inputs).stream + BytesOf(InHand(w.socket).value)
    requires var handled := HandledBy(c, w, e);
             !handled.Fatally? && (InHand(w.socket).value.Stop? ==> !handled.Normally?) ==>
               && !k.session.closed && !k.stopped
               && k.stream == Live(c, w.inputs).stream + BytesOf(InHand(w.socket).value)
    ensures Fed(c, After(c, w, e))
  {
    HandlingMovesOn(w.socket, HandledBy(c, w, e));
  }

  lemma HandlingFeeds(c: Config, w: World, e: Event)
    requires c.Valid() && Socket.Sound(w.socket) && Fed(c, w) && e.Processes? && InHand(w.socket).Some?
    ensures Fed(c, After(c, w, e))
  {
    var m := InHand(w.socket).value;
    InHandWasTakenLast(c, w.socket);
    if CallFor(m, e.detection, e.decode).Some? {
      MessageFeedsItsAudio(c, w.inputs, m, e.detection, e.decode);
    }
    FedAfterHandling(c, w, e, Live(c, After(c, w, e).inputs));
  }

  lemma TakingMovesOn(s: Socket.Socket, handled: Socket.Handled)
    requires s.processor.Getting?
    ensures var t := Socket.Process(s, handled);
            && HandledMessages(t) == s.taken && AudioOf(s.taken) <= AudioOf(t.taken)
            && t.accepted == s.accepted && t.maxChunkBytes == s.maxChunkBytes && !t.processor.Ended?
  {
    if s.queue != [] && s.queue[0].Input? {
      AudioOneMore(s.taken, s.queue[0].message);
      assert (s.taken + [s.queue[0].message])[..|s.taken|] == s.taken;
    }
  }

  lemma TakingFeeds(c: Config, w: World, e: Event)
    requires c.Valid() && Fed(c, w) && e.Processes? && w.socket.processor.Getting?
    ensures Fed(c, After(c, w, e))
  {
    TakingMovesOn(w.socket, HandledBy(c, w, e));
    assert CallNow(w, e).None? && HandledMessages(w.socket) == w.socket.taken;
  }

  lemma DiscardingFeedsNothing(c: Config, inputs: seq<Input>)
    requires c.Valid()
    ensures Live(c, inputs + [Discard]).stream == Live(c, inputs).stream
  {
    CallsGoOn(c, inputs, Discard);
  }

  lemma CheckingFeeds(c: Config, w: World, e: Event)
    requires c.Valid() && Fed(c, w) && e.Processes? && InHand(w.socket).None? && !w.socket.processor.Getting?
    requires !w.socket.processor.Ended?
    ensures Fed(c, After(c, w, e))
  {
    DiscardingFeedsNothing(c, w.inputs);
    var t := After(c, w, e).socket;
    assert t == w.socket.(processor := t.processor)
      && (t.processor.Checking? || t.processor.Getting? || t.processor.Ended?);
    assert CallNow(w, e).Some? ==> t.processor.Ended?;
  }

  lemma ReceivingFeeds(c: Config, w: World, e: Event)
    requires c.Valid() && Socket.Sound(w.socket) && Fed(c, w) && !e.Processes?
    requires Socket.Possible(w.socket, SocketEvent(c, w, e))
    ensures Fed(c, After(c, w, e))
  {
    if e.Receives? {
      Socket.ReceivingIsInOrder(w.socket, e.incoming);
    }
  }

  lemma {:induction false} CoursesAreFed(c: Config, ws: seq<World>, es: seq<Event>, n: nat)
    requires Course(c, ws, es) && n < |ws|
    ensures Fed(c, ws[n])
  {
    if n > 0 {
      var w, e := ws[n - 1], es[n - 1];
      CoursesAreFed(c, ws, es, n - 1);
      SocketsAreSound(c, ws, es, n - 1);
      if !e.Processes? {
        ReceivingFeeds(c, w, e);
      } else if InHand(w.socket).Some? {
        HandlingFeeds(c, w, e);
      } else if w.socket.processor.Getting? {
        TakingFeeds(c, w, e);
      } else {
        CheckingFeeds(c, w, e);
      }
    }
  }

  /**
   * The session's stream is a gap-free prefix of the audio that the client sent, and as long as the processor goes on
   * it is exactly the audio of the messages handled so far.
   */
  lemma SessionHearsWhatWasSent(c: Config, ws: seq<World>, es: seq<Event>, n: nat)
    requires Course(c, ws, es) && n < |ws|
    ensures var j := Live(c, ws[n].inputs);
            && j.stream <= AudioOf(ws[n].socket.accepted)
            && (!ws[n].socket.processor.Ended? ==> j.stream == AudioOf(HandledMessages(ws[n].socket)))
  {
    var s := ws[n].socket;
    CoursesAreFed(c, ws, es, n);
    SocketsAreSound(c, ws, es, n);
    AudioOfConcat(s.taken, Socket.Messages(s.queue));
  }

  lemma {:induction false} AudioOfConcat(a: seq<Socket.Message>, b: seq<Socket.Message>)
    ensures AudioOf(a + b) == AudioOf(a) + AudioOf(b)
  {
    if b == [] {
      assert a + b == a;
    } else {
      assert (a + b)[..|a + b| - 1] == a + b[..|b| - 1];
      AudioOfConcat(a, b[..|b| - 1]);
    }
  }

  // ---- When the connection hangs ----

  /** A stop is handled in mid-speech, the final decode is rejected, and the client is told so. */
  predicate StopRejected(c: Config, w: World, e: Event)
    requires c.Valid()
  {
    && e.Processes? && e.delivered && InHand(w.socket) == Some(Socket.Stop)
    && SessionOf(c, w).active && e.decode.Rejects?
  }

  lemma RejectedStopsAreNoticed(c: Config, w: World, e: Event)
    requires c.Valid() && Socket.Sound(w.socket) && Fed(c, w) && Socket.Possible(w.socket, SocketEvent(c, w, e))
    ensures After(c, w, e).socket.stopRejected <==> w.socket.stopRejected || StopRejected(c, w, e)
  {
    if e.Processes? && InHand(w.socket) == Some(Socket.Stop) {
      ClosingIsRejectedInSpeech(c, SessionOf(c, w), e.decode);
    }
  }

  lemma RejectedStopIsNoticed(c: Config, ws: seq<World>, es: seq<Event>, n: nat)
    requires Course(c, ws, es) && n < |es|
    ensures ws[n + 1].socket.stopRejected <==> ws[n].socket.stopRejected || StopRejected(c, ws[n], es[n])
  {
    CoursesAreFed(c, ws, es, n);
    SocketsAreSound(c, ws, es, n);
    RejectedStopsAreNoticed(c, ws[n], es[n]);
  }

  ghost predicate StopWasRejected(c: Config, ws: seq<World>, es: seq<Event>, n: nat)
    requires c.Valid() && n <= |es| <= |ws|
  {
    exists k :: 0 <= k < n && StopRejected(c, ws[k], es[k])
  }

  lemma {:induction false} RejectedStopsAreRemembered(c: Config, ws: seq<World>, es: seq<Event>, n: nat)
    requires Course(c, ws, es) && n < |ws|
    ensures ws[n].socket.stopRejected <==> StopWasRejected(c, ws, es, n)
  {
    if n > 0 {
      RejectedStopsAreRemembered(c, ws, es, n - 1);
      RejectedStopIsNoticed(c, ws, es, n - 1);
      assert StopRejected(c, ws[n - 1], es[n - 1]) ==> StopWasRejected(c, ws, es, n);
    }
  }

  /**
   * A waiting processor waits for good, on a queue that nobody will fill, if and only if a stop came while the session
   * was in mid-speech and the final decode was rejected as invalid audio or uncertain language.
   */
  lemma HangsExactlyWhenSpeechIsRejected(c: Config, ws: seq<World>, es: seq<Event>, n: nat)
    requires Course(c, ws, es) && n < |ws| && ws[n].socket.processor.Getting?
    ensures Socket.Hangs(ws[n].socket) <==> StopWasRejected(c, ws, es, n)
  {
    SocketsFormACourse(c, ws, es);
    Socket.HangsExactlyAfterARejectedStop(Sockets(ws), SocketEvents(c, ws, es), n);
    RejectedStopsAreRemembered(c, ws, es, n);
  }

  // ---- A course that hangs ----

  const ORDINARY := Config(100_000, 50_000, 4096, 8000, 16_000, 4000, 8000, 8000)

  /** One detector window of audio, heard as speech. */
  function Window(): Pcm {
    seq(2 * VAD_WINDOW_SAMPLES, _ => 0)
  }

  const SPEECH := Audio(Window(), LastRegionEnd(VAD_WINDOW_SAMPLES), Text(""))

  lemma SpeechBegins()
    ensures var step := Apply(ORDINARY, OPENED, SPEECH);
            step.reply.Events? && step.session.active && !step.session.closed
    ensures Live(ORDINARY, [SPEECH]).session == Apply(ORDINARY, OPENED, SPEECH).session
  {
    assert |Window()| == 1024;
    var heard := Hear(ORDINARY, OPENED, Window());
    assert heard.total == 512 && |heard.preRoll| == 1024 && |Analysis(ORDINARY, heard)| == 1024;
    CallsGoOn(ORDINARY, [], SPEECH);
    assert [] + [SPEECH] == [SPEECH];
  }

  function HangingEvents(): seq<Event> {
    var any := Processes(NoRegions, Rejects, true);
    [Receives(Socket.Binary(Window())), any, any, Processes(LastRegionEnd(VAD_WINDOW_SAMPLES), Text(""), true),
     Receives(Socket.Control(Socket.Stop)), any, any, any, any]
  }

  function HangingWorlds(): seq<World> {
    var audio := Socket.Audio(Window());
    var start := Socket.Opened(1, ORDINARY.maxChunkBytes);
    var sent := start.(queue := [Socket.Input(audio)], accepted := [audio]);
    var inHand := start.(accepted := [audio], taken := [audio], processor := Socket.Handling(Socket.Input(audio)));
    var heard := inHand.(processor := Socket.Checking);
    var stopped := heard.(queue := [Socket.Input(Socket.Stop)], accepted := [audio, Socket.Stop],
                          receiverEnded := true);
    var stopping := stopped.(queue := [], taken := [audio, Socket.Stop],
                             processor := Socket.Handling(Socket.Input(Socket.Stop)));
    var rejected := stopping.(processor := Socket.Checking, stopRejected := true);
    [World(start, []), World(sent, []), World(sent.(processor := Socket.Getting), []), World(inHand, []),
     World(heard, [SPEECH]), World(stopped, [SPEECH]), World(stopped.(processor := Socket.Getting), [SPEECH]),
     World(stopping, [SPEECH]), World(rejected, [SPEECH, Close(Rejects)]),
     World(rejected.(processor := Socket.Getting), [SPEECH, Close(Rejects)])]
  }

  lemma ReceivingLeadsOn(n: nat)
    requires n in {0, 4}
    ensures HangingWorlds()[n + 1] == After(ORDINARY, HangingWorlds()[n], HangingEvents()[n])
  {
    assert |Window()| == 1024;
  }

  lemma WaitingLeadsOn(n: nat)
    requires n in {1, 2, 5, 6, 8}
    ensures HangingWorlds()[n + 1] == After(ORDINARY, HangingWorlds()[n], HangingEvents()[n])
  {
  }

  lemma HearingLeadsOn()
    ensures HangingWorlds()[4] == After(ORDINARY, HangingWorlds()[3], HangingEvents()[3])
  {
    SpeechBegins();
    assert HandledBy(ORDINARY, HangingWorlds()[3], HangingEvents()[3]) == Socket.Normally;
  }

  lemma RejectingLeadsOn()
    ensures StopRejected(ORDINARY, HangingWorlds()[7], HangingEvents()[7])
    ensures HangingWorlds()[8] == After(ORDINARY, HangingWorlds()[7], HangingEvents()[7])
  {
    SpeechBegins();
    ClosingIsRejectedInSpeech(ORDINARY, Live(ORDINARY, [SPEECH]).session, Rejects);
    assert HandledBy(ORDINARY, HangingWorlds()[7], HangingEvents()[7]) == Socket.Recovered;
  }

  lemma HangingWorldsAreACourse()
    ensures Course(ORDINARY, HangingWorlds(), HangingEvents())
  {
    forall n | 0 <= n < 9
      ensures HangingWorlds()[n + 1] == After(ORDINARY, HangingWorlds()[n], HangingEvents()[n])
    {
      if n in {0, 4} {
        ReceivingLeadsOn(n);
      } else if n == 3 {
        HearingLeadsOn();
      } else if n == 7 {
        RejectingLeadsOn();
      }
      else { WaitingLeadsOn(n); }
    }
    var capacity: nat := 1;
    assert HangingWorlds()[0] == World(Socket.Opened(capacity, ORDINARY.maxChunkBytes), []);
  }

  /** It does happen: a client speaks for one detector window and stops, and the decode of that much is rejected. */
  lemma RejectedSpeechHangs()
    ensures Course(ORDINARY, HangingWorlds(), HangingEvents())
    ensures |HangingWorlds()| == 10 && Socket.Hangs(HangingWorlds()[9].socket)
  {
    HangingWorldsAreACourse();
  }
}
