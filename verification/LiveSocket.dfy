/** The two tasks behind a live WebSocket: a receiver that never waits for the queue and a processor that does. */
module LiveSocket {
  import opened Wrappers
  import opened Basics

  datatype Message = Audio(bytes: Pcm) | Commit | Ping | Stop

  datatype Item = Input(message: Message) | Wake

  /** What one receive call yields. */
  datatype Incoming =
    | IdleTimeout
    | Disconnect
    | Binary(bytes: Pcm)
    | Control(message: Message)
    | BadControl
    | Unsupported

  datatype Failure = TimedOut | TooLarge | Malformed | TooFast

  /** How handling an item ends: normally or after a recoverable error, or with the connection closed. */
  datatype Handled = Normally | Recovered | Fatally

  datatype Point =
    | Checking
    | Getting
    | Handling(item: Item)
    | Ended

  /** `accepted`, `taken`, `lateTakes` and `stopRejected` are history. */
  datatype Socket = Socket(
    capacity: nat,
    maxChunkBytes: nat,
    queue: seq<Item>,
    disconnected: bool,
    failure: Option<Failure>,
    receiverEnded: bool,
    processor: Point,
    accepted: seq<Message>,
    taken: seq<Message>,
    lateTakes: nat,
    stopRejected: bool)
  {
    predicate Flagged() {
      disconnected || failure.Some?
    }
  }

  datatype Event =
    | Receives(incoming: Incoming)
    | CancelsReceiver
    | Processes(handled: Handled)

  // ---- One step of each task ----

  /** _wake: put if there is room, otherwise the processor has something to take anyway. */
  function Woken(s: Socket): Socket {
    if |s.queue| < s.capacity then s.(queue := s.queue + [Wake], receiverEnded := true) else s.(receiverEnded := true)
  }

  function Put(s: Socket, m: Message): Socket {
    if |s.queue| < s.capacity then
      s.(queue := s.queue + [Input(m)], accepted := s.accepted + [m], receiverEnded := m.Stop?)
    else s.(failure := Some(TooFast), receiverEnded := true)
  }

  function Receive(s: Socket, incoming: Incoming): Socket {
    match incoming
    case IdleTimeout => Woken(s.(failure := Some(TimedOut)))
    case Disconnect => Woken(s.(disconnected := true))
    case Binary(bytes) =>
      if |bytes| > s.maxChunkBytes then Woken(s.(failure := Some(TooLarge)))
      else if |bytes| % 2 != 0 then Woken(s.(failure := Some(Malformed)))
      else Put(s, Audio(bytes))
    case Control(message) => Put(s, message)
    case BadControl => Woken(s.(failure := Some(Malformed)))
    case Unsupported => Woken(s.(failure := Some(Malformed)))
  }

  function Process(s: Socket, handled: Handled): Socket {
    match s.processor
    case Checking => s.(processor := if s.Flagged() then Ended else Getting)
    case Getting =>
      if s.queue == [] then s
      else
        s.(processor := Handling(s.queue[0]),
           queue := s.queue[1..],
           taken := if s.queue[0].Input? then s.taken + [s.queue[0].message] else s.taken,
           lateTakes := if s.Flagged() then s.lateTakes + 1 else s.lateTakes)
    case Handling(item) =>
      if item.Wake? || (item.message.Ping? && handled.Normally?) then s.(processor := Checking)
      else if handled.Fatally? then s.(processor := Ended)
      else if item.message.Stop? then
        // A rejected final decode is reported, and the loop goes on as after any recoverable error.
        if handled.Normally? then s.(processor := Ended) else s.(processor := Checking, stopRejected := true)
      else s.(processor := Checking)
    case Ended => s
  }

  predicate Possible(s: Socket, e: Event) {
    match e
    case Receives(incoming) =>
      !s.receiverEnded && (incoming.Control? ==> !incoming.message.Audio?)
    case CancelsReceiver => s.processor.Ended?
    case Processes(_) => !s.processor.Ended?
  }

  function After(s: Socket, e: Event): Socket {
    match e
    case Receives(incoming) => Receive(s, incoming)
    case CancelsReceiver => s.(receiverEnded := true)
    case Processes(handled) => Process(s, handled)
  }

  function Opened(capacity: nat, maxChunkBytes: nat): Socket {
    Socket(capacity, maxChunkBytes, [], false, None, false, Checking, [], [], 0, false)
  }

  ghost predicate Course(ss: seq<Socket>, es: seq<Event>) {
    && |ss| == |es| + 1
    && (exists capacity: nat, maxChunkBytes: nat :: capacity > 0 && ss[0] == Opened(capacity, maxChunkBytes))
    && (forall i :: 0 <= i < |es| ==> Possible(ss[i], es[i]) && ss[i + 1] == After(ss[i], es[i]))
  }

  // ---- What holds in every interleaving ----

  function Messages(queue: seq<Item>): seq<Message> {
    if queue == [] then []
    else Messages(queue[..|queue| - 1]) + (if queue[|queue| - 1].Input? then [queue[|queue| - 1].message] else [])
  }

  lemma MessagesOneMore(queue: seq<Item>, item: Item)
    ensures Messages(queue + [item]) == Messages(queue) + (if item.Input? then [item.message] else [])
  {
    assert (queue + [item])[..|queue|] == queue;
  }

  lemma {:induction false} MessagesOfTail(queue: seq<Item>)
    requires queue != []
    ensures Messages(queue) == (if queue[0].Input? then [queue[0].message] else []) + Messages(queue[1..])
  {
    if |queue| > 1 {
      var front := queue[..|queue| - 1];
      MessagesOfTail(front);
      assert front[1..] == queue[1..][..|queue| - 2];
    }
  }

  ghost predicate EndsWithStop(ms: seq<Message>) {
    ms != [] && ms[|ms| - 1].Stop?
  }

  /** Nothing is accepted after a stop, which ends the receiver without a flag. */
  ghost predicate StopIsLast(s: Socket) {
    && (forall i :: 0 <= i < |s.accepted| - 1 ==> !s.accepted[i].Stop?)
    && (EndsWithStop(s.accepted) ==> s.receiverEnded && !s.Flagged())
    && (EndsWithStop(s.taken) ==> s.queue == [] && EndsWithStop(s.accepted))
  }

  /** What the processor is doing agrees with what it took last. */
  ghost predicate HandlingOk(s: Socket) {
    && (s.processor.Handling? && s.processor.item.Input? ==>
         s.taken != [] && s.taken[|s.taken| - 1] == s.processor.item.message)
    && (s.processor.Handling? && EndsWithStop(s.taken) ==> s.processor.item == Input(Stop))
    && ((s.processor.Checking? || s.processor.Getting?) ==> (s.stopRejected <==> EndsWithStop(s.taken)))
    && (s.stopRejected ==> EndsWithStop(s.taken))
  }

  /** A flag or a stop ends the receiver; after a flag there is an item to take, and at most one more is taken. */
  ghost predicate FlagsOk(s: Socket) {
    && (s.Flagged() ==> s.receiverEnded)
    && (s.receiverEnded && !s.processor.Ended? ==> s.Flagged() || EndsWithStop(s.accepted))
    && (!s.Flagged() ==> s.lateTakes == 0 && forall i :: 0 <= i < |s.queue| ==> s.queue[i].Input?)
    && s.lateTakes + (if s.processor.Getting? then 1 else 0) <= 1
    && (s.Flagged() && s.processor.Getting? ==> s.queue != [])
  }

  ghost predicate Sound(s: Socket) {
    && 0 < s.capacity && |s.queue| <= s.capacity
    && s.taken + Messages(s.queue) == s.accepted
    && StopIsLast(s) && HandlingOk(s) && FlagsOk(s)
  }

  lemma WakingAppends(s: Socket)
    ensures Messages(Woken(s).queue) == Messages(s.queue)
  {
    MessagesOneMore(s.queue, Wake);
  }

  lemma WakingKeepsFlags(s: Socket, t: Socket)
    requires FlagsOk(s) && HandlingOk(s) && StopIsLast(s) && !s.receiverEnded && t.Flagged() && 0 < s.capacity
    requires t == s.(failure := t.failure, disconnected := t.disconnected)
    ensures FlagsOk(Woken(t)) && HandlingOk(Woken(t)) && StopIsLast(Woken(t))
  {
    assert !EndsWithStop(s.accepted) && !EndsWithStop(s.taken);
  }

  lemma WakingIsSound(s: Socket, t: Socket)
    requires Sound(s) && !s.receiverEnded && t.Flagged()
    requires t == s.(failure := t.failure, disconnected := t.disconnected)
    ensures Sound(Woken(t))
  {
    WakingAppends(t);
    WakingKeepsFlags(s, t);
  }

  lemma PuttingAppends(s: Socket, m: Message)
    requires s.taken + Messages(s.queue) == s.accepted
    ensures var t := Put(s, m);
            && t.taken == s.taken && t.taken + Messages(t.queue) == t.accepted
            && t.accepted == s.accepted + (if |s.queue| < s.capacity then [m] else [])
            && (t.failure == Some(TooFast) <==> |s.queue| >= s.capacity || s.failure == Some(TooFast))
            && (|s.queue| >= s.capacity ==> t.queue == s.queue)
  {
    MessagesOneMore(s.queue, Input(m));
    assert s.taken + (Messages(s.queue) + [m]) == (s.taken + Messages(s.queue)) + [m];
  }

  lemma PuttingKeepsStopLast(s: Socket, m: Message)
    requires StopIsLast(s) && !s.receiverEnded && !s.Flagged()
    ensures StopIsLast(Put(s, m))
  {
    var t := Put(s, m);
    assert !EndsWithStop(s.accepted) && !EndsWithStop(s.taken);
    forall i | 0 <= i < |t.accepted| - 1 ensures !t.accepted[i].Stop? {
      assert t.accepted[i] == s.accepted[i];
    }
  }

  lemma PuttingKeepsFlags(s: Socket, m: Message)
    requires FlagsOk(s) && HandlingOk(s) && !s.receiverEnded && 0 < s.capacity
    ensures FlagsOk(Put(s, m)) && HandlingOk(Put(s, m))
  {
  }

  lemma PuttingIsSound(s: Socket, m: Message)
    requires Sound(s) && !s.receiverEnded
    ensures Sound(Put(s, m))
  {
    PuttingAppends(s, m);
    PuttingKeepsStopLast(s, m);
    PuttingKeepsFlags(s, m);
  }

  lemma ReceivingIsSound(s: Socket, incoming: Incoming)
    requires Sound(s) && !s.receiverEnded
    ensures Sound(Receive(s, incoming))
  {
    match incoming
    case Control(message) => PuttingIsSound(s, message);
    case Disconnect => WakingIsSound(s, s.(disconnected := true));
    case Binary(bytes) =>
      if |bytes| > s.maxChunkBytes {
        WakingIsSound(s, s.(failure := Some(TooLarge)));
      } else if |bytes| % 2 != 0 {
        WakingIsSound(s, s.(failure := Some(Malformed)));
      } else {
        PuttingIsSound(s, Audio(bytes));
      }
    case IdleTimeout => WakingIsSound(s, s.(failure := Some(TimedOut)));
    case _ => WakingIsSound(s, s.(failure := Some(Malformed)));
  }

  lemma TakingKeepsOrder(s: Socket, handled: Handled)
    requires s.taken + Messages(s.queue) == s.accepted && s.processor.Getting? && s.queue != []
    ensures var t := Process(s, handled);
            t.accepted == s.accepted && t.taken + Messages(t.queue) == t.accepted
  {
    MessagesOfTail(s.queue);
    var first := if s.queue[0].Input? then [s.queue[0].message] else [];
    assert s.taken + (first + Messages(s.queue[1..])) == (s.taken + first) + Messages(s.queue[1..]);
    assert s.taken + [] == s.taken;
  }

  lemma {:induction false} OnlyWakesAreSilent(queue: seq<Item>)
    requires Messages(queue) == [] && forall i :: 0 <= i < |queue| ==> queue[i].Input?
    ensures queue == []
  {
  }

  /** A stop that is taken was the last thing in the queue. */
  lemma StopIsTakenLast(s: Socket, handled: Handled)
    requires Sound(s) && s.processor.Getting? && s.queue != []
    requires EndsWithStop(Process(s, handled).taken)
    ensures Process(s, handled).queue == [] && EndsWithStop(s.accepted)
  {
    var t := Process(s, handled);
    TakingKeepsOrder(s, handled);
    assert s.accepted[|t.taken| - 1] == t.taken[|t.taken| - 1];
    assert |t.taken| == |s.accepted|;
    OnlyWakesAreSilent(t.queue);
  }

  lemma TakingIsSound(s: Socket, handled: Handled)
    requires Sound(s) && s.processor.Getting? && s.queue != []
    ensures Sound(Process(s, handled))
  {
    TakingKeepsOrder(s, handled);
    if EndsWithStop(Process(s, handled).taken) {
      StopIsTakenLast(s, handled);
    }
  }

  lemma MovingOnIsSound(s: Socket, handled: Handled)
    requires FlagsOk(s) && HandlingOk(s) && StopIsLast(s) && !s.processor.Ended? && !s.processor.Getting?
    ensures var t := Process(s, handled);
            && t == s.(processor := t.processor, stopRejected := t.stopRejected)
            && FlagsOk(t) && HandlingOk(t) && StopIsLast(t)
  {
  }

  lemma ProcessingIsSound(s: Socket, handled: Handled)
    requires Sound(s) && !s.processor.Ended?
    ensures Sound(Process(s, handled))
  {
    if !s.processor.Getting? {
      MovingOnIsSound(s, handled);
    } else if s.queue != [] {
      TakingIsSound(s, handled);
    }
  }

  lemma {:induction false} CoursesAreSound(ss: seq<Socket>, es: seq<Event>, n: nat)
    requires Course(ss, es) && n < |ss|
    ensures Sound(ss[n])
  {
    if n > 0 {
      CoursesAreSound(ss, es, n - 1);
      match es[n - 1]
      case Receives(incoming) => ReceivingIsSound(ss[n - 1], incoming);
      case Processes(handled) => ProcessingIsSound(ss[n - 1], handled);
      case CancelsReceiver =>
    }
  }

  // ---- The connection object ----

  /** The valid message that a receive call yields, if it yields one. */
  function MessageOf(incoming: Incoming, maxChunkBytes: nat): Option<Message> {
    match incoming
    case Binary(bytes) => if |bytes| <= maxChunkBytes && |bytes| % 2 == 0 then Some(Audio(bytes)) else None
    case Control(message) => Some(message)
    case _ => None
  }

  /** What a pass of the receiver does: a valid message goes last if there is room, and anything else is flagged. */
  ghost predicate ReceivedInOrder(s: Socket, incoming: Incoming, t: Socket) {
    var m := MessageOf(incoming, s.maxChunkBytes);
    var queued := m.Some? && |s.queue| < s.capacity;
    && t.taken == s.taken && t.processor == s.processor
    && t.accepted == s.accepted + (if queued then [m.value] else [])
    && (t.receiverEnded <==> !queued || m.value.Stop?) && (t.Flagged() <==> !queued)
  }

  lemma ReceivingIsInOrder(s: Socket, incoming: Incoming)
    requires Sound(s) && !s.receiverEnded
    ensures ReceivedInOrder(s, incoming, Receive(s, incoming))
  {
  }

  class Connection {
    const capacity: nat
    const maxChunkBytes: nat
    var queue: seq<Item>
    var disconnected: bool
    var failure: Option<Failure>
    var receiverEnded: bool
    var processor: Point
    ghost var accepted: seq<Message>
    ghost var taken: seq<Message>
    ghost var lateTakes: nat
    ghost var stopRejected: bool

    ghost function State(): Socket
      reads this
    {
      Socket(capacity, maxChunkBytes, queue, disconnected, failure, receiverEnded, processor,
             accepted, taken, lateTakes, stopRejected)
    }

    /** Flags, queue and processor agree, and what was taken and what is queued is what was accepted, in order. */
    ghost predicate Valid()
      reads this
    {
      Sound(State())
    }

    constructor (capacity: nat, maxChunkBytes: nat)
      requires capacity > 0
      ensures State() == Opened(capacity, maxChunkBytes) && Valid()
    {
      this.capacity, this.maxChunkBytes := capacity, maxChunkBytes;
      queue, disconnected, failure, receiverEnded, processor := [], false, None, false, Checking;
      accepted, taken, lateTakes, stopRejected := [], [], 0, false;
    }

    method WakeProcessor()
      modifies this
      ensures State() == Woken(old(State()))
    {
      if |queue| < capacity {
        queue := queue + [Wake];
      }
      receiverEnded := true;
    }

    method PutNowait(m: Message)
      modifies this
      ensures State() == Put(old(State()), m)
    {
      if |queue| < capacity {
        queue := queue + [Input(m)];
        accepted := accepted + [m];
        receiverEnded := m.Stop?;
      } else {
        failure, receiverEnded := Some(TooFast), true;
      }
    }

    /**
     * One pass of the receiver's loop. A valid message is queued behind the others unless the queue is full, and
     * anything but a queued message that is no stop ends the receiver.
     */
    method ReceiveOne(incoming: Incoming)
      requires Valid() && !receiverEnded
      modifies this
      ensures Valid() && taken + Messages(queue) == accepted
      ensures ReceivedInOrder(old(State()), incoming, State())
      ensures State() == Receive(old(State()), incoming)
    {
      ReceivingIsSound(State(), incoming);
      ReceivingIsInOrder(State(), incoming);
      Heed(incoming);
    }

    method Heed(incoming: Incoming)
      modifies this
      ensures State() == Receive(old(State()), incoming)
    {
      match incoming {
        case IdleTimeout =>
          failure := Some(TimedOut);
          WakeProcessor();
        case Disconnect =>
          disconnected := true;
          WakeProcessor();
        case Binary(bytes) =>
          if |bytes| > maxChunkBytes {
            failure := Some(TooLarge);
            WakeProcessor();
          } else if |bytes| % 2 != 0 {
            failure := Some(Malformed);
            WakeProcessor();
          } else {
            PutNowait(Audio(bytes));
          }
        case Control(message) => PutNowait(message);
        case BadControl =>
          failure := Some(Malformed);
          WakeProcessor();
        case Unsupported =>
          failure := Some(Malformed);
          WakeProcessor();
      }
    }

    method Take()
      requires queue != [] && processor.Getting?
      modifies this
      ensures State() == Process(old(State()), Normally)
    {
      var item := queue[0];
      queue, processor := queue[1..], Handling(item);
      taken := if item.Input? then taken + [item.message] else taken;
      lateTakes := if disconnected || failure.Some? then lateTakes + 1 else lateTakes;
    }

    /** The processor up to its next point of suspension: it takes at most one message, the oldest one queued. */
    method ProcessOne(handled: Handled)
      requires Valid() && !processor.Ended?
      modifies this
      ensures Valid() && accepted == old(accepted) && taken + Messages(queue) == accepted
      ensures old(taken) <= taken && |taken| <= |old(taken)| + 1 && lateTakes <= 1
      ensures State() == Process(old(State()), handled)
    {
      ProcessingIsSound(State(), handled);
      match processor {
        case Checking => processor := if disconnected || failure.Some? then Ended else Getting;
        case Getting =>
          if queue != [] {
            Take();
          }
        case Handling(item) =>
          if item.Wake? || (item.message.Ping? && handled.Normally?) {
            processor := Checking;
          } else if handled.Fatally? {
            processor := Ended;
          } else if item.message.Stop? && handled.Normally? {
            processor := Ended;
          } else {
            stopRejected := stopRejected || item.message.Stop?;
            processor := Checking;
          }
        case Ended =>
      }
    }
  }

  // ---- What the client gets ----

  /** Whatever was taken is a gap-free prefix of the valid messages received, and the queue stays bounded. */
  lemma NothingIsLostOrReordered(ss: seq<Socket>, es: seq<Event>, n: nat)
    requires Course(ss, es) && n < |ss|
    ensures ss[n].taken <= ss[n].accepted && |ss[n].queue| <= ss[n].capacity
    ensures ss[n].taken + Messages(ss[n].queue) == ss[n].accepted
  {
    CoursesAreSound(ss, es, n);
  }

  /** After a disconnect or a failure is flagged at most one more item is taken. */
  lemma AtMostOneLateItem(ss: seq<Socket>, es: seq<Event>, n: nat)
    requires Course(ss, es) && n < |ss|
    ensures ss[n].lateTakes <= 1
  {
    CoursesAreSound(ss, es, n);
  }

  /** The processor waits on an empty queue that nobody will ever fill. */
  ghost predicate Hangs(s: Socket) {
    s.receiverEnded && s.processor.Getting? && s.queue == []
  }

  /**
   * Once the receiver has ended, a waiting processor has an item to take, except in exactly one case: the final decode
   * of a stop was rejected, which is treated as recoverable although nobody is left to send anything.
   */
  lemma HangsExactlyAfterARejectedStop(ss: seq<Socket>, es: seq<Event>, n: nat)
    requires Course(ss, es) && n < |ss| && ss[n].processor.Getting?
    ensures Hangs(ss[n]) <==> ss[n].stopRejected
  {
    CoursesAreSound(ss, es, n);
    var s := ss[n];
    if Hangs(s) {
      assert s.taken + Messages(s.queue) == s.taken;
    }
  }

  /** Such a stop hangs the processor at once. */
  lemma RejectedStopHangs(ss: seq<Socket>, es: seq<Event>, n: nat, any: Handled)
    requires Course(ss, es) && n < |ss| && ss[n].processor == Handling(Input(Stop))
    ensures Hangs(Process(Process(ss[n], Recovered), any))
  {
    CoursesAreSound(ss, es, n);
  }

  /** A client that says nothing but stop, and whose stop is answered as a recoverable error. */
  function RejectedStop(): seq<Event> {
    [Receives(Control(Stop)), Processes(Normally), Processes(Normally), Processes(Recovered), Processes(Normally)]
  }

  function RejectedStopStates(capacity: nat): seq<Socket>
    requires capacity > 0
  {
    var start := Opened(capacity, 2);
    var stopped := start.(queue := [Input(Stop)], accepted := [Stop], receiverEnded := true);
    var taken := stopped.(queue := [], taken := [Stop], processor := Handling(Input(Stop)));
    [start, stopped, stopped.(processor := Getting), taken,
     taken.(processor := Checking, stopRejected := true), taken.(processor := Getting, stopRejected := true)]
  }

  lemma RejectedStopLeadsOn(capacity: nat, n: nat)
    requires capacity > 0 && n < 5
    ensures RejectedStopStates(capacity)[n + 1] == After(RejectedStopStates(capacity)[n], RejectedStop()[n])
  {
  }

  /** A course that ends in a hang. */
  lemma RejectedStopReachesAHang(capacity: nat)
    requires capacity > 0
    ensures Course(RejectedStopStates(capacity), RejectedStop()) && Hangs(RejectedStopStates(capacity)[5])
  {
    assert RejectedStopStates(capacity)[0] == Opened(capacity, 2);
    forall n | 0 <= n < 5
      ensures RejectedStopStates(capacity)[n + 1] == After(RejectedStopStates(capacity)[n], RejectedStop()[n])
    {
      RejectedStopLeadsOn(capacity, n);
    }
  }

  /** And then it hangs for good. */
  lemma HangingIsForever(ss: seq<Socket>, es: seq<Event>, n: nat)
    requires Course(ss, es) && n < |es| && Hangs(ss[n])
    ensures ss[n + 1] == ss[n]
  {
  }

  /** What is left to do for the processor once nobody adds to the queue. */
  function Remaining(s: Socket): nat {
    3 * |s.queue| + (match s.processor case Checking => 2 case Getting => 1 case Handling(_) => 3 case Ended => 0)
  }

  /** After the receiver's end every step of the processor that is not a hang brings its own end nearer. */
  lemma ProcessorWindsDown(ss: seq<Socket>, es: seq<Event>, n: nat)
    requires Course(ss, es) && n < |es| && ss[n].receiverEnded && es[n].Processes? && !Hangs(ss[n])
    ensures Remaining(ss[n + 1]) < Remaining(ss[n]) && ss[n + 1].receiverEnded
  {
  }

  function Steps(es: seq<Event>): nat {
    if es == [] then 0 else Steps(es[..|es| - 1]) + (if es[|es| - 1].Processes? then 1 else 0)
  }

  lemma StepsOneMore(es: seq<Event>, i: nat, n: nat)
    requires i < n <= |es|
    ensures Steps(es[i..n]) == Steps(es[i..n - 1]) + (if es[n - 1].Processes? then 1 else 0)
  {
    assert es[i..n][..n - 1 - i] == es[i..n - 1];
  }

  lemma EventsLeaveNoMore(ss: seq<Socket>, es: seq<Event>, n: nat)
    requires Course(ss, es) && n < |es| && ss[n].receiverEnded && !Hangs(ss[n])
    ensures ss[n + 1].receiverEnded
    ensures (if es[n].Processes? then 1 else 0) + Remaining(ss[n + 1]) <= Remaining(ss[n])
  {
    if es[n].Processes? {
      ProcessorWindsDown(ss, es, n);
    }
  }

  /** So the processor takes at most |queue| + 1 more iterations of three steps, unless a rejected stop hangs it. */
  lemma {:induction false} ProcessorEnds(ss: seq<Socket>, es: seq<Event>, i: nat, n: nat)
    requires Course(ss, es) && i <= n < |ss| && ss[i].receiverEnded
    requires forall k :: i <= k < n ==> !Hangs(ss[k])
    ensures ss[n].receiverEnded
    ensures Steps(es[i..n]) + Remaining(ss[n]) <= Remaining(ss[i]) <= 3 * (|ss[i].queue| + 1)
    decreases n - i
  {
    if i < n {
      ProcessorEnds(ss, es, i, n - 1);
      StepsOneMore(es, i, n);
      EventsLeaveNoMore(ss, es, n - 1);
    }
  }
}
