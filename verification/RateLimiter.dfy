/** The sliding-window limiter on one key: a pruned, self-expiring sorted set under optimistic transactions. */
module RateLimiter {
  import opened Wrappers
  import opened Basics

  type CallerId = nat

  const MAX_TRANSACTION_RETRIES := 64

  /** limit admissions per window_seconds, both positive. */
  datatype Policy = Policy(limit: int, windowSeconds: int) {
    predicate Valid() {
      limit >= 1 && windowSeconds >= 1
    }

    function WindowMs(): int {
      windowSeconds * 1000
    }
  }

  datatype Decision = Decision(allowed: bool, remaining: int, retryAfter: int, resetAfter: int)

  // ---- Scores in ascending order ----

  predicate Sorted(h: seq<int>) {
    forall i, j :: 0 <= i < j < |h| ==> h[i] <= h[j]
  }

  /** ZCOUNT key (x +inf */
  function CountAbove(h: seq<int>, x: int): (n: nat)
    ensures n <= |h|
  {
    if h == [] then 0 else CountAbove(h[..|h| - 1], x) + (if h[|h| - 1] > x then 1 else 0)
  }

  /** ZRANGEBYSCORE key (x +inf LIMIT 0 1 */
  function FirstAbove(h: seq<int>, x: int): Option<int> {
    if h == [] then None else if h[0] > x then Some(h[0]) else FirstAbove(h[1..], x)
  }

  /** ZREMRANGEBYSCORE key -inf x */
  function DropUpTo(h: seq<int>, x: int): (kept: seq<int>)
    ensures |kept| <= |h|
  {
    if h == [] then [] else if h[0] <= x then DropUpTo(h[1..], x) else h
  }

  /** ZADD of a member with this score. */
  function Insert(h: seq<int>, score: int): seq<int> {
    if h == [] || h[|h| - 1] <= score then h + [score] else Insert(h[..|h| - 1], score) + [h[|h| - 1]]
  }

  function CeilToSeconds(ms: int): int {
    -((-ms) / 1000)
  }

  /** The reply computed from what the transaction read at `now`. */
  function Decide(p: Policy, now: int, count: nat, oldest: Option<int>): Decision {
    var first := if oldest.Some? then oldest.value else now;
    var reset := Max(1, CeilToSeconds(first + p.WindowMs() - now));
    if count < p.limit then Decision(true, p.limit - count - 1, 0, reset) else Decision(false, 0, reset, reset)
  }

  /** The decision an observer would make who remembers every admission ever made. */
  function FullDecision(p: Policy, history: seq<int>, now: int): Decision {
    Decide(p, now, CountAbove(history, now - p.WindowMs()), FirstAbove(history, now - p.WindowMs()))
  }

  // ---- The server ----

  /** `history` and `dropped` are ghost knowledge: all admissions in commit order, and how many the key has lost. */
  datatype Server = Server(
    clock: int,
    scores: seq<int>,
    deadline: int,
    version: nat,
    history: seq<int>,
    dropped: nat)

  /** The key expires as a whole, which a WATCH notices. */
  function Elapse(s: Server, instant: int): Server {
    if s.scores != [] && s.deadline <= instant then
      s.(clock := instant, scores := [], version := s.version + 1, dropped := |s.history|)
    else
      s.(clock := instant)
  }

  /** The queued commands: prune, admit if allowed, extend the expiry. */
  function Commit(p: Policy, s: Server, now: int, count: nat): Server {
    var kept := DropUpTo(s.scores, now - p.WindowMs());
    var admits := count < p.limit;
    s.(scores := if admits then Insert(kept, now) else kept,
       deadline := s.clock + p.WindowMs() + 1000,
       version := s.version + 1,
       history := if admits then s.history + [now] else s.history,
       dropped := s.dropped + (|s.scores| - |kept|))
  }

  // ---- Callers, one command per step ----

  datatype Phase =
    | Fresh
    | Watched(version: nat)
    | Timed(version: nat, now: int)
    | Counted(version: nat, now: int, count: nat)
    | Ready(version: nat, now: int, count: nat, oldest: Option<int>)
    | Decided(decision: Decision)
    | Unavailable
  {
    /** How many commands have been answered. */
    function Stage(): nat {
      match this
      case Fresh => 0
      case Watched(_) => 1
      case Timed(_, _) => 2
      case Counted(_, _, _) => 3
      case Ready(_, _, _, _) => 4
      case Decided(_) => 5
      case Unavailable => 5
    }
  }

  datatype Caller = Caller(attempts: nat, phase: Phase)

  datatype World = World(server: Server, callers: map<CallerId, Caller>)

  datatype Event =
    | Elapses(instant: int)
    | Arrives(caller: CallerId)
    | Leaves(caller: CallerId)
    | Steps(caller: CallerId)

  function StepCaller(p: Policy, s: Server, c: Caller): (Server, Caller) {
    match c.phase
    case Fresh => (s, c.(phase := Watched(s.version)))
    case Watched(v) => (s, c.(phase := Timed(v, s.clock)))
    case Timed(v, now) => (s, c.(phase := Counted(v, now, CountAbove(s.scores, now - p.WindowMs()))))
    case Counted(v, now, count) =>
      (s, c.(phase := Ready(v, now, count, FirstAbove(s.scores, now - p.WindowMs()))))
    case Ready(v, now, count, oldest) =>
      if s.version == v then (Commit(p, s, now, count), c.(phase := Decided(Decide(p, now, count, oldest))))
      else if c.attempts + 1 < MAX_TRANSACTION_RETRIES then (s, Caller(c.attempts + 1, Fresh))
      else (s, c.(phase := Unavailable))
    case Decided(_) => (s, c)
    case Unavailable => (s, c)
  }

  predicate Possible(w: World, e: Event) {
    match e
    case Elapses(instant) => w.server.clock <= instant
    case Arrives(cid) => cid !in w.callers
    case Leaves(cid) => cid in w.callers
    case Steps(cid) => cid in w.callers
  }

  function After(p: Policy, w: World, e: Event): World
    requires Possible(w, e)
  {
    match e
    case Elapses(instant) => w.(server := Elapse(w.server, instant))
    case Arrives(cid) => w.(callers := w.callers[cid := Caller(0, Fresh)])
    case Leaves(cid) => w.(callers := w.callers - {cid})
    case Steps(cid) =>
      var (server, caller) := StepCaller(p, w.server, w.callers[cid]);
      World(server, w.callers[cid := caller])
  }

  function Start(clock: int): World {
    World(Server(clock, [], clock, 0, [], 0), map[])
  }

  ghost predicate Course(p: Policy, ws: seq<World>, es: seq<Event>) {
    && p.Valid()
    && |ws| == |es| + 1
    && (exists clock :: ws[0] == Start(clock))
    && (forall i :: 0 <= i < |es| ==> Possible(ws[i], es[i]) && ws[i + 1] == After(p, ws[i], es[i]))
  }

  // ---- Facts about ascending scores ----

  lemma {:induction false} CountOfSorted(h: seq<int>, x: int, n: nat)
    requires Sorted(h) && n > 0
    ensures CountAbove(h, x) < n <==> |h| < n || h[|h| - n] <= x
    ensures h != [] && h[|h| - 1] <= x ==> CountAbove(h, x) == 0
    ensures CountAbove(h, x) <= |h|
  {
    if h != [] {
      var front := h[..|h| - 1];
      CountOfSorted(front, x, 1);
      if n > 1 {
        CountOfSorted(front, x, n - 1);
      }
      if h[|h| - 1] <= x && front != [] {
        assert front[|front| - 1] <= x;
      }
    }
  }

  lemma {:induction false} FirstOfSorted(h: seq<int>, x: int)
    requires Sorted(h)
    ensures FirstAbove(h, x) ==
            (if CountAbove(h, x) == 0 then None else Some(h[|h| - CountAbove(h, x)]))
  {
    if h != [] {
      CountOfFront(h, x);
      FirstOfSorted(h[1..], x);
      if h[0] > x {
        CountOfSorted(h, x, |h|);
      }
    }
  }

  lemma {:induction false} CountOfFront(h: seq<int>, x: int)
    requires h != []
    ensures CountAbove(h, x) == (if h[0] > x then 1 else 0) + CountAbove(h[1..], x)
    ensures CountAbove(h, x) <= |h|
  {
    if |h| > 1 {
      CountOfFront(h[..|h| - 1], x);
      assert h[..|h| - 1][1..] == h[1..][..|h| - 2];
    }
  }

  lemma {:induction false} CountOfConcat(a: seq<int>, b: seq<int>, x: int)
    ensures CountAbove(a + b, x) == CountAbove(a, x) + CountAbove(b, x)
  {
    if b == [] {
      assert a + b == a;
    } else {
      assert (a + b)[..|a + b| - 1] == a + b[..|b| - 1];
      CountOfConcat(a, b[..|b| - 1], x);
    }
  }

  /** What a key has lost no longer counts, so reading the key is as good as remembering everything. */
  lemma PrunedReadsAreFull(h: seq<int>, dropped: nat, x: int)
    requires Sorted(h) && dropped <= |h| && forall i :: 0 <= i < dropped ==> h[i] <= x
    ensures CountAbove(h[dropped..], x) == CountAbove(h, x)
    ensures FirstAbove(h[dropped..], x) == FirstAbove(h, x)
  {
    assert h == h[..dropped] + h[dropped..];
    CountOfConcat(h[..dropped], h[dropped..], x);
    CountOfSorted(h[..dropped], x, 1);
    FirstOfSorted(h, x);
    FirstOfSorted(h[dropped..], x);
  }

  // ---- The invariant ----

  /** The first n admissions are no later than t. */
  predicate NotAfter(h: seq<int>, n: nat, t: int) {
    forall i :: 0 <= i < n && i < |h| ==> h[i] <= t
  }

  /** The limit-th admission before any admission is at least a whole window older. */
  ghost predicate Spaced(p: Policy, h: seq<int>) {
    forall i, j :: 0 <= i < j < |h| && j == i + p.limit ==> h[i] <= h[j] - p.WindowMs()
  }

  ghost predicate ServerOk(p: Policy, s: Server) {
    && p.Valid()
    && Sorted(s.history) && NotAfter(s.history, |s.history|, s.clock) && Spaced(p, s.history)
    && s.dropped <= |s.history| && s.scores == s.history[s.dropped..]
    && NotAfter(s.history, s.dropped, s.clock - p.WindowMs())
    && (s.scores != [] ==> NotAfter(s.history, |s.history|, s.deadline - p.WindowMs()))
  }

  /** While the watched version is current, time was read after every admission and the reads are complete. */
  predicate ReadsOk(p: Policy, s: Server, now: int) {
    && now <= s.clock
    && NotAfter(s.history, |s.history|, now)
    && NotAfter(s.history, s.dropped, now - p.WindowMs())
  }

  ghost predicate CallerOk(p: Policy, s: Server, c: Caller)
    requires ServerOk(p, s)
  {
    match c.phase
    case Watched(v) => v <= s.version
    case Timed(v, now) => v <= s.version && (v == s.version ==> ReadsOk(p, s, now))
    case Counted(v, now, count) =>
      && v <= s.version
      && (v == s.version ==> ReadsOk(p, s, now) && count == CountAbove(s.history, now - p.WindowMs()))
    case Ready(v, now, count, oldest) =>
      && v <= s.version
      && (v == s.version ==>
            && ReadsOk(p, s, now) && count == CountAbove(s.history, now - p.WindowMs())
            && oldest == FirstAbove(s.history, now - p.WindowMs()))
    case _ => true
  }

  ghost predicate Sound(p: Policy, w: World) {
    && ServerOk(p, w.server)
    && forall cid :: cid in w.callers ==> CallerOk(p, w.server, w.callers[cid])
  }

  lemma {:induction false} DropKeepsTheRest(h: seq<int>, x: int)
    ensures DropUpTo(h, x) == h[|h| - |DropUpTo(h, x)|..]
    ensures NotAfter(h, |h| - |DropUpTo(h, x)|, x)
  {
    if h != [] && h[0] <= x {
      DropKeepsTheRest(h[1..], x);
      forall i | 0 <= i < |h| - |DropUpTo(h, x)| ensures h[i] <= x {
        assert i > 0 ==> h[i] == h[1..][i - 1];
      }
    }
  }

  lemma PruningForgetsOldOnes(s: Server, x: int)
    requires s.dropped <= |s.history| && s.scores == s.history[s.dropped..] && NotAfter(s.history, s.dropped, x)
    ensures var kept := DropUpTo(s.scores, x);
            var dropped := s.dropped + (|s.scores| - |kept|);
            kept == s.history[dropped..] && NotAfter(s.history, dropped, x)
  {
    var kept := DropUpTo(s.scores, x);
    var dropped := s.dropped + (|s.scores| - |kept|);
    DropKeepsTheRest(s.scores, x);
    forall i | 0 <= i < dropped ensures s.history[i] <= x {
      if s.dropped <= i {
        assert s.scores[i - s.dropped] == s.history[i];
      }
    }
  }

  lemma AdmittingKeepsSpacing(p: Policy, h: seq<int>, now: int)
    requires p.Valid() && Sorted(h) && Spaced(p, h) && NotAfter(h, |h|, now)
    requires CountAbove(h, now - p.WindowMs()) < p.limit
    ensures Sorted(h + [now]) && Spaced(p, h + [now])
  {
    CountOfSorted(h, now - p.WindowMs(), p.limit);
  }

  /** The decision is the one the whole history gives, and exactly an admission is added to the history. */
  ghost predicate IsExact(p: Policy, s: Server, t: Server, now: int, d: Decision) {
    && d == FullDecision(p, s.history, now)
    && t.history == (if d.allowed then s.history + [now] else s.history)
  }

  lemma InsertingLastAppends(kept: seq<int>, now: int)
    requires kept != [] ==> kept[|kept| - 1] <= now
    ensures Insert(kept, now) == kept + [now]
  {
  }

  /** Losing old scores, and moving the deadline, leaves a sound server sound. */
  lemma RefusingIsSound(p: Policy, s: Server, t: Server, now: int)
    requires ServerOk(p, s) && ReadsOk(p, s, now)
    requires t.history == s.history && t.clock == s.clock && t.deadline == s.clock + p.WindowMs() + 1000
    requires t.dropped <= |s.history| && t.scores == s.history[t.dropped..]
    requires NotAfter(s.history, t.dropped, now - p.WindowMs())
    ensures ServerOk(p, t)
  {
  }

  lemma AdmittingIsSound(p: Policy, s: Server, t: Server, now: int)
    requires ServerOk(p, s) && ReadsOk(p, s, now) && CountAbove(s.history, now - p.WindowMs()) < p.limit
    requires t.history == s.history + [now] && t.clock == s.clock && t.deadline == s.clock + p.WindowMs() + 1000
    requires t.dropped <= |s.history| && t.scores == s.history[t.dropped..] + [now]
    requires NotAfter(s.history, t.dropped, now - p.WindowMs())
    ensures ServerOk(p, t)
  {
    AdmittingKeepsSpacing(p, s.history, now);
    assert t.scores == t.history[t.dropped..];
  }

  lemma PruningLeavesNothingLater(p: Policy, s: Server, now: int)
    requires ServerOk(p, s) && ReadsOk(p, s, now)
    ensures var kept := DropUpTo(s.scores, now - p.WindowMs());
            kept != [] ==> kept[|kept| - 1] <= now
  {
    var kept := DropUpTo(s.scores, now - p.WindowMs());
    DropKeepsTheRest(s.scores, now - p.WindowMs());
    if kept != [] {
      assert kept[|kept| - 1] == s.scores[|s.scores| - 1] == s.history[|s.history| - 1];
    }
  }

  /** What pruning and appending leave, spelled out. */
  lemma CommitAppends(p: Policy, s: Server, now: int, count: nat)
    requires ServerOk(p, s) && ReadsOk(p, s, now) && count < p.limit
    ensures var t := Commit(p, s, now, count);
            && t.history == s.history + [now] && t.clock == s.clock && t.deadline == s.clock + p.WindowMs() + 1000
            && t.dropped <= |s.history| && t.scores == s.history[t.dropped..] + [now]
            && NotAfter(s.history, t.dropped, now - p.WindowMs())
  {
    PruningForgetsOldOnes(s, now - p.WindowMs());
    PruningLeavesNothingLater(p, s, now);
    InsertingLastAppends(DropUpTo(s.scores, now - p.WindowMs()), now);
  }

  lemma AdmittingCommitIsSound(p: Policy, s: Server, now: int, count: nat)
    requires ServerOk(p, s) && ReadsOk(p, s, now) && count == CountAbove(s.history, now - p.WindowMs())
    requires count < p.limit
    ensures ServerOk(p, Commit(p, s, now, count))
  {
    var t := Commit(p, s, now, count);
    CommitAppends(p, s, now, count);
    AdmittingIsSound(p, s, t, now);
  }

  lemma RefusingCommitIsSound(p: Policy, s: Server, now: int, count: nat)
    requires ServerOk(p, s) && ReadsOk(p, s, now) && p.limit <= count
    ensures ServerOk(p, Commit(p, s, now, count))
  {
    PruningForgetsOldOnes(s, now - p.WindowMs());
    RefusingIsSound(p, s, Commit(p, s, now, count), now);
  }

  lemma CommitIsSound(p: Policy, s: Server, now: int, count: nat)
    requires ServerOk(p, s) && ReadsOk(p, s, now) && count == CountAbove(s.history, now - p.WindowMs())
    ensures ServerOk(p, Commit(p, s, now, count))
  {
    if count < p.limit {
      AdmittingCommitIsSound(p, s, now, count);
    } else {
      RefusingCommitIsSound(p, s, now, count);
    }
  }

  lemma ElapseIsSound(p: Policy, s: Server, instant: int)
    requires ServerOk(p, s) && s.clock <= instant
    ensures ServerOk(p, Elapse(s, instant))
  {
  }

  lemma CallersWait(p: Policy, s: Server, instant: int, c: Caller)
    requires ServerOk(p, s) && s.clock <= instant && CallerOk(p, s, c) && ServerOk(p, Elapse(s, instant))
    ensures CallerOk(p, Elapse(s, instant), c)
  {
  }

  lemma ReadingIsSound(p: Policy, s: Server, c: Caller)
    requires ServerOk(p, s) && CallerOk(p, s, c) && !c.phase.Ready?
    ensures StepCaller(p, s, c).0 == s && CallerOk(p, s, StepCaller(p, s, c).1)
  {
    match c.phase
    case Timed(v, now) =>
      if v == s.version { PrunedReadsAreFull(s.history, s.dropped, now - p.WindowMs()); }
    case Counted(v, now, _) =>
      if v == s.version { PrunedReadsAreFull(s.history, s.dropped, now - p.WindowMs()); }
    case _ =>
  }

  lemma ExecIsSound(p: Policy, s: Server, c: Caller)
    requires ServerOk(p, s) && CallerOk(p, s, c) && c.phase.Ready?
    ensures ServerOk(p, StepCaller(p, s, c).0)
    ensures StepCaller(p, s, c).0 == s || StepCaller(p, s, c).0.version > s.version
    ensures var phase := StepCaller(p, s, c).1.phase; phase.Decided? || phase.Fresh? || phase.Unavailable?
  {
    if c.phase.version == s.version {
      CommitIsSound(p, s, c.phase.now, c.phase.count);
      assert StepCaller(p, s, c).0 == Commit(p, s, c.phase.now, c.phase.count);
    } else {
      assert StepCaller(p, s, c).0 == s;
    }
  }

  lemma ExecIsExact(p: Policy, s: Server, c: Caller)
    requires ServerOk(p, s) && CallerOk(p, s, c) && c.phase.Ready? && c.phase.version == s.version
    ensures ReadsOk(p, s, c.phase.now)
    ensures StepCaller(p, s, c).1.phase.Decided?
    ensures IsExact(p, s, StepCaller(p, s, c).0, c.phase.now, StepCaller(p, s, c).1.phase.decision)
  {
  }

  lemma OtherCallersStayOk(p: Policy, s: Server, t: Server, c: Caller)
    requires ServerOk(p, s) && ServerOk(p, t) && CallerOk(p, s, c) && (t == s || t.version > s.version)
    ensures CallerOk(p, t, c)
  {
  }

  lemma StepIsSound(p: Policy, w: World, cid: CallerId)
    requires Sound(p, w) && cid in w.callers
    ensures Sound(p, After(p, w, Steps(cid)))
  {
    var c := w.callers[cid];
    var (t, d) := StepCaller(p, w.server, c);
    if c.phase.Ready? {
      ExecIsSound(p, w.server, c);
    } else {
      ReadingIsSound(p, w.server, c);
    }
    forall other | other in w.callers ensures CallerOk(p, t, w.callers[cid := d][other]) {
      if other != cid {
        OtherCallersStayOk(p, w.server, t, w.callers[other]);
      }
    }
  }

  lemma {:induction false} CoursesAreSound(p: Policy, ws: seq<World>, es: seq<Event>, n: nat)
    requires Course(p, ws, es) && n < |ws|
    ensures Sound(p, ws[n])
  {
    if n > 0 {
      CoursesAreSound(p, ws, es, n - 1);
      var w := ws[n - 1];
      match es[n - 1]
      case Elapses(instant) =>
        ElapseIsSound(p, w.server, instant);
        forall cid | cid in w.callers ensures CallerOk(p, ws[n].server, w.callers[cid]) {
          CallersWait(p, w.server, instant, w.callers[cid]);
        }
      case Steps(cid) => StepIsSound(p, w, cid);
      case _ =>
    }
  }

  // ---- What callers get ----

  /** Admissions are committed in timestamp order, in every concurrent run. */
  lemma CommitOrderIsTimeOrder(p: Policy, ws: seq<World>, es: seq<Event>, n: nat)
    requires Course(p, ws, es) && n < |ws|
    ensures Sorted(ws[n].server.history) && NotAfter(ws[n].server.history, |ws[n].server.history|, ws[n].server.clock)
  {
    CoursesAreSound(p, ws, es, n);
  }

  function AdmissionsIn(h: seq<int>, after: int, upTo: int): int {
    CountAbove(h, after) - CountAbove(h, upTo)
  }

  lemma {:induction false} SpacedWindows(p: Policy, h: seq<int>, t: int)
    requires p.Valid() && Sorted(h) && Spaced(p, h)
    ensures AdmissionsIn(h, t - p.WindowMs(), t) <= p.limit
  {
    if h != [] {
      if h[|h| - 1] > t {
        SpacedWindows(p, h[..|h| - 1], t);
      } else {
        CountOfSorted(h, t - p.WindowMs(), p.limit + 1);
      }
    }
  }

  /** Every interval (t - W, t] holds at most `limit` admissions. */
  lemma NoWindowIsOverfull(p: Policy, ws: seq<World>, es: seq<Event>, n: nat, t: int)
    requires Course(p, ws, es) && n < |ws|
    ensures AdmissionsIn(ws[n].server.history, t - p.WindowMs(), t) <= p.limit
  {
    CoursesAreSound(p, ws, es, n);
    SpacedWindows(p, ws[n].server.history, t);
  }

  /** Every decision is the one the full, unpruned, never-expired history gives, and is recorded in it. */
  lemma DecisionsAreExact(p: Policy, ws: seq<World>, es: seq<Event>, n: nat, cid: CallerId)
    requires Course(p, ws, es) && n < |es| && es[n] == Steps(cid)
    requires !ws[n].callers[cid].phase.Decided? && ws[n + 1].callers[cid].phase.Decided?
    ensures ws[n].callers[cid].phase.Ready?
    ensures var now := ws[n].callers[cid].phase.now;
            && NotAfter(ws[n].server.history, |ws[n].server.history|, now)
            && IsExact(p, ws[n].server, ws[n + 1].server, now, ws[n + 1].callers[cid].phase.decision)
  {
    CoursesAreSound(p, ws, es, n);
    var c := ws[n].callers[cid];
    if c.phase.Ready? && c.phase.version == ws[n].server.version {
      ExecIsExact(p, ws[n].server, c);
    }
  }

  /** A caller told to come back in r seconds is admitted then if nobody else was, and a second earlier is not. */
  lemma RetryAfterIsTight(p: Policy, h: seq<int>, now: int)
    requires p.Valid() && Sorted(h) && Spaced(p, h) && NotAfter(h, |h|, now)
    requires !FullDecision(p, h, now).allowed
    ensures var r := FullDecision(p, h, now).retryAfter;
            && 1 <= r <= p.windowSeconds
            && FullDecision(p, h, now + r * 1000).allowed
            && !FullDecision(p, h, now + (r - 1) * 1000).allowed
  {
    var x := now - p.WindowMs();
    var r := FullDecision(p, h, now).retryAfter;
    SpacedWindows(p, h, now);
    CountOfSorted(h, now, 1);
    assert CountAbove(h, x) == p.limit;
    FirstOfSorted(h, x);
    var oldest := h[|h| - p.limit];
    assert FirstAbove(h, x) == Some(oldest);
    CountOfSorted(h, x, p.limit);
    CountOfSorted(h, now + r * 1000 - p.WindowMs(), p.limit);
    CountOfSorted(h, now + (r - 1) * 1000 - p.WindowMs(), p.limit);
  }

  // ---- acquire itself, against a key that others keep using in between ----

  /** Time passes, or another caller that read the time at `now` commits, if its watch would let it. */
  datatype Foreign =
    | Passes(duration: nat)
    | Commits(now: int)

  function CommitIfCurrent(p: Policy, s: Server, now: int): Server {
    if ReadsOk(p, s, now) then Commit(p, s, now, CountAbove(s.history, now - p.WindowMs())) else s
  }

  function AfterOne(p: Policy, s: Server, f: Foreign): Server {
    match f
    case Passes(duration) => Elapse(s, s.clock + duration)
    case Commits(now) => CommitIfCurrent(p, s, now)
  }

  lemma ForeignCommitIsSound(p: Policy, s: Server, now: int)
    requires ServerOk(p, s)
    ensures ServerOk(p, CommitIfCurrent(p, s, now))
  {
    if ReadsOk(p, s, now) {
      var count := CountAbove(s.history, now - p.WindowMs());
      var t := Commit(p, s, now, count);
      assert CommitIfCurrent(p, s, now) == t;
      assert ServerOk(p, t) by {
        CommitIsSound(p, s, now, count);
      }
    }
  }

  lemma ForeignStepIsSound(p: Policy, s: Server, f: Foreign)
    requires ServerOk(p, s)
    ensures ServerOk(p, AfterOne(p, s, f))
  {
    match f
    case Passes(duration) => ElapseIsSound(p, s, s.clock + duration);
    case Commits(now) => ForeignCommitIsSound(p, s, now);
  }

  lemma CallersTolerateForeignSteps(p: Policy, s: Server, f: Foreign, c: Caller)
    requires ServerOk(p, s) && ServerOk(p, AfterOne(p, s, f)) && CallerOk(p, s, c)
    ensures CallerOk(p, AfterOne(p, s, f), c)
  {
    match f
    case Passes(duration) => CallersWait(p, s, s.clock + duration, c);
    case Commits(_) => OtherCallersStayOk(p, s, AfterOne(p, s, f), c);
  }

  function Doing(p: Policy): (Server, Foreign) -> Server {
    (s: Server, f: Foreign) => AfterOne(p, s, f)
  }

  /** In one attempt others act before each of its five commands. */
  predicate IsAttempt(gaps: Gaps<Foreign>) {
    |gaps| == 5
  }

  /** What the others have made of the server by the end of so many attempts. */
  function AfterAttempts(p: Policy, s: Server, attempts: seq<Gaps<Foreign>>, tries: nat): Server
    requires tries <= |attempts|
  {
    AfterAll(Doing(p), s, Everything(attempts[..tries]))
  }

  lemma OneAttemptMore(p: Policy, s: Server, attempts: seq<Gaps<Foreign>>, k: nat)
    requires k < |attempts|
    ensures AfterAttempts(p, s, attempts, k + 1) ==
            AfterAll(Doing(p), AfterAttempts(p, s, attempts, k), Flatten(attempts[k]))
  {
    EverythingExtends(attempts, k);
    AfterAllSplits(Doing(p), s, Everything(attempts[..k]), Flatten(attempts[k]));
  }

  /** The state after acquire has let an attempt through: exactly its own commit has been added. */
  ghost predicate Decides(p: Policy, before: Server, after: Server, now: int, d: Decision) {
    && ServerOk(p, before) && ReadsOk(p, before, now)
    && after == CommitIfCurrent(p, before, now) && IsExact(p, before, after, now, d)
  }

  class SlidingWindow {
    const policy: Policy
    var server: Server

    constructor (policy: Policy, clock: int)
      requires policy.Valid()
      ensures this.policy == policy && ServerOk(policy, server) && server.history == []
    {
      this.policy := policy;
      server := Server(clock, [], clock, 0, [], 0);
    }

    method Serve(others: seq<Foreign>)
      requires ServerOk(policy, server)
      modifies this
      ensures server == AfterAll(Doing(policy), old(server), others) && ServerOk(policy, server)
      ensures forall c: Caller :: CallerOk(policy, old(server), c) ==> CallerOk(policy, server, c)
    {
      for i := 0 to |others|
        invariant server == AfterAll(Doing(policy), old(server), others[..i]) && ServerOk(policy, server)
        invariant forall c: Caller :: CallerOk(policy, old(server), c) ==> CallerOk(policy, server, c)
      {
        ForeignStepIsSound(policy, server, others[i]);
        var next := AfterOne(policy, server, others[i]);
        forall c: Caller | CallerOk(policy, server, c) ensures CallerOk(policy, next, c) {
          CallersTolerateForeignSteps(policy, server, others[i], c);
        }
        assert others[..i + 1][..i] == others[..i];
        server := next;
      }
      assert others[..|others|] == others;
    }

    /** Others act before command k, having left the server like this since `start`. */
    method ServeGap(ghost start: Server, gaps: Gaps<Foreign>, k: nat, c: Caller)
      requires k < |gaps| && server == AfterAll(Doing(policy), start, Flatten(gaps[..k]))
      requires ServerOk(policy, server) && CallerOk(policy, server, c)
      modifies this
      ensures server == AfterAll(Doing(policy), start, Flatten(gaps[..k + 1]))
      ensures ServerOk(policy, server) && CallerOk(policy, server, c)
    {
      FlattenExtends(gaps, k);
      AfterAllSplits(Doing(policy), start, Flatten(gaps[..k]), gaps[k]);
      Serve(gaps[k]);
    }

    /** What others do before command k, and then WATCH, TIME, ZCOUNT or ZRANGEBYSCORE, whichever it is. */
    method Command(ghost start: Server, gaps: Gaps<Foreign>, k: nat, c: Caller) returns (d: Caller)
      requires k < 4 && IsAttempt(gaps) && server == AfterAll(Doing(policy), start, Flatten(gaps[..k]))
      requires ServerOk(policy, server) && CallerOk(policy, server, c) && c.phase.Stage() == k
      modifies this
      ensures server == AfterAll(Doing(policy), start, Flatten(gaps[..k + 1]))
      ensures ServerOk(policy, server) && CallerOk(policy, server, d) && d.phase.Stage() == k + 1
    {
      ServeGap(start, gaps, k, c);
      ReadingIsSound(policy, server, c);
      return StepCaller(policy, server, c).1;
    }

    /** The commands up to EXEC, with what others do in between. */
    method Prepare(gaps: Gaps<Foreign>) returns (c: Caller)
      requires ServerOk(policy, server) && IsAttempt(gaps)
      modifies this
      ensures server == AfterAll(Doing(policy), old(server), Flatten(gaps)) && ServerOk(policy, server)
      ensures c.phase.Stage() == 4 && CallerOk(policy, server, c)
    {
      ghost var start := server;
      c := Command(start, gaps, 0, Caller(0, Fresh));
      c := Command(start, gaps, 1, c);
      c := Command(start, gaps, 2, c);
      c := Command(start, gaps, 3, c);
      ServeGap(start, gaps, 4, c);
      assert gaps[..5] == gaps;
    }

    /** One transaction: it commits on the state that the others left, or changes nothing. */
    method Attempt(gaps: Gaps<Foreign>) returns (decision: Option<Decision>, ghost now: int)
      requires ServerOk(policy, server) && IsAttempt(gaps)
      modifies this
      ensures ServerOk(policy, server)
      ensures var before := AfterAll(Doing(policy), old(server), Flatten(gaps));
              if decision.Some? then Decides(policy, before, server, now, decision.value) else server == before
    {
      var c := Prepare(gaps);
      now := c.phase.now;
      if c.phase.version != server.version {
        return None, now;
      }
      ExecIsSound(policy, server, c);
      ExecIsExact(policy, server, c);
      var (after, done) := StepCaller(policy, server, c);
      server := after;
      return Some(done.phase.decision), now;
    }

    /**
     * At most 64 attempts, of which the last is number `tries`. A decision is exact for the history it is committed on,
     * which is the one that the others have left by then.
     */
    method Acquire(attempts: seq<Gaps<Foreign>>) returns (decision: Option<Decision>, ghost now: int, tries: nat)
      requires ServerOk(policy, server) && |attempts| == MAX_TRANSACTION_RETRIES
      requires forall k :: 0 <= k < |attempts| ==> IsAttempt(attempts[k])
      modifies this
      ensures ServerOk(policy, server) && tries <= |attempts| && (decision.None? ==> tries == |attempts|)
      ensures var before := AfterAttempts(policy, old(server), attempts, tries);
              if decision.Some? then Decides(policy, before, server, now, decision.value) else server == before
    {
      decision, now, tries := None, server.clock, 0;
      while tries < MAX_TRANSACTION_RETRIES
        invariant 0 <= tries <= MAX_TRANSACTION_RETRIES
        invariant ServerOk(policy, server) && server == AfterAttempts(policy, old(server), attempts, tries)
        invariant decision.None?
      {
        OneAttemptMore(policy, old(server), attempts, tries);
        decision, now := Attempt(attempts[tries]);
        tries := tries + 1;
        if decision.Some? {
          return;
        }
      }
    }
  }
}
