/** The WATCH / read / EXEC loops of any number of clients, step by step, refine the atomic store calls. */
module OptimisticTransactions {
  import opened Wrappers
  import opened JobRecords
  import opened JobStore
  import opened JobProtocol
  import opened AudioOwnership
  import opened JobGuarantees

  const MAX_TRANSACTION_RETRIES := 64

  /** Where one pipeline stands; versions are those seen by WATCH. */
  datatype Phase =
    | Idle
    | Watched(jobVersion: nat, resultVersion: nat)
    | Ready(jobVersion: nat, resultVersion: nat, seen: Record, update: Record)

  datatype Pipeline = Pipeline(attempts: nat, phase: Phase)

  /** The shared state plus, for Redis, a modification count per key and one pipeline per client. */
  datatype Redis = Redis(
    system: System,
    jobVersions: map<JobId, nat>,
    resultVersions: map<JobId, nat>,
    pipelines: map<ClientId, Pipeline>)
  {
    function JobVersion(id: JobId): nat {
      if id in jobVersions then jobVersions[id] else 0
    }

    function ResultVersion(id: JobId): nat {
      if id in resultVersions then resultVersions[id] else 0
    }

    function PipelineOf(cid: ClientId): Pipeline {
      if cid in pipelines then pipelines[cid] else Pipeline(0, Idle)
    }
  }

  datatype RedisMove =
    | Whole(move: Move)
    | Watches(client: ClientId)
    | Reads(client: ClientId)
    | Executes(client: ClientId)

  function Lookup<V>(m: map<JobId, V>, id: JobId): Option<V> {
    if id in m then Some(m[id]) else None
  }

  /** Any change to a key, expiry and deletion included, moves its version on. */
  ghost predicate VersionsFollow(c: Redis, d: Redis) {
    forall id ::
      && c.JobVersion(id) <= d.JobVersion(id)
      && c.ResultVersion(id) <= d.ResultVersion(id)
      && (Lookup(c.system.store.jobs, id) != Lookup(d.system.store.jobs, id) ==> c.JobVersion(id) < d.JobVersion(id))
      && (Lookup(c.system.store.results, id) != Lookup(d.system.store.results, id) ==>
            c.ResultVersion(id) < d.ResultVersion(id))
  }

  predicate Transactional(call: Call) {
    call.Update? || call.Save?
  }

  /** The outcome of reading the record: an answer at once, or a record to write. */
  datatype Reading = Answers(answer: Answer) | Writes(seen: Record, update: Record)

  function Read(s: Store, call: Call): Reading
    requires Transactional(call)
  {
    if call.id !in s.jobs then Answers(Reply(Missing))
    else
      var r := s.jobs[call.id].record;
      if call.Save? && (r.cancellationRequested || r.status == Cancelling) then Answers(Reply(Found(r)))
      else
        match (if call.Save? then Transition(r, Succeeded, None, None) else call.mutation.Apply(r))
        case ValueError => Answers(Reply(Raised))
        case Ok(update) => Writes(r, update)
  }

  /** The commands queued after MULTI, applied to whatever the keys hold when EXEC runs. */
  function Commands(s: Store, call: Call, update: Record): Store
    requires Transactional(call)
  {
    match call
    case Update(id, m) => WriteRecord(s, id, update, m.RemovesFromActive())
    case Save(id, result) => WriteResult(s, id, update, result)
  }

  function Answered(s: System, cid: ClientId, store: Store, a: Answer): System
    requires cid in s.clients
  {
    s.(store := store, clients := s.clients[cid := Resume(s.clients[cid], a)])
  }

  /** The retry limit raises RuntimeError in the client, which the protocol treats like any failing call. */
  function Exhausted(s: System, cid: ClientId): System
    requires cid in s.clients
  {
    var c := s.clients[cid];
    Answered(s, cid, s.store, Failure).(
      uncompensated := if c.Submitter? && c.spot.Compensating? then s.uncompensated + {c.spot.id} else s.uncompensated)
  }

  ghost predicate InTransaction(c: Redis, cid: ClientId) {
    cid in c.system.clients && Transactional(CallOf(c.system.clients[cid]))
  }

  ghost predicate WholeStep(c: Redis, d: Redis, m: Move) {
    && Enabled(c.system, m) && d.system == Step(c.system, m)
    && (m.Acts? && Transactional(CallOf(c.system.clients[m.client])) ==> m.choice == Fail)
    && d.pipelines == (if m.Acts? || m.Crashes? then c.pipelines[m.client := Pipeline(0, Idle)] else c.pipelines)
  }

  ghost predicate WatchStep(c: Redis, d: Redis, cid: ClientId) {
    && InTransaction(c, cid) && c.PipelineOf(cid).phase.Idle?
    && var id := CallOf(c.system.clients[cid]).id;
       && d.system == c.system
       && d.pipelines == c.pipelines[cid :=
            Pipeline(c.PipelineOf(cid).attempts, Watched(c.JobVersion(id), c.ResultVersion(id)))]
  }

  ghost predicate ReadStep(c: Redis, d: Redis, cid: ClientId) {
    && InTransaction(c, cid) && c.PipelineOf(cid).phase.Watched?
    && var p := c.PipelineOf(cid);
       match Read(c.system.store, CallOf(c.system.clients[cid]))
       case Answers(a) =>
         && d.system == Answered(c.system, cid, c.system.store, a)
         && d.pipelines == c.pipelines[cid := Pipeline(0, Idle)]
       case Writes(seen, update) =>
         && d.system == c.system
         && d.pipelines == c.pipelines[cid :=
              Pipeline(p.attempts, Ready(p.phase.jobVersion, p.phase.resultVersion, seen, update))]
  }

  ghost predicate Unchanged(c: Redis, cid: ClientId)
    requires InTransaction(c, cid) && c.PipelineOf(cid).phase.Ready?
  {
    var call := CallOf(c.system.clients[cid]);
    && c.JobVersion(call.id) == c.PipelineOf(cid).phase.jobVersion
    && (call.Save? ==> c.ResultVersion(call.id) == c.PipelineOf(cid).phase.resultVersion)
  }

  ghost predicate ExecStep(c: Redis, d: Redis, cid: ClientId) {
    && InTransaction(c, cid) && c.PipelineOf(cid).phase.Ready?
    && var p := c.PipelineOf(cid);
       var call := CallOf(c.system.clients[cid]);
       if Unchanged(c, cid) then
         && d.system ==
             Answered(c.system, cid, Commands(c.system.store, call, p.phase.update), Reply(Found(p.phase.update)))
         && d.pipelines == c.pipelines[cid := Pipeline(0, Idle)]
       else if p.attempts + 1 < MAX_TRANSACTION_RETRIES then
         && d.system == c.system
         && d.pipelines == c.pipelines[cid := Pipeline(p.attempts + 1, Idle)]
       else
         && d.system == Exhausted(c.system, cid)
         && d.pipelines == c.pipelines[cid := Pipeline(0, Idle)]
  }

  ghost predicate RedisStep(c: Redis, d: Redis, m: RedisMove) {
    && VersionsFollow(c, d)
    && match m
       case Whole(move) => WholeStep(c, d, move)
       case Watches(cid) => WatchStep(c, d, cid)
       case Reads(cid) => ReadStep(c, d, cid)
       case Executes(cid) => ExecStep(c, d, cid)
  }

  // ---- Why a commit acts on the current record ----

  /** While the watched version is current, what the client read is what the key holds. */
  ghost predicate PipelineOk(c: Redis, cid: ClientId) {
    var p := c.PipelineOf(cid);
    !p.phase.Idle? ==>
      && InTransaction(c, cid)
      && var call := CallOf(c.system.clients[cid]);
         && p.phase.jobVersion <= c.JobVersion(call.id)
         && (p.phase.Ready? && p.phase.jobVersion == c.JobVersion(call.id) ==>
               Read(c.system.store, call) == Writes(p.phase.seen, p.phase.update))
  }

  ghost predicate PipelinesOk(c: Redis) {
    forall cid :: PipelineOk(c, cid)
  }

  lemma ReadDependsOnTheKeyOnly(s: Store, t: Store, call: Call)
    requires Transactional(call) && Lookup(s.jobs, call.id) == Lookup(t.jobs, call.id)
    ensures Read(s, call) == Read(t, call)
  {
    assert call.id in s.jobs <==> call.id in t.jobs;
  }

  lemma OthersKeepTheirPipeline(c: Redis, d: Redis, cid: ClientId)
    requires PipelineOk(c, cid) && VersionsFollow(c, d)
    requires c.PipelineOf(cid) == d.PipelineOf(cid)
    requires cid in c.system.clients ==> cid in d.system.clients && d.system.clients[cid] == c.system.clients[cid]
    ensures PipelineOk(d, cid)
  {
    if !c.PipelineOf(cid).phase.Idle? {
      var call := CallOf(c.system.clients[cid]);
      if d.JobVersion(call.id) == c.JobVersion(call.id) {
        ReadDependsOnTheKeyOnly(c.system.store, d.system.store, call);
      }
    }
  }

  /** Whether the client is the one whose step this is. */
  predicate Moves(m: RedisMove, cid: ClientId) {
    match m
    case Whole(move) => (move.Acts? || move.Crashes?) && move.client == cid
    case _ => m.client == cid
  }

  lemma WholeStepLeavesOthers(c: Redis, d: Redis, m: Move, cid: ClientId)
    requires WholeStep(c, d, m) && !Moves(Whole(m), cid)
    ensures c.PipelineOf(cid) == d.PipelineOf(cid)
    ensures cid in c.system.clients ==> cid in d.system.clients && d.system.clients[cid] == c.system.clients[cid]
  {
    if m.Acts? {
      assert d.system == Act(c.system, m.client, m.choice);
    }
  }

  lemma OnlyTheMoverChanges(c: Redis, d: Redis, m: RedisMove, cid: ClientId)
    requires RedisStep(c, d, m) && !Moves(m, cid)
    ensures c.PipelineOf(cid) == d.PipelineOf(cid)
    ensures cid in c.system.clients ==> cid in d.system.clients && d.system.clients[cid] == c.system.clients[cid]
  {
    if m.Whole? {
      WholeStepLeavesOthers(c, d, m.move, cid);
    }
  }

  lemma StepKeepsPipelines(c: Redis, d: Redis, m: RedisMove)
    requires PipelinesOk(c) && RedisStep(c, d, m)
    ensures PipelinesOk(d)
  {
    forall cid ensures PipelineOk(d, cid) {
      assert PipelineOk(c, cid);
      if !Moves(m, cid) {
        OnlyTheMoverChanges(c, d, m, cid);
        OthersKeepTheirPipeline(c, d, cid);
      }
    }
  }

  /** A commit whose watched key is unchanged has the effect and the answer of the atomic call. */
  lemma CommitIsAtomic(s: Store, call: Call, seen: Record, update: Record)
    requires Transactional(call) && Read(s, call) == Writes(seen, update)
    ensures StoreEffect(s, call) == (Commands(s, call, update), Reply(Found(update)))
  {
  }

  lemma EarlyAnswerIsAtomic(s: Store, call: Call)
    requires Transactional(call) && Read(s, call).Answers?
    ensures StoreEffect(s, call) == (s, Read(s, call).answer)
  {
  }

  /** The atomic step each Redis step amounts to. */
  ghost function Meaning(c: Redis, m: RedisMove): Move {
    match m
    case Whole(move) => move
    case Watches(_) => Idles
    case Reads(cid) =>
      if InTransaction(c, cid) && Read(c.system.store, CallOf(c.system.clients[cid])).Answers? then Acts(cid, Proceed)
      else Idles
    case Executes(cid) =>
      if !(InTransaction(c, cid) && c.PipelineOf(cid).phase.Ready?) then Idles
      else if Unchanged(c, cid) then Acts(cid, Proceed)
      else if c.PipelineOf(cid).attempts + 1 < MAX_TRANSACTION_RETRIES then Idles
      else Acts(cid, Fail)
  }

  lemma StepRefinesAtomic(c: Redis, d: Redis, m: RedisMove)
    requires PipelinesOk(c) && RedisStep(c, d, m)
    ensures Enabled(c.system, Meaning(c, m)) && d.system == Step(c.system, Meaning(c, m))
  {
    match m
    case Whole(_) =>
    case Watches(_) =>
    case Reads(cid) =>
      var call := CallOf(c.system.clients[cid]);
      if Read(c.system.store, call).Answers? {
        EarlyAnswerIsAtomic(c.system.store, call);
      }
    case Executes(cid) =>
      var call := CallOf(c.system.clients[cid]);
      var p := c.PipelineOf(cid);
      if Unchanged(c, cid) {
        assert PipelineOk(c, cid);
        CommitIsAtomic(c.system.store, call, p.phase.seen, p.phase.update);
      }
  }

  // ---- Whole runs ----

  ghost predicate RedisRun(states: seq<Redis>, moves: seq<RedisMove>) {
    && |states| == |moves| + 1
    && (exists clock :: states[0] == Redis(Initial(clock), map[], map[], map[]))
    && (forall i :: 0 <= i < |moves| ==> RedisStep(states[i], states[i + 1], moves[i]))
  }

  ghost function Abstract(states: seq<Redis>): (r: seq<System>)
    ensures |r| == |states| && forall i :: 0 <= i < |r| ==> r[i] == states[i].system
  {
    seq(|states|, i requires 0 <= i < |states| => states[i].system)
  }

  ghost function Meanings(states: seq<Redis>, moves: seq<RedisMove>): (r: seq<Move>)
    requires |states| == |moves| + 1
    ensures |r| == |moves| && forall i :: 0 <= i < |r| ==> r[i] == Meaning(states[i], moves[i])
  {
    seq(|moves|, i requires 0 <= i < |moves| => Meaning(states[i], moves[i]))
  }

  lemma {:induction false} RunsKeepPipelines(states: seq<Redis>, moves: seq<RedisMove>, n: nat)
    requires RedisRun(states, moves) && n < |states|
    ensures PipelinesOk(states[n])
  {
    if n > 0 {
      RunsKeepPipelines(states, moves, n - 1);
      StepKeepsPipelines(states[n - 1], states[n], moves[n - 1]);
    }
  }

  /** Every interleaving of any number of optimistic clients is a run in which each call is one atomic step. */
  lemma RedisRunsRefineAtomicRuns(states: seq<Redis>, moves: seq<RedisMove>)
    requires RedisRun(states, moves)
    ensures Run(Abstract(states), Meanings(states, moves))
  {
    forall i | 0 <= i < |moves|
      ensures Enabled(states[i].system, Meaning(states[i], moves[i]))
      ensures states[i + 1].system == Step(states[i].system, Meaning(states[i], moves[i]))
    {
      RunsKeepPipelines(states, moves, i);
      StepRefinesAtomic(states[i], states[i + 1], moves[i]);
    }
  }

  /** So the guarantees of atomic runs are guarantees of the running system. */
  lemma RedisRunsAreSafe(states: seq<Redis>, moves: seq<RedisMove>, i: nat, j: nat)
    requires RedisRun(states, moves) && i <= j < |states|
    ensures Invariant(states[i].system) && Later(states[i].system, states[j].system)
  {
    RedisRunsRefineAtomicRuns(states, moves);
    EveryRunIsSafe(Abstract(states), Meanings(states, moves), i);
    RunsMoveForward(Abstract(states), Meanings(states, moves), i, j);
  }
}
