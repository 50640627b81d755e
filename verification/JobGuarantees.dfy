/** What every run of the job system guarantees from one moment to any later one. */
module JobGuarantees {
  import opened Wrappers
  import opened JobRecords
  import opened JobStore
  import opened JobProtocol
  import opened AudioOwnership

  /** How a job seen at one moment may look at a later one. */
  ghost predicate RecordLater(r: Record, later: Record) {
    && later.kind == r.kind && later.createdAt == r.createdAt && later.expiresAt == r.expiresAt
    && r.version <= later.version
    && r.progress <= later.progress
    && (r.cancellationRequested ==> later.cancellationRequested)
    && later.status.Rank() <= r.status.Rank()
    && (r.status.Terminal() ==> later.status == r.status)
  }

  ghost predicate JobLater(s: System, t: System, id: JobId) {
    && id in s.audioOf && id in t.audioOf && t.audioOf[id] == s.audioOf[id]
    && (id in t.store.jobs ==>
          && id in s.store.jobs
          && RecordLater(s.store.jobs[id].record, t.store.jobs[id].record)
          && t.store.jobs[id] == s.store.jobs[id].(record := t.store.jobs[id].record)
          && (id in s.store.results ==> id in t.store.results && t.store.results[id] == s.store.results[id]))
  }

  ghost predicate Later(s: System, t: System) {
    && s.store.clock <= t.store.clock
    && (forall id :: id in s.audioOf ==> JobLater(s, t, id))
    && (forall b :: b in s.owner ==> b in t.owner && (b !in s.blobs ==> b !in t.blobs))
  }

  ghost predicate StoreLater(s: System, t: System, created: Option<JobId>) {
    && Follows(s.store, t.store, created)
    && (created.Some? ==> created.value !in s.audioOf)
  }

  lemma ActStoreLater(s: System, cid: ClientId, choice: Choice)
    requires Invariant(s) && cid in s.clients && ChoiceAllowed(s, s.clients[cid], choice)
    ensures exists created :: StoreLater(s, Act(s, cid, choice), created)
  {
    var c := s.clients[cid];
    var t := Act(s, cid, choice);
    if choice.Reserves? && CallOf(c).ReserveJob? {
      ReserveFollows(s.store, choice.id, choice.record, Payload(c.kind, c.audio), choice.claim);
      assert StoreLater(s, t, Some(choice.id));
    } else {
      NothingFollows(s.store);
      StoreCallFollows(s.store, c);
      assert t.store == s.store || t.store == StoreEffect(s.store, CallOf(c)).0;
      assert StoreLater(s, t, None);
    }
  }

  lemma StepStoreLater(s: System, m: Move)
    requires Invariant(s) && Enabled(s, m)
    ensures exists created :: StoreLater(s, Step(s, m), created)
  {
    match m
    case Passes(instant) =>
      TickFollows(s.store, instant);
      assert StoreLater(s, Step(s, m), None);
    case Acts(cid, choice) => ActStoreLater(s, cid, choice);
    case _ =>
      NothingFollows(s.store);
      assert StoreLater(s, Step(s, m), None);
  }

  lemma EvolvesIsLater(r: Record, after: Record)
    requires Evolves(r, after) && (r.status.Terminal() ==> after.status == r.status)
    ensures RecordLater(r, after)
  {
    if after.status != r.status {
      TransitionLowersRank(r.status, after.status);
    }
  }

  lemma StoreLaterIsJobLater(s: System, t: System, created: Option<JobId>, id: JobId)
    requires Consistent(s.store) && Consistent(t.store) && AudioNamed(s)
    requires StoreLater(s, t, created) && id in s.audioOf && id in t.audioOf && t.audioOf[id] == s.audioOf[id]
    ensures JobLater(s, t, id)
  {
    if id in t.store.jobs {
      EvolvesIsLater(s.store.jobs[id].record, t.store.jobs[id].record);
    }
  }

  lemma StepKeepsNames(s: System, m: Move)
    requires Enabled(s, m) && AudioNamed(s)
    ensures forall id :: id in s.audioOf ==> id in Step(s, m).audioOf && Step(s, m).audioOf[id] == s.audioOf[id]
    ensures forall b :: b in s.owner ==> b in Step(s, m).owner && (b !in s.blobs ==> b !in Step(s, m).blobs)
  {
  }

  lemma StepIsLater(s: System, m: Move)
    requires Invariant(s) && Enabled(s, m)
    ensures Later(s, Step(s, m))
  {
    var t := Step(s, m);
    EveryStepIsSafe(s, m);
    StepStoreLater(s, m);
    StepKeepsNames(s, m);
    var created :| StoreLater(s, t, created);
    forall id | id in s.audioOf ensures JobLater(s, t, id) {
      StoreLaterIsJobLater(s, t, created, id);
    }
  }

  lemma LaterIsTransitive(s: System, t: System, u: System)
    requires Later(s, t) && Later(t, u)
    ensures Later(s, u)
  {
    forall id | id in s.audioOf ensures JobLater(s, u, id) {
      assert JobLater(s, t, id);
      assert JobLater(t, u, id);
    }
  }

  lemma LaterIsReflexive(s: System)
    ensures Later(s, s)
  {
    forall id | id in s.audioOf ensures JobLater(s, s, id) {
    }
  }

  lemma NextIsLater(states: seq<System>, moves: seq<Move>, n: nat, s: System, t: System)
    requires Run(states, moves) && n < |moves| && s == states[n] && t == states[n + 1]
    ensures Later(s, t)
  {
    EveryRunIsSafe(states, moves, n);
    StepIsLater(s, moves[n]);
  }

  /** Versions, progress, cancellation, results and removal only ever move forward in a run. */
  lemma {:induction false} RunsMoveForward(states: seq<System>, moves: seq<Move>, i: nat, j: nat)
    requires Run(states, moves) && i <= j < |states|
    ensures Later(states[i], states[j])
    decreases j - i
  {
    if i == j {
      LaterIsReflexive(states[i]);
    } else {
      RunsMoveForward(states, moves, i, j - 1);
      var s, t := states[j - 1], states[j];
      NextIsLater(states, moves, j - 1, s, t);
      LaterIsTransitive(states[i], s, t);
    }
  }

  // ---- Audio ownership ----

  /**
   * An unexpired QUEUED or RUNNING job has its audio, except in exactly one case: its submitter was refused the
   * write that would have marked the job FAILED and then discarded the audio all the same.
   */
  lemma AudioIsKeptUnlessForsaken(states: seq<System>, moves: seq<Move>, n: nat, id: JobId)
    requires Run(states, moves) && n < |states|
    requires Unexpired(states[n].store, id) && states[n].store.jobs[id].record.NeedsAudio()
    ensures states[n].store.jobs[id].payload.Some?
    ensures states[n].store.jobs[id].payload.value.audio !in states[n].blobs <==> Forsaken(states[n], id)
  {
    var s := states[n];
    EveryRunIsSafe(states, moves, n);
    assert AudioKept(s, id);
    if Forsaken(s, id) {
      var cid := s.owner[s.audioOf[id]];
      assert ClientOk(s, cid, s.clients[cid]);
    }
  }

  /** A CANCELLED job's audio is gone, and stays gone. */
  lemma CancelledAudioIsGone(states: seq<System>, moves: seq<Move>, i: nat, j: nat, id: JobId)
    requires Run(states, moves) && i <= j < |states|
    requires id in states[i].store.jobs && states[i].store.jobs[id].record.status == Cancelled
    ensures states[i].store.jobs[id].payload.Some?
    ensures states[i].store.jobs[id].payload.value.audio !in states[j].blobs
  {
    EveryRunIsSafe(states, moves, i);
    assert AudioKept(states[i], id);
    RunsMoveForward(states, moves, i, j);
  }

  /** Where a delivery can stand that has read a finished record and its payload and has not failed since. */
  ghost predicate CleaningUp(s: System, cid: ClientId, id: JobId, kind: Kind, seen: Record) {
    && cid in s.clients && s.clients[cid].Worker? && s.clients[cid].id == id && s.clients[cid].kind == kind
    && id in s.audioOf && seen.status.Terminal()
    && match s.clients[cid].point
       case Deciding(was, audio) => was == seen && audio == s.audioOf[id]
       case Dropping(audio) => audio == s.audioOf[id]
       case DroppingExpired(audio) => audio == s.audioOf[id]
       case DeletingExpired => s.audioOf[id] !in s.blobs
       case Done => s.audioOf[id] !in s.blobs
       case _ => false
  }

  predicate Disturbs(m: Move, cid: ClientId) {
    m == Crashes(cid) || m == Acts(cid, Fail)
  }

  lemma CleaningUpDecides(s: System, m: Move, cid: ClientId, id: JobId, kind: Kind, seen: Record)
    requires Invariant(s) && CleaningUp(s, cid, id, kind, seen)
    requires m.Acts? && m.client == cid && m != Acts(cid, Fail) && Enabled(s, m)
    requires s.clients[cid].point.Deciding?
    ensures CleaningUp(Step(s, m), cid, id, kind, seen)
  {
  }

  lemma CleaningUpDrops(s: System, m: Move, cid: ClientId, id: JobId, kind: Kind, seen: Record)
    requires Invariant(s) && CleaningUp(s, cid, id, kind, seen)
    requires m.Acts? && m.client == cid && m != Acts(cid, Fail) && Enabled(s, m)
    requires !s.clients[cid].point.Deciding?
    ensures CleaningUp(Step(s, m), cid, id, kind, seen)
  {
  }

  lemma CleaningUpStep(s: System, m: Move, cid: ClientId, id: JobId, kind: Kind, seen: Record)
    requires Invariant(s) && Enabled(s, m) && CleaningUp(s, cid, id, kind, seen) && !Disturbs(m, cid)
    ensures CleaningUp(Step(s, m), cid, id, kind, seen)
  {
    if m.Acts? && m.client == cid {
      if s.clients[cid].point.Deciding? {
        CleaningUpDecides(s, m, cid, id, kind, seen);
      } else {
        CleaningUpDrops(s, m, cid, id, kind, seen);
      }
    } else {
      StepIsLater(s, m);
      assert JobLater(s, Step(s, m), id);
      assert s.audioOf[id] in s.owner;
      assert cid in Step(s, m).clients && Step(s, m).clients[cid] == s.clients[cid];
    }
  }

  lemma {:induction false} CleaningUpGoesOn(
    states: seq<System>, moves: seq<Move>, i: nat, j: nat, cid: ClientId, id: JobId, kind: Kind, seen: Record)
    requires Run(states, moves) && i <= j < |states|
    requires CleaningUp(states[i], cid, id, kind, seen)
    requires forall k :: i <= k < j ==> !Disturbs(moves[k], cid)
    ensures CleaningUp(states[j], cid, id, kind, seen)
    decreases j - i
  {
    if i < j {
      CleaningUpGoesOn(states, moves, i, j - 1, cid, id, kind, seen);
      EveryRunIsSafe(states, moves, j - 1);
      CleaningUpStep(states[j - 1], moves[j - 1], cid, id, kind, seen);
    }
  }

  /**
   * A delivery that has both its reads in hand, of a finished record and of its payload, and that neither fails nor
   * crashes, is done only when the audio is gone, however the others' steps interleave and whatever becomes of the job.
   */
  lemma FinishedDeliveriesCleanUp(
    states: seq<System>, moves: seq<Move>, i: nat, j: nat, cid: ClientId, id: JobId,
    kind: Kind, seen: Record, audio: BlobId)
    requires Run(states, moves) && i <= j < |states|
    requires cid in states[i].clients && states[i].clients[cid] == Worker(id, kind, Deciding(seen, audio))
    requires seen.status.Terminal()
    requires forall k :: i <= k < j ==> !Disturbs(moves[k], cid)
    ensures cid in states[j].clients && states[j].clients[cid].Worker?
    ensures states[j].clients[cid].point.Done? ==> audio !in states[j].blobs
  {
    EveryRunIsSafe(states, moves, i);
    assert ClientOk(states[i], cid, states[i].clients[cid]);
    CleaningUpGoesOn(states, moves, i, j, cid, id, kind, seen);
    RunsMoveForward(states, moves, i, j);
    assert JobLater(states[i], states[j], id);
  }

  /** The second read leads on exactly if the job is still there and of the delivery's kind. */
  lemma SecondReadDecides(s: System, cid: ClientId, id: JobId, kind: Kind, seen: Record)
    requires Invariant(s) && cid in s.clients && s.clients[cid] == Worker(id, kind, LoadingPayload(Some(seen)))
    ensures Enabled(s, Acts(cid, Proceed)) && id in s.audioOf
    ensures var t := Step(s, Acts(cid, Proceed));
            && cid in t.clients && t.blobs == s.blobs && t.store == s.store
            && t.clients[cid] ==
               Worker(id, kind,
                      if id in s.store.jobs && s.store.jobs[id].record.kind == kind
                      then Deciding(seen, s.audioOf[id])
                      else Done)
  {
    assert ClientOk(s, cid, s.clients[cid]);
    if id in s.store.jobs {
      assert JobKeyOk(s.store, id);
    }
  }

  /**
   * So redelivering a finished job leaves its audio gone: if the job is still there when the delivery makes its second
   * read, at moment i, the delivery is done only when the audio is gone.
   */
  lemma RedeliveryCleansUp(
    states: seq<System>, moves: seq<Move>, i: nat, j: nat, cid: ClientId, id: JobId, kind: Kind, seen: Record)
    requires Run(states, moves) && i < j < |states| && moves[i] == Acts(cid, Proceed)
    requires cid in states[i].clients && states[i].clients[cid] == Worker(id, kind, LoadingPayload(Some(seen)))
    requires seen.status.Terminal() && id in states[i].store.jobs && states[i].store.jobs[id].record.kind == kind
    requires forall k :: i < k < j ==> !Disturbs(moves[k], cid)
    ensures id in states[i].audioOf && cid in states[j].clients && states[j].clients[cid].Worker?
    ensures states[j].clients[cid].point.Done? ==> states[i].audioOf[id] !in states[j].blobs
  {
    EveryRunIsSafe(states, moves, i);
    SecondReadDecides(states[i], cid, id, kind, seen);
    assert states[i + 1] == Step(states[i], moves[i]);
    FinishedDeliveriesCleanUp(states, moves, i + 1, j, cid, id, kind, seen, states[i].audioOf[id]);
  }

  // ---- Results and cancellation ----

  /** While the job lives, a result is stored exactly when the record is SUCCEEDED, and the first one stays. */
  lemma ResultIsWrittenOnce(states: seq<System>, moves: seq<Move>, i: nat, j: nat, id: JobId)
    requires Run(states, moves) && i <= j < |states|
    requires id in states[i].store.jobs && id in states[j].store.jobs
    ensures id in states[i].store.results <==> states[i].store.jobs[id].record.status == Succeeded
    ensures id in states[i].store.results ==>
              id in states[j].store.results && states[j].store.results[id] == states[i].store.results[id]
    ensures id in states[i].store.results ==> states[j].store.jobs[id].record.status == Succeeded
  {
    EveryRunIsSafe(states, moves, i);
    RunsMoveForward(states, moves, i, j);
    assert JobLater(states[i], states[j], id);
  }

  lemma RequestedHasNoResult(s: Store, id: JobId)
    requires Consistent(s) && (id in s.jobs ==> s.jobs[id].record.cancellationRequested)
    ensures id !in s.results
    ensures id in s.jobs ==> s.jobs[id].record.status in {Cancelling, Cancelled, Failed}
  {
    if id in s.jobs {
      assert JobKeyOk(s, id);
    }
  }

  /** Once cancellation is requested no continuation runs the job again or stores a result for it. */
  lemma CancellationWins(states: seq<System>, moves: seq<Move>, i: nat, j: nat, id: JobId)
    requires Run(states, moves) && i <= j < |states|
    requires id in states[i].store.jobs && states[i].store.jobs[id].record.cancellationRequested
    ensures id !in states[j].store.results
    ensures id in states[j].store.jobs ==> states[j].store.jobs[id].record.status in {Cancelling, Cancelled, Failed}
  {
    EveryRunIsSafe(states, moves, i);
    EveryRunIsSafe(states, moves, j);
    RunsMoveForward(states, moves, i, j);
    assert JobLater(states[i], states[j], id);
    RequestedHasNoResult(states[j].store, id);
  }

  /** The index lists exactly the pending jobs in every reachable state. */
  lemma IndexAlwaysAgrees(states: seq<System>, moves: seq<Move>, n: nat, id: JobId)
    requires Run(states, moves) && n < |states|
    ensures var s := states[n].store;
            (id in s.active && s.active[id] > s.clock) <==>
            (id in s.jobs && s.jobs[id].record.expiresAt > s.clock && !s.jobs[id].record.status.Terminal())
  {
    EveryRunIsSafe(states, moves, n);
    assert Counted(states[n].store, id) <==> Pending(states[n].store, id);
  }

  // ---- The record's whole history ----

  lemma PresentInBetween(states: seq<System>, moves: seq<Move>, i: nat, k: nat, j: nat, id: JobId)
    requires Run(states, moves) && i <= k <= j < |states|
    requires id in states[i].store.jobs && id in states[j].store.jobs
    ensures id in states[k].store.jobs
  {
    EveryRunIsSafe(states, moves, i);
    RunsMoveForward(states, moves, i, k);
    RunsMoveForward(states, moves, k, j);
    assert JobLater(states[i], states[k], id);
    assert JobLater(states[k], states[j], id);
  }

  /** The successive records of one job between two moments at which it is stored. */
  ghost function Trace(states: seq<System>, i: nat, j: nat, id: JobId): seq<Record>
    requires i <= j < |states|
    requires forall k :: i <= k <= j ==> id in states[k].store.jobs
  {
    seq(j - i + 1, k requires 0 <= k <= j - i => states[i + k].store.jobs[id].record)
  }

  lemma StepEvolves(s: System, m: Move, id: JobId)
    requires Invariant(s) && Enabled(s, m) && id in s.store.jobs && id in Step(s, m).store.jobs
    ensures Evolves(s.store.jobs[id].record, Step(s, m).store.jobs[id].record)
  {
    StepStoreLater(s, m);
  }

  lemma NextEvolves(states: seq<System>, moves: seq<Move>, n: nat, id: JobId)
    requires Run(states, moves) && n < |moves|
    requires id in states[n].store.jobs && id in states[n + 1].store.jobs
    ensures Evolves(states[n].store.jobs[id].record, states[n + 1].store.jobs[id].record)
  {
    EveryRunIsSafe(states, moves, n);
    StepEvolves(states[n], moves[n], id);
  }

  lemma TraceEvolves(states: seq<System>, moves: seq<Move>, i: nat, j: nat, id: JobId, k: nat)
    requires Run(states, moves) && i <= j < |states| && 0 < k <= j - i
    requires forall n :: i <= n <= j ==> id in states[n].store.jobs
    ensures Evolves(Trace(states, i, j, id)[k - 1], Trace(states, i, j, id)[k])
  {
    NextEvolves(states, moves, i + k - 1, id);
    assert Trace(states, i, j, id)[k] == states[i + k].store.jobs[id].record;
    assert Trace(states, i, j, id)[k - 1] == states[i + k - 1].store.jobs[id].record;
  }

  lemma TraceIsHistory(states: seq<System>, moves: seq<Move>, i: nat, j: nat, id: JobId)
    requires Run(states, moves) && i <= j < |states|
    requires forall k :: i <= k <= j ==> id in states[k].store.jobs
    ensures History(Trace(states, i, j, id))
  {
    forall k | 0 < k <= j - i ensures Evolves(Trace(states, i, j, id)[k - 1], Trace(states, i, j, id)[k]) {
      TraceEvolves(states, moves, i, j, id, k);
    }
  }

  /** Clients never ask for EXPIRED, so a stored job has a change left. */
  lemma StoredJobsAreNotExpired(states: seq<System>, moves: seq<Move>, n: nat, id: JobId)
    requires Run(states, moves) && n < |states| && id in states[n].store.jobs
    ensures states[n].store.jobs[id].record.status.Rank() >= 1
  {
    EveryRunIsSafe(states, moves, n);
    assert JobKeyOk(states[n].store, id);
  }

  /** Every committed status change follows the lifecycle graph, and a job has at most three of them. */
  lemma StatusFollowsTheGraph(states: seq<System>, moves: seq<Move>, i: nat, j: nat, id: JobId)
    requires Run(states, moves) && i <= j < |states|
    requires id in states[i].store.jobs && id in states[j].store.jobs
    ensures forall k :: i <= k <= j ==> id in states[k].store.jobs
    ensures History(Trace(states, i, j, id)) && StatusChanges(Trace(states, i, j, id)) <= 3
  {
    forall k | i <= k <= j ensures id in states[k].store.jobs {
      PresentInBetween(states, moves, i, k, j, id);
    }
    TraceIsHistory(states, moves, i, j, id);
    var trace := Trace(states, i, j, id);
    StatusChangesAreBounded(trace);
    StoredJobsAreNotExpired(states, moves, j, id);
    assert trace[|trace| - 1] == states[j].store.jobs[id].record && trace[0].status.Rank() <= 4;
  }

  // ---- What happens when the submitter's own FAILED write does not go through ----

  const AUDIO: BlobId := 0
  const JOB: JobId := 0
  const SUBMITTER: ClientId := 0
  const LIFETIME := 60_000_000

  function QueuedRecord(): Record {
    Record(Transcription, Queued, 0, LIFETIME, 0, false, None, None, 0)
  }

  /** The broker refuses the message, then the store refuses to record the failure. */
  function OrphaningMoves(): seq<Move> {
    [Submits(SUBMITTER, Transcription, AUDIO, LIFETIME),
     Acts(SUBMITTER, Reserves(JOB, QueuedRecord(), None)),
     Acts(SUBMITTER, Fail),
     Acts(SUBMITTER, Fail),
     Acts(SUBMITTER, Proceed)]
  }

  function At(s: System, spot: SubmitPoint): System {
    s.(clients := map[SUBMITTER := Submitter(Transcription, AUDIO, LIFETIME, spot)])
  }

  function Submitted(): System {
    At(Initial(0).(blobs := map[AUDIO := LIFETIME], owner := map[AUDIO := SUBMITTER]), Reserving)
  }

  function JobReserved(): System {
    var hash := Hash(QueuedRecord(), Some(Payload(Transcription, AUDIO)), None, Some(60_000));
    At(Submitted().(store := Store(0, map[JOB := hash], map[], map[JOB := LIFETIME], map[]),
                   audioOf := map[JOB := AUDIO]),
       Publishing(JOB))
  }

  function OrphaningStates(): seq<System> {
    var refused := At(JobReserved(), Discarding(Some(JOB))).(uncompensated := {JOB});
    [Initial(0), Submitted(), JobReserved(), At(JobReserved(), Compensating(JOB)), refused,
     At(refused, Refused(true)).(blobs := map[])]
  }

  lemma ReservingLeadsOn()
    ensures Enabled(Submitted(), OrphaningMoves()[1]) && Step(Submitted(), OrphaningMoves()[1]) == JobReserved()
  {
    assert CeilToMilliseconds(LIFETIME) == 60_000;
    assert Reserve(Submitted().store, JOB, QueuedRecord(), Payload(Transcription, AUDIO), None) == JobReserved().store;
  }

  lemma SubmittingLeadsOn()
    ensures Enabled(OrphaningStates()[0], OrphaningMoves()[0])
    ensures Step(OrphaningStates()[0], OrphaningMoves()[0]) == OrphaningStates()[1]
  {
  }

  lemma FailuresLeadOn(n: nat)
    requires n in {2, 3}
    ensures Enabled(OrphaningStates()[n], OrphaningMoves()[n])
    ensures Step(OrphaningStates()[n], OrphaningMoves()[n]) == OrphaningStates()[n + 1]
  {
  }

  lemma DiscardingLeadsOn()
    ensures Enabled(OrphaningStates()[4], OrphaningMoves()[4])
    ensures Step(OrphaningStates()[4], OrphaningMoves()[4]) == OrphaningStates()[5]
  {
  }

  /** That case is reachable: a live QUEUED job loses its audio. */
  lemma RefusedCompensationOrphansTheJob()
    ensures Run(OrphaningStates(), OrphaningMoves())
    ensures var s := OrphaningStates()[5];
            && Unexpired(s.store, JOB) && s.store.jobs[JOB].record.status == Queued
            && s.store.jobs[JOB].payload == Some(Payload(Transcription, AUDIO))
            && AUDIO !in s.blobs
  {
    forall n | 0 <= n < 5
      ensures Enabled(OrphaningStates()[n], OrphaningMoves()[n])
      ensures Step(OrphaningStates()[n], OrphaningMoves()[n]) == OrphaningStates()[n + 1]
    {
      if n == 0 { SubmittingLeadsOn(); } else if n == 1 { ReservingLeadsOn(); } else if n == 4 { DiscardingLeadsOn(); }
      else { FailuresLeadOn(n); }
    }
    assert OrphaningStates()[0] == Initial(0);
  }
}
