/** The expiring Redis keys behind the job store, and each store operation as one atomic step on them. */
module JobStore {
  import opened Wrappers
  import opened JobRecords

  type JobId = nat
  type BlobId = nat
  type Digest = nat
  type Fingerprint = nat

  datatype Payload = Payload(kind: Kind, audio: BlobId)
  datatype JobResult = JobResult(text: string)

  /** The hash at a job key; a write to a missing key would create one without payload or deadline. */
  datatype Hash = Hash(record: Record, payload: Option<Payload>, digest: Option<Digest>, deadline: Option<int>)
  datatype ResultEntry = ResultEntry(result: JobResult, deadline: int)
  datatype IdempotencyEntry = IdempotencyEntry(jobId: JobId, fingerprint: Fingerprint, deadline: int)

  /** The clock counts microseconds; key deadlines are milliseconds, as in Redis. */
  datatype Store = Store(
    clock: int,
    jobs: map<JobId, Hash>,
    results: map<JobId, ResultEntry>,
    active: map<JobId, int>,
    idempotency: map<Digest, IdempotencyEntry>)

  datatype Reply =
    | Missing
    | Found(record: Record)
    | Raised

  function CeilToMilliseconds(us: int): (ms: int)
    ensures ms * 1000 - 1000 < us <= ms * 1000
  {
    -((-us) / 1000)
  }

  predicate Dead(deadlineMs: int, clock: int) {
    deadlineMs * 1000 <= clock
  }

  /** Redis drops every key whose deadline has passed; members of the active index have no deadline. */
  function Evict(s: Store): Store {
    s.(jobs := map id | id in s.jobs &&
          !(s.jobs[id].deadline.Some? && Dead(s.jobs[id].deadline.value, s.clock)) :: s.jobs[id],
       results := map id | id in s.results && !Dead(s.results[id].deadline, s.clock) :: s.results[id],
       idempotency := map d | d in s.idempotency && !Dead(s.idempotency[d].deadline, s.clock) :: s.idempotency[d])
  }

  function Tick(s: Store, instant: int): Store {
    Evict(s.(clock := instant))
  }

  /** HSET record, with ZREM for a terminal target, exactly as EXEC applies it. */
  function WriteRecord(s: Store, id: JobId, r: Record, removeFromActive: bool): Store {
    s.(jobs := s.jobs[id := if id in s.jobs then s.jobs[id].(record := r) else Hash(r, None, None, None)],
       active := if removeFromActive then s.active - {id} else s.active)
  }

  function Change(s: Store, id: JobId, m: Mutation): (Store, Reply) {
    if id !in s.jobs then (s, Missing)
    else
      match m.Apply(s.jobs[id].record)
      case ValueError => (s, Raised)
      case Ok(r) => (WriteRecord(s, id, r, m.RemovesFromActive()), Found(r))
  }

  /** The write half of save_result: record, result with the record's deadline, and the index. */
  function WriteResult(s: Store, id: JobId, r: Record, result: JobResult): Store {
    WriteRecord(s, id, r, true).(results := s.results[id := ResultEntry(result, CeilToMilliseconds(r.expiresAt))])
  }

  function SaveResult(s: Store, id: JobId, result: JobResult): (Store, Reply) {
    if id !in s.jobs then (s, Missing)
    else
      var r := s.jobs[id].record;
      if r.cancellationRequested || r.status == Cancelling then (s, Found(r))
      else
        match Transition(r, Succeeded, None, None)
        case ValueError => (s, Raised)
        case Ok(done) => (WriteResult(s, id, done, result), Found(done))
  }

  /** Reads a result, deleting one that no SUCCEEDED record vouches for. */
  function GetResult(s: Store, id: JobId): (Store, Option<JobResult>) {
    if id in s.jobs && s.jobs[id].record.status == Succeeded then
      (s, if id in s.results then Some(s.results[id].result) else None)
    else
      (s.(results := s.results - {id}), None)
  }

  /** The deleting EXEC, given the digest that an earlier, separate HGET returned. */
  function DeleteKeys(s: Store, id: JobId, digest: Option<Digest>): Store {
    s.(jobs := s.jobs - {id},
       results := s.results - {id},
       idempotency := if digest.Some? then s.idempotency - {digest.value} else s.idempotency,
       active := s.active - {id})
  }

  function Delete(s: Store, id: JobId): Store {
    DeleteKeys(s, id, if id in s.jobs then s.jobs[id].digest else None)
  }

  function CleanupIndex(s: Store, cutoff: int): Store {
    s.(active := map id | id in s.active && s.active[id] > cutoff :: s.active[id])
  }

  /** An idempotency digest and the fingerprint of the request it was first used for. */
  datatype Claim = Claim(digest: Digest, fingerprint: Fingerprint)

  /** The reserving EXEC; keys whose deadline has already passed vanish at once. */
  function Reserve(s: Store, id: JobId, r: Record, p: Payload, claim: Option<Claim>): Store {
    var deadline := CeilToMilliseconds(r.expiresAt);
    var digest := if claim.Some? then Some(claim.value.digest) else None;
    Evict(s.(
      jobs := s.jobs[id := Hash(r, Some(p), digest, Some(deadline))],
      active := s.active[id := r.expiresAt],
      idempotency := if claim.None? then s.idempotency
                     else s.idempotency[claim.value.digest := IdempotencyEntry(id, claim.value.fingerprint, deadline)]))
  }

  /** A record as the submission services build it. */
  predicate FreshRecord(r: Record) {
    && r.Valid()
    && r.status == Queued && r.progress == 0 && !r.cancellationRequested
    && r.taskId.None? && r.failureCode.None? && r.version == 0
  }

  // ---- What holds between the keys ----

  ghost predicate JobKeyOk(s: Store, id: JobId)
    requires id in s.jobs
  {
    var h := s.jobs[id];
    && h.record.Valid() && h.record.status != Expired
    && CancellationHonoured(h.record)
    && h.payload.Some? && h.payload.value.kind == h.record.kind
    && h.deadline == Some(CeilToMilliseconds(h.record.expiresAt))
    && !Dead(h.deadline.value, s.clock)
  }

  ghost predicate KeysOk(s: Store) {
    forall id :: id in s.jobs ==> JobKeyOk(s, id)
  }

  ghost predicate Unexpired(s: Store, id: JobId) {
    id in s.jobs && s.jobs[id].record.expiresAt > s.clock
  }

  /** A job that still occupies a capacity slot. */
  ghost predicate Pending(s: Store, id: JobId) {
    Unexpired(s, id) && !s.jobs[id].record.status.Terminal()
  }

  /** Members that ZCOUNT from the current instant would count. */
  ghost predicate Counted(s: Store, id: JobId) {
    id in s.active && s.active[id] > s.clock
  }

  /** The secondary index lists exactly the pending jobs, each under its own expiry. */
  ghost predicate IndexAgrees(s: Store) {
    && (forall id :: Counted(s, id) <==> Pending(s, id))
    && (forall id :: id in s.jobs && id in s.active ==> s.active[id] == s.jobs[id].record.expiresAt)
  }

  /** A result is stored exactly for the SUCCEEDED jobs and lives as long as the record. */
  ghost predicate ResultsAgree(s: Store) {
    && (forall id :: id in s.results <==> id in s.jobs && s.jobs[id].record.status == Succeeded)
    && (forall id :: id in s.results ==> Some(s.results[id].deadline) == s.jobs[id].deadline)
  }

  ghost predicate ClaimOk(s: Store, d: Digest)
    requires d in s.idempotency
  {
    var e := s.idempotency[d];
    e.jobId in s.jobs && s.jobs[e.jobId].digest == Some(d) && s.jobs[e.jobId].deadline == Some(e.deadline)
  }

  /** Each live job that claimed a digest is the one the digest names, and conversely. */
  ghost predicate ClaimsAgree(s: Store) {
    && (forall d :: d in s.idempotency ==> ClaimOk(s, d))
    && (forall id :: id in s.jobs && s.jobs[id].digest.Some? ==>
          s.jobs[id].digest.value in s.idempotency && s.idempotency[s.jobs[id].digest.value].jobId == id)
  }

  ghost predicate Consistent(s: Store) {
    KeysOk(s) && IndexAgrees(s) && ResultsAgree(s)
  }

  // ---- Every operation keeps the keys consistent ----

  lemma TickKeepsConsistent(s: Store, instant: int)
    requires Consistent(s) && s.clock <= instant
    ensures Consistent(Tick(s, instant))
    ensures ClaimsAgree(s) ==> ClaimsAgree(Tick(s, instant))
  {
    var t := Tick(s, instant);
    forall id ensures Counted(t, id) <==> Pending(t, id) {
      assert Counted(s, id) <==> Pending(s, id);
    }
  }

  /** Rewriting a record in place is safe when it leaves the index exactly on becoming terminal. */
  ghost predicate SafeRewrite(before: Record, after: Record, removeFromActive: bool) {
    && after.kind == before.kind && after.expiresAt == before.expiresAt
    && after.Valid() && after.status != Expired && CancellationHonoured(after)
    && (after.status == Succeeded <==> before.status == Succeeded)
    && (removeFromActive ==> after.status.Terminal())
    && (!removeFromActive ==> after.status.Terminal() == before.status.Terminal())
  }

  lemma WriteKeepsIndex(s: Store, id: JobId, r: Record, removeFromActive: bool)
    requires IndexAgrees(s) && id in s.jobs && r.expiresAt == s.jobs[id].record.expiresAt
    requires if removeFromActive then r.status.Terminal()
             else r.status.Terminal() == s.jobs[id].record.status.Terminal()
    ensures IndexAgrees(WriteRecord(s, id, r, removeFromActive))
  {
    var t := WriteRecord(s, id, r, removeFromActive);
    forall j ensures Counted(t, j) <==> Pending(t, j) {
      assert Counted(s, j) <==> Pending(s, j);
    }
  }

  lemma WriteKeepsConsistent(s: Store, id: JobId, r: Record, removeFromActive: bool)
    requires Consistent(s) && id in s.jobs && SafeRewrite(s.jobs[id].record, r, removeFromActive)
    ensures Consistent(WriteRecord(s, id, r, removeFromActive))
  {
    var t := WriteRecord(s, id, r, removeFromActive);
    assert JobKeyOk(s, id);
    WriteKeepsIndex(s, id, r, removeFromActive);
    assert KeysOk(t) by {
      forall j | j in t.jobs ensures JobKeyOk(t, j) {
        assert JobKeyOk(s, j);
      }
    }
  }

  lemma WriteKeepsClaims(s: Store, id: JobId, r: Record, removeFromActive: bool)
    requires ClaimsAgree(s) && id in s.jobs
    ensures ClaimsAgree(WriteRecord(s, id, r, removeFromActive))
  {
    var t := WriteRecord(s, id, r, removeFromActive);
    forall d | d in t.idempotency ensures ClaimOk(t, d) {
      assert ClaimOk(s, d);
    }
  }

  lemma ChangeKeepsConsistent(s: Store, id: JobId, m: Mutation)
    requires Consistent(s) && m.FromClients()
    ensures Consistent(Change(s, id, m).0)
    ensures ClaimsAgree(s) ==> ClaimsAgree(Change(s, id, m).0)
  {
    if id in s.jobs && m.Apply(s.jobs[id].record).Ok? {
      var r := s.jobs[id].record;
      assert JobKeyOk(s, id);
      MutationsEvolve(m, r);
      WriteKeepsConsistent(s, id, m.Apply(r).value, m.RemovesFromActive());
      if ClaimsAgree(s) {
        WriteKeepsClaims(s, id, m.Apply(r).value, m.RemovesFromActive());
      }
    }
  }

  lemma SavingKeepsKeys(s: Store, id: JobId, done: Record, result: JobResult)
    requires KeysOk(s) && id in s.jobs && SafeResult(s.jobs[id].record, done)
    ensures KeysOk(WriteResult(s, id, done, result))
  {
    var t := WriteResult(s, id, done, result);
    forall j | j in t.jobs ensures JobKeyOk(t, j) {
      assert JobKeyOk(s, j);
    }
  }

  /** What a result may be written with. */
  ghost predicate SafeResult(before: Record, after: Record) {
    && after.kind == before.kind && after.expiresAt == before.expiresAt && after.Valid()
    && after.status == Succeeded && !after.cancellationRequested
  }

  lemma SaveKeepsConsistent(s: Store, id: JobId, result: JobResult)
    requires Consistent(s)
    ensures Consistent(SaveResult(s, id, result).0)
    ensures ClaimsAgree(s) ==> ClaimsAgree(SaveResult(s, id, result).0)
  {
    var t := SaveResult(s, id, result).0;
    if id in s.jobs && t != s {
      assert JobKeyOk(s, id);
      var r := s.jobs[id].record;
      MutationsEvolve(MoveTo(Succeeded, None, None), r);
      var done := Transition(r, Succeeded, None, None).value;
      SavingKeepsKeys(s, id, done, result);
      WriteKeepsIndex(s, id, done, true);
      assert IndexAgrees(t) by {
        assert forall j :: Counted(t, j) <==> Counted(WriteRecord(s, id, done, true), j);
        assert forall j :: Pending(t, j) <==> Pending(WriteRecord(s, id, done, true), j);
      }
      if ClaimsAgree(s) {
        WriteKeepsClaims(s, id, done, true);
        ClaimsIgnoreResults(WriteRecord(s, id, done, true), t);
      }
    }
  }

  lemma ClaimsIgnoreResults(s: Store, t: Store)
    requires t.jobs == s.jobs && t.idempotency == s.idempotency && ClaimsAgree(s)
    ensures ClaimsAgree(t)
  {
    forall d | d in t.idempotency ensures ClaimOk(t, d) {
      assert ClaimOk(s, d);
    }
  }

  lemma DeletingKeepsConsistent(s: Store, id: JobId, digest: Option<Digest>)
    requires Consistent(s)
    ensures Consistent(DeleteKeys(s, id, digest))
  {
    var t := DeleteKeys(s, id, digest);
    forall j | j in t.jobs ensures JobKeyOk(t, j) {
      assert JobKeyOk(s, j);
    }
    forall j ensures Counted(t, j) <==> Pending(t, j) {
      assert Counted(s, j) <==> Pending(s, j);
    }
  }

  lemma DeleteKeepsConsistent(s: Store, id: JobId)
    requires Consistent(s)
    ensures Consistent(Delete(s, id))
    ensures ClaimsAgree(s) ==> ClaimsAgree(Delete(s, id))
  {
    var digest := if id in s.jobs then s.jobs[id].digest else None;
    DeletingKeepsConsistent(s, id, digest);
    if ClaimsAgree(s) {
      assert DigestIsCurrent(s, id, digest) by {
        if digest.Some? && digest.value in s.idempotency {
          assert ClaimOk(s, digest.value);
        }
      }
      StaleDeleteBreaksClaims(s, id, digest);
    }
  }

  lemma CleanupKeepsConsistent(s: Store, cutoff: int)
    requires Consistent(s) && cutoff <= s.clock
    ensures Consistent(CleanupIndex(s, cutoff))
    ensures ClaimsAgree(s) ==> ClaimsAgree(CleanupIndex(s, cutoff))
  {
    var t := CleanupIndex(s, cutoff);
    forall j ensures Counted(t, j) <==> Pending(t, j) {
      assert Counted(s, j) <==> Pending(s, j);
    }
  }

  /** Evicting finds nothing to drop among keys that are in order. */
  lemma ReserveKeepsOthers(s: Store, id: JobId, r: Record, p: Payload, claim: Option<Claim>)
    requires Consistent(s) && id !in s.jobs
    ensures var t := Reserve(s, id, r, p, claim);
            && t.results == s.results && t.clock == s.clock
            && (forall j :: j != id ==> (j in t.jobs <==> j in s.jobs))
            && (forall j :: j in s.jobs ==> j in t.jobs && t.jobs[j] == s.jobs[j])
            && (id in t.jobs <==> !Dead(CeilToMilliseconds(r.expiresAt), s.clock))
            && (id in t.jobs ==> t.jobs[id].record == r)
  {
    var t := Reserve(s, id, r, p, claim);
    forall j | j in s.jobs ensures j in t.jobs && t.jobs[j] == s.jobs[j] {
      assert JobKeyOk(s, j);
    }
    forall j | j in s.results ensures j in t.results {
      assert JobKeyOk(s, j);
    }
    assert t.results == s.results;
  }

  lemma ReserveKeepsIndex(s: Store, t: Store, id: JobId, r: Record)
    requires IndexAgrees(s) && id !in s.jobs && t.clock == s.clock && t.active == s.active[id := r.expiresAt]
    requires !r.status.Terminal()
    requires forall j :: j != id ==> (j in t.jobs <==> j in s.jobs)
    requires forall j :: j in s.jobs ==> j in t.jobs && t.jobs[j] == s.jobs[j]
    requires id in t.jobs <==> !Dead(CeilToMilliseconds(r.expiresAt), s.clock)
    requires id in t.jobs ==> t.jobs[id].record == r
    ensures IndexAgrees(t)
  {
    forall j ensures Counted(t, j) <==> Pending(t, j) {
      assert Counted(s, j) <==> Pending(s, j);
    }
  }

  lemma ReserveKeepsConsistent(s: Store, id: JobId, r: Record, p: Payload, claim: Option<Claim>)
    requires Consistent(s) && id !in s.jobs && FreshRecord(r) && p.kind == r.kind
    ensures Consistent(Reserve(s, id, r, p, claim))
  {
    var t := Reserve(s, id, r, p, claim);
    ReserveKeepsOthers(s, id, r, p, claim);
    ReserveKeepsIndex(s, t, id, r);
    forall j | j in t.jobs ensures JobKeyOk(t, j) {
      if j != id {
        assert JobKeyOk(s, j);
      }
    }
  }

  lemma ReserveKeepsClaims(s: Store, id: JobId, r: Record, p: Payload, claim: Option<Claim>)
    requires KeysOk(s) && ClaimsAgree(s) && id !in s.jobs
    requires claim.Some? ==> claim.value.digest !in s.idempotency
    ensures ClaimsAgree(Reserve(s, id, r, p, claim))
  {
    var t := Reserve(s, id, r, p, claim);
    forall j | j in s.jobs ensures j in t.jobs && t.jobs[j] == s.jobs[j] {
      assert JobKeyOk(s, j);
    }
    forall d | d in t.idempotency ensures ClaimOk(t, d) {
      if d in s.idempotency {
        assert ClaimOk(s, d);
      }
    }
  }

  /** In a consistent store reading a result never deletes one, and finds it exactly for SUCCEEDED jobs. */
  lemma ResultsAreNeverOrphaned(s: Store, id: JobId)
    requires Consistent(s)
    ensures GetResult(s, id).0 == s
    ensures GetResult(s, id).1.Some? <==> id in s.jobs && s.jobs[id].record.status == Succeeded
  {
    if id !in s.results {
      assert s.results - {id} == s.results;
    }
  }

  /** The digest still belongs to the job being deleted, or to nobody. */
  ghost predicate DigestIsCurrent(s: Store, id: JobId, digest: Option<Digest>) {
    && (id in s.jobs && s.jobs[id].digest.Some? ==> digest == s.jobs[id].digest)
    && (digest.Some? && digest.value in s.idempotency ==> s.idempotency[digest.value].jobId == id)
  }

  /**
   * delete reads the digest outside its transaction. It leaves the claims intact exactly when that digest is still the
   * job's own; otherwise it makes the store forget a live job's claim, or remember a dead one's.
   */
  lemma StaleDeleteBreaksClaims(s: Store, id: JobId, digest: Option<Digest>)
    requires ClaimsAgree(s)
    ensures ClaimsAgree(DeleteKeys(s, id, digest)) <==> DigestIsCurrent(s, id, digest)
  {
    var t := DeleteKeys(s, id, digest);
    if DigestIsCurrent(s, id, digest) {
      forall d | d in t.idempotency ensures ClaimOk(t, d) {
        assert ClaimOk(s, d);
      }
    } else if id in s.jobs && s.jobs[id].digest.Some? && digest != s.jobs[id].digest {
      var d := s.jobs[id].digest.value;
      assert d in t.idempotency && !ClaimOk(t, d);
    } else {
      var d := digest.value;
      assert ClaimOk(s, d);
      var other := s.idempotency[d].jobId;
      assert other in t.jobs && t.jobs[other].digest == Some(d) && d !in t.idempotency;
    }
  }

  /**
   * How that happens: a delete has read the digest of a job, a second delete removes the job, and its digest is claimed
   * for a new job. The EXEC of the first delete then forgets the claim of a job that lives on.
   */
  lemma StaleDeleteForgetsALiveClaim(s: Store, id: JobId, next: JobId, r: Record, p: Payload, f: Fingerprint)
    requires Consistent(s) && ClaimsAgree(s) && id in s.jobs && s.jobs[id].digest.Some?
    requires next !in s.jobs && !Dead(CeilToMilliseconds(r.expiresAt), s.clock)
    ensures var read := s.jobs[id].digest;
            var between := Reserve(Delete(s, id), next, r, p, Some(Claim(read.value, f)));
            var t := DeleteKeys(between, id, read);
            && ClaimsAgree(between)
            && next in t.jobs && t.jobs[next].digest == read && read.value !in t.idempotency
  {
    var digest := s.jobs[id].digest.value;
    var claim := Some(Claim(digest, f));
    var deleted := Delete(s, id);
    DeleteKeepsConsistent(s, id);
    ReserveKeepsClaims(deleted, next, r, p, claim);
    ReserveKeepsOthers(deleted, next, r, p, claim);
  }

  const SHORT_JOB := Record(Transcription, Queued, 0, 1_000_000, 0, false, None, None, 0)

  function OneClaimedJob(): Store {
    Reserve(Store(0, map[], map[], map[], map[]), 0, SHORT_JOB, Payload(Transcription, 0), Some(Claim(0, 0)))
  }

  /** Such a moment exists, for instance with a single claimed job in the store. */
  lemma StaleDeleteIsPossible()
    ensures var s := OneClaimedJob();
            && Consistent(s) && ClaimsAgree(s) && 0 in s.jobs && s.jobs[0].digest.Some?
            && 1 !in s.jobs && !Dead(CeilToMilliseconds(SHORT_JOB.expiresAt), s.clock)
  {
    var empty := Store(0, map[], map[], map[], map[]);
    ReserveKeepsConsistent(empty, 0, SHORT_JOB, Payload(Transcription, 0), Some(Claim(0, 0)));
    ReserveKeepsClaims(empty, 0, SHORT_JOB, Payload(Transcription, 0), Some(Claim(0, 0)));
    ReserveKeepsOthers(empty, 0, SHORT_JOB, Payload(Transcription, 0), Some(Claim(0, 0)));
    assert CeilToMilliseconds(SHORT_JOB.expiresAt) == 1000;
  }

  // ---- What any operation may do to the jobs that already exist ----

  /** One step from s to t in which no job but `created` can appear. */
  ghost predicate Follows(s: Store, t: Store, created: Option<JobId>) {
    && s.clock <= t.clock
    && (forall id :: id in t.jobs && id !in s.jobs ==> created == Some(id))
    && (forall id :: id in s.jobs && id in t.jobs ==>
          && Evolves(s.jobs[id].record, t.jobs[id].record)
          && (s.jobs[id].record.status.Terminal() ==> t.jobs[id].record.status == s.jobs[id].record.status)
          && t.jobs[id] == s.jobs[id].(record := t.jobs[id].record))
    && (forall id :: id in s.results && id in t.results ==> t.results[id] == s.results[id])
  }

  lemma TickFollows(s: Store, instant: int)
    requires s.clock <= instant
    ensures Follows(s, Tick(s, instant), None)
  {
  }

  lemma WriteFollows(s: Store, t: Store, id: JobId, r: Record)
    requires id in s.jobs && t.clock == s.clock && t.jobs == s.jobs[id := s.jobs[id].(record := r)]
    requires Evolves(s.jobs[id].record, r)
      && (s.jobs[id].record.status.Terminal() ==> r.status == s.jobs[id].record.status)
    requires forall j :: j in s.results && j in t.results ==> t.results[j] == s.results[j]
    ensures Follows(s, t, None)
  {
  }

  lemma ChangeFollows(s: Store, id: JobId, m: Mutation)
    requires KeysOk(s) && m.FromClients()
    ensures Follows(s, Change(s, id, m).0, None)
  {
    if id in s.jobs && m.Apply(s.jobs[id].record).Ok? {
      assert JobKeyOk(s, id);
      MutationsEvolve(m, s.jobs[id].record);
      WriteFollows(s, Change(s, id, m).0, id, m.Apply(s.jobs[id].record).value);
    }
  }

  lemma SaveFollows(s: Store, id: JobId, result: JobResult)
    requires Consistent(s)
    ensures Follows(s, SaveResult(s, id, result).0, None)
  {
    if id in s.jobs && SaveResult(s, id, result).0 != s {
      assert JobKeyOk(s, id);
      MutationsEvolve(MoveTo(Succeeded, None, None), s.jobs[id].record);
      assert id !in s.results;
      WriteFollows(s, SaveResult(s, id, result).0, id, Transition(s.jobs[id].record, Succeeded, None, None).value);
    }
  }

  lemma ReserveFollows(s: Store, id: JobId, r: Record, p: Payload, claim: Option<Claim>)
    requires id !in s.jobs
    ensures Follows(s, Reserve(s, id, r, p, claim), Some(id))
  {
  }
}
