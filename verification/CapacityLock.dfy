/** Concurrent reservations under the expiring capacity lock, one Redis command per step. */
module CapacityLock {
  import opened Wrappers
  import opened Basics
  import opened JobRecords
  import opened JobStore
  import opened JobProtocol

  const LOCK_TTL_US := 10_000_000

  datatype Lock = Lock(token: ClientId, expiresAt: int)

  datatype Request = Request(id: JobId, record: Record, payload: Payload, claim: Option<Claim>)

  datatype Outcome =
    | ReservedNew
    | Replayed(id: JobId)
    | Conflict
    | AtCapacity
    | Broken

  /** The commands of reserve in order; the set held from ZCOUNT on stands for the count it returned. */
  datatype Point =
    | Locking
    | CheckingClaim
    | ReadingClaimed(job: JobId)
    | ForgettingClaim
    | Counting
    | Probing(counted: set<JobId>)
    | Committing(counted: set<JobId>)
    | Unlocking(outcome: Outcome)
    | UnlockWatched(outcome: Outcome, version: nat)
    | UnlockReady(outcome: Outcome, version: nat)
    | Returned(outcome: Outcome)

  /** The token is the caller's own identity: drawn at random, never twice. */
  datatype Reserver = Reserver(request: Request, since: int, point: Point) {
    predicate InSection() {
      point.CheckingClaim? || point.ReadingClaimed? || point.ForgettingClaim?
      || point.Counting? || point.Probing? || point.Committing?
    }

    predicate FoundNoClaim() {
      point.ForgettingClaim? || point.Counting? || point.Probing? || point.Committing?
    }
  }

  /** `requested` and `committed` are history: which caller drew each job id, and who executed a reserving EXEC. */
  datatype World = World(
    store: Store,
    lock: Option<Lock>,
    lockVersion: nat,
    reservers: map<ClientId, Reserver>,
    requested: map<JobId, ClientId>,
    committed: set<ClientId>,
    arrived: set<ClientId>)

  datatype Event =
    | Elapses(instant: int)
    | Cleans(cutoff: int)
    | OtherCall(client: Client)
    | Arrives(cid: ClientId, request: Request)
    | Dies(cid: ClientId)
    | Raises(cid: ClientId)
    | Proceeds(cid: ClientId)

  // ---- One command of one caller ----

  function Goes(w: World, cid: ClientId, point: Point): World
    requires cid in w.reservers
  {
    w.(reservers := w.reservers[cid := w.reservers[cid].(point := point)])
  }

  /** ZCOUNT active since +inf. */
  function Members(s: Store, since: int): set<JobId> {
    set id | id in s.active && s.active[id] >= since
  }

  function Advance(w: World, cid: ClientId, maxPending: nat): World
    requires cid in w.reservers
  {
    var r := w.reservers[cid];
    var q := r.request;
    match r.point
    case Locking =>
      if w.lock.Some? then w
      else
        Goes(w, cid, if q.claim.Some? then CheckingClaim else Counting).(
          lock := Some(Lock(cid, w.store.clock + LOCK_TTL_US)), lockVersion := w.lockVersion + 1)
    case CheckingClaim =>
      if q.claim.None? || q.claim.value.digest !in w.store.idempotency then Goes(w, cid, Counting)
      else
        var entry := w.store.idempotency[q.claim.value.digest];
        Goes(w, cid,
             if entry.fingerprint != q.claim.value.fingerprint then Unlocking(Conflict)
             else ReadingClaimed(entry.jobId))
    case ReadingClaimed(job) =>
      Goes(w, cid, if job in w.store.jobs then Unlocking(Replayed(job)) else ForgettingClaim)
    case ForgettingClaim =>
      Goes(w, cid, Counting).(
        store :=
          if q.claim.Some? then w.store.(idempotency := w.store.idempotency - {q.claim.value.digest})
          else w.store)
    case Counting =>
      var members := Members(w.store, r.since);
      Goes(w, cid, if |members| >= maxPending then Unlocking(AtCapacity) else Probing(members))
    case Probing(counted) =>
      Goes(w, cid, if q.id in w.store.jobs then Unlocking(Broken) else Committing(counted))
    case Committing(_) =>
      Goes(w, cid, Unlocking(ReservedNew)).(
        store := Reserve(w.store, q.id, q.record, q.payload, q.claim), committed := w.committed + {cid})
    case Unlocking(outcome) => Goes(w, cid, UnlockWatched(outcome, w.lockVersion))
    case UnlockWatched(outcome, version) =>
      Goes(w, cid,
           if w.lock.Some? && w.lock.value.token == cid then UnlockReady(outcome, version)
           else Returned(outcome))
    case UnlockReady(outcome, version) =>
      if w.lockVersion == version then Goes(w, cid, Returned(outcome)).(lock := None, lockVersion := w.lockVersion + 1)
      else Goes(w, cid, Unlocking(outcome))
    case Returned(_) => w
  }

  // ---- Events ----

  predicate Possible(w: World, e: Event) {
    match e
    case Elapses(instant) => w.store.clock <= instant
    case Cleans(cutoff) => cutoff <= w.store.clock
    case OtherCall(_) => true
    case Arrives(cid, q) =>
      && cid !in w.arrived && q.id !in w.requested
      && FreshRecord(q.record) && q.payload.kind == q.record.kind
    case Dies(cid) => cid in w.reservers
    case Raises(cid) => cid in w.reservers && w.reservers[cid].InSection()
    case Proceeds(cid) => cid in w.reservers
  }

  function After(w: World, e: Event, maxPending: nat): World
    requires Possible(w, e)
  {
    match e
    case Elapses(instant) =>
      var expired := w.lock.Some? && w.lock.value.expiresAt <= instant;
      w.(store := Tick(w.store, instant),
         lock := if expired then None else w.lock,
         lockVersion := if expired then w.lockVersion + 1 else w.lockVersion)
    case Cleans(cutoff) => w.(store := CleanupIndex(w.store, cutoff))
    case OtherCall(client) => w.(store := StoreEffect(w.store, CallOf(client)).0)
    case Arrives(cid, q) =>
      w.(reservers := w.reservers[cid := Reserver(q, w.store.clock, Locking)],
         requested := w.requested[q.id := cid],
         arrived := w.arrived + {cid})
    case Dies(cid) => w.(reservers := w.reservers - {cid})
    case Raises(cid) => Goes(w, cid, Unlocking(Broken))
    case Proceeds(cid) => Advance(w, cid, maxPending)
  }

  function Start(clock: int): World {
    World(Store(clock, map[], map[], map[], map[]), None, 0, map[], map[], {}, {})
  }

  /** A lock holder finishes its section before the lock expires: time never passes the deadline of a busy lock. */
  ghost predicate InTime(w: World, e: Event) {
    e.Elapses? && w.lock.Some? && w.lock.value.expiresAt <= e.instant ==>
      !(w.lock.value.token in w.reservers && w.reservers[w.lock.value.token].InSection())
  }

  ghost predicate Course(ws: seq<World>, es: seq<Event>, maxPending: nat) {
    && |ws| == |es| + 1
    && (exists clock :: ws[0] == Start(clock))
    && (forall i :: 0 <= i < |es| ==> Possible(ws[i], es[i]) && ws[i + 1] == After(ws[i], es[i], maxPending))
  }

  ghost predicate Timely(ws: seq<World>, es: seq<Event>) {
    |ws| == |es| + 1 && forall i :: 0 <= i < |es| ==> InTime(ws[i], es[i])
  }

  // ---- True in every course: job ids, and whose lock is released ----

  ghost predicate ReserverOk(w: World, cid: ClientId, r: Reserver) {
    && cid in w.arrived
    && FreshRecord(r.request.record) && r.request.payload.kind == r.request.record.kind
    && r.since <= w.store.clock
    && r.request.id in w.requested && w.requested[r.request.id] == cid
    && (r.point.Locking? || r.InSection() ==> cid !in w.committed)
    && (r.point.UnlockReady? ==>
          && r.point.version <= w.lockVersion
          && (r.point.version == w.lockVersion ==> w.lock.Some? && w.lock.value.token == cid))
    && (r.point.UnlockWatched? ==> r.point.version <= w.lockVersion)
  }

  ghost predicate Sound(w: World) {
    && Consistent(w.store)
    && (forall id :: id in w.store.jobs ==> id in w.requested && w.requested[id] in w.committed)
    && (forall id :: id in w.requested ==> w.requested[id] in w.arrived)
    && (w.lock.Some? ==> w.lock.value.token in w.arrived)
    && w.committed <= w.arrived
    && (forall cid :: cid in w.reservers ==> ReserverOk(w, cid, w.reservers[cid]))
  }

  lemma OtherCallIsConsistent(s: Store, client: Client)
    requires Consistent(s)
    ensures Consistent(StoreEffect(s, CallOf(client)).0)
    ensures ClaimsAgree(s) ==> ClaimsAgree(StoreEffect(s, CallOf(client)).0)
  {
    match CallOf(client)
    case Update(id, m) => ChangeKeepsConsistent(s, id, m);
    case Save(id, result) => SaveKeepsConsistent(s, id, result);
    case DeleteJob(id) => DeleteKeepsConsistent(s, id);
    case _ =>
  }

  /** What the steps that reserve nothing do to the store. */
  ghost predicate Shrinks(s: Store, t: Store) {
    && s.clock <= t.clock
    && (forall id :: id in t.jobs ==> id in s.jobs && t.jobs[id].digest == s.jobs[id].digest)
    && (forall id :: Pending(t, id) ==> Pending(s, id))
    && (forall d :: d in t.idempotency ==> d in s.idempotency && t.idempotency[d] == s.idempotency[d])
  }

  lemma FollowsShrinks(s: Store, t: Store)
    requires Follows(s, t, None)
    requires forall d :: d in t.idempotency ==> d in s.idempotency && t.idempotency[d] == s.idempotency[d]
    ensures Shrinks(s, t)
  {
    assert forall id :: id in t.jobs ==> id in s.jobs;
  }

  lemma DeleteShrinks(s: Store, id: JobId)
    ensures Shrinks(s, Delete(s, id))
  {
  }

  lemma NothingShrinks(s: Store)
    ensures Shrinks(s, s)
  {
  }

  lemma ChangeShrinks(s: Store, id: JobId, m: Mutation)
    requires Consistent(s) && m.FromClients()
    ensures Shrinks(s, Change(s, id, m).0)
  {
    ChangeFollows(s, id, m);
    FollowsShrinks(s, Change(s, id, m).0);
  }

  lemma SaveShrinks(s: Store, id: JobId, result: JobResult)
    requires Consistent(s)
    ensures Shrinks(s, SaveResult(s, id, result).0)
  {
    SaveFollows(s, id, result);
    FollowsShrinks(s, SaveResult(s, id, result).0);
  }

  lemma OtherCallShrinks(s: Store, client: Client)
    requires Consistent(s)
    ensures Shrinks(s, StoreEffect(s, CallOf(client)).0)
  {
    var call := CallOf(client);
    match call
    case Update(id, m) => ChangeShrinks(s, id, m);
    case Save(id, result) => SaveShrinks(s, id, result);
    case DeleteJob(id) => DeleteShrinks(s, id);
    case _ =>
      assert StoreEffect(s, call).0 == s;
      NothingShrinks(s);
  }

  /** Events after which no caller stands elsewhere and no job is new. */
  predicate Quiet(e: Event) {
    e.Elapses? || e.Cleans? || e.OtherCall?
  }

  lemma QuietEventsShrink(w: World, e: Event, maxPending: nat)
    requires Consistent(w.store) && Possible(w, e) && Quiet(e)
    ensures var t := After(w, e, maxPending).store;
            Consistent(t) && Shrinks(w.store, t) && (ClaimsAgree(w.store) ==> ClaimsAgree(t))
  {
    match e
    case Elapses(instant) =>
      TickKeepsConsistent(w.store, instant);
      TickFollows(w.store, instant);
      FollowsShrinks(w.store, Tick(w.store, instant));
    case Cleans(cutoff) => CleanupKeepsConsistent(w.store, cutoff);
    case OtherCall(client) => OtherCallIsConsistent(w.store, client); OtherCallShrinks(w.store, client);
  }

  lemma ForgettingIsConsistent(s: Store, d: Digest)
    requires Consistent(s)
    ensures Consistent(s.(idempotency := s.idempotency - {d}))
  {
    var t := s.(idempotency := s.idempotency - {d});
    assert forall id :: (Counted(t, id) <==> Counted(s, id)) && (Pending(t, id) <==> Pending(s, id));
    assert forall id :: id in t.jobs && JobKeyOk(s, id) ==> JobKeyOk(t, id);
  }

  lemma AdvanceIsConsistent(w: World, cid: ClientId, maxPending: nat)
    requires Sound(w) && cid in w.reservers
    ensures Consistent(Advance(w, cid, maxPending).store)
    ensures w.store.clock == Advance(w, cid, maxPending).store.clock
  {
    var r := w.reservers[cid];
    assert ReserverOk(w, cid, r);
    match r.point
    case ForgettingClaim =>
      if r.request.claim.Some? {
        ForgettingIsConsistent(w.store, r.request.claim.value.digest);
      }
    case Committing(_) =>
      assert r.request.id !in w.store.jobs;
      ReserveKeepsConsistent(w.store, r.request.id, r.request.record, r.request.payload, r.request.claim);
    case _ =>
  }

  lemma QuietEventsAreSound(w: World, e: Event, maxPending: nat)
    requires Sound(w) && Possible(w, e) && Quiet(e)
    ensures Sound(After(w, e, maxPending))
  {
    QuietEventsShrink(w, e, maxPending);
    var v := After(w, e, maxPending);
    forall cid | cid in v.reservers ensures ReserverOk(v, cid, v.reservers[cid]) {
      assert ReserverOk(w, cid, w.reservers[cid]);
    }
  }

  /** One command changes the lock only by acquiring a free one or releasing the caller's own. */
  lemma AdvanceTouchesOwnLock(w: World, cid: ClientId, maxPending: nat)
    requires cid in w.reservers && ReserverOk(w, cid, w.reservers[cid])
    ensures var v := Advance(w, cid, maxPending);
            && w.lockVersion <= v.lockVersion
            && (v.lock == w.lock || (w.lock.None? && v.lock.Some? && v.lock.value.token == cid)
                || (w.lock.Some? && w.lock.value.token == cid && v.lock.None?))
            && (v.lock != w.lock ==> w.lockVersion < v.lockVersion)
            && v.requested == w.requested && v.arrived == w.arrived
            && v.committed == (if w.reservers[cid].point.Committing? then w.committed + {cid} else w.committed)
            && v.reservers.Keys == w.reservers.Keys
            && (forall other :: other in w.reservers && other != cid ==> v.reservers[other] == w.reservers[other])
            && v.reservers[cid].request == w.reservers[cid].request
  {
  }

  lemma AdvanceAddsOwnJob(w: World, cid: ClientId, maxPending: nat)
    requires cid in w.reservers
    ensures forall id :: id in Advance(w, cid, maxPending).store.jobs ==>
              id in w.store.jobs || (id == w.reservers[cid].request.id && w.reservers[cid].point.Committing?)
  {
  }

  lemma AdvancerStaysOk(w: World, cid: ClientId, maxPending: nat)
    requires cid in w.reservers && ReserverOk(w, cid, w.reservers[cid])
    ensures ReserverOk(Advance(w, cid, maxPending), cid, Advance(w, cid, maxPending).reservers[cid])
  {
  }

  lemma AdvanceIsSound(w: World, cid: ClientId, maxPending: nat)
    requires Sound(w) && cid in w.reservers
    ensures Sound(Advance(w, cid, maxPending))
  {
    var v := Advance(w, cid, maxPending);
    assert ReserverOk(w, cid, w.reservers[cid]);
    AdvanceIsConsistent(w, cid, maxPending);
    AdvanceTouchesOwnLock(w, cid, maxPending);
    AdvanceAddsOwnJob(w, cid, maxPending);
    AdvancerStaysOk(w, cid, maxPending);
    forall other | other in v.reservers && other != cid ensures ReserverOk(v, other, v.reservers[other]) {
      assert ReserverOk(w, other, w.reservers[other]);
    }
  }

  lemma OwnEventsAreSound(w: World, e: Event, maxPending: nat)
    requires Sound(w) && Possible(w, e) && !Quiet(e)
    ensures Sound(After(w, e, maxPending))
  {
    if e.Proceeds? {
      AdvanceIsSound(w, e.cid, maxPending);
    } else {
      var v := After(w, e, maxPending);
      forall cid | cid in v.reservers ensures ReserverOk(v, cid, v.reservers[cid]) {
        assert cid in w.reservers ==> ReserverOk(w, cid, w.reservers[cid]);
      }
    }
  }

  lemma {:induction false} CoursesAreSound(ws: seq<World>, es: seq<Event>, maxPending: nat, n: nat)
    requires Course(ws, es, maxPending) && n < |ws|
    ensures Sound(ws[n])
  {
    if n > 0 {
      CoursesAreSound(ws, es, maxPending, n - 1);
      if Quiet(es[n - 1]) {
        QuietEventsAreSound(ws[n - 1], es[n - 1], maxPending);
      } else {
        OwnEventsAreSound(ws[n - 1], es[n - 1], maxPending);
      }
    }
  }

  /** Even a holder that is late never frees a lock another caller has meanwhile acquired. */
  lemma NobodyFreesAnothersLock(ws: seq<World>, es: seq<Event>, maxPending: nat, n: nat)
    requires Course(ws, es, maxPending) && n < |es|
    requires ws[n].lock.Some? && ws[n + 1].lock != ws[n].lock
    ensures || (es[n].Elapses? && ws[n].lock.value.expiresAt <= es[n].instant)
            || es[n] == Proceeds(ws[n].lock.value.token)
  {
    CoursesAreSound(ws, es, maxPending, n);
    if es[n].Proceeds? {
      assert ReserverOk(ws[n], es[n].cid, ws[n].reservers[es[n].cid]);
    }
  }

  // ---- True while holders finish in time: capacity and idempotency ----

  /** The claim still names a live job of its own. */
  ghost predicate NamesLiveJob(s: Store, c: Claim, job: JobId) {
    && job in s.jobs && s.jobs[job].digest == Some(c.digest)
    && c.digest in s.idempotency
    && s.idempotency[c.digest].jobId == job && s.idempotency[c.digest].fingerprint == c.fingerprint
  }

  ghost predicate Covers(s: Store, counted: set<JobId>) {
    forall id :: Pending(s, id) ==> id in counted
  }

  /** What a caller inside its section may rely on. */
  ghost predicate SectionOk(w: World, cid: ClientId, r: Reserver, maxPending: nat) {
    r.InSection() ==>
      && w.lock.Some? && w.lock.value.token == cid
      && (r.FoundNoClaim() && r.request.claim.Some? ==> r.request.claim.value.digest !in w.store.idempotency)
      && (r.point.CheckingClaim? || r.point.ReadingClaimed? || r.point.ForgettingClaim? ==> r.request.claim.Some?)
      && (r.point.ReadingClaimed? ==>
            && (r.request.claim.value.digest in w.store.idempotency ==>
                  w.store.idempotency[r.request.claim.value.digest].jobId == r.point.job)
            && (r.point.job in w.store.jobs ==> NamesLiveJob(w.store, r.request.claim.value, r.point.job)))
      && (r.point.Probing? || r.point.Committing? ==>
           Covers(w.store, r.point.counted) && |r.point.counted| < maxPending)
  }

  ghost function PendingIds(s: Store): (ids: set<JobId>)
    ensures forall id :: id in ids <==> Pending(s, id)
  {
    set id | id in s.jobs && Pending(s, id)
  }

  ghost predicate Guarded(w: World, maxPending: nat) {
    && ClaimsAgree(w.store)
    && |PendingIds(w.store)| <= maxPending
    && (forall cid :: cid in w.reservers ==> SectionOk(w, cid, w.reservers[cid], maxPending))
  }

  lemma SectionsShrink(w: World, v: World, cid: ClientId, r: Reserver, maxPending: nat)
    requires SectionOk(w, cid, r, maxPending) && Shrinks(w.store, v.store) && ClaimsAgree(v.store)
    requires r.InSection() ==> v.lock == w.lock
    ensures SectionOk(v, cid, r, maxPending)
  {
  }

  lemma QuietEventsAreGuarded(w: World, e: Event, maxPending: nat)
    requires Sound(w) && Guarded(w, maxPending) && Possible(w, e) && Quiet(e) && InTime(w, e)
    ensures Guarded(After(w, e, maxPending), maxPending)
  {
    var v := After(w, e, maxPending);
    QuietEventsShrink(w, e, maxPending);
    SubsetIsNoLarger(PendingIds(v.store), PendingIds(w.store));
    forall cid | cid in v.reservers ensures SectionOk(v, cid, v.reservers[cid], maxPending) {
      assert SectionOk(w, cid, w.reservers[cid], maxPending);
      SectionsShrink(w, v, cid, w.reservers[cid], maxPending);
    }
  }

  /** ZCOUNT from an earlier instant counts every job that is pending now. */
  lemma CountCoversPending(s: Store, since: int)
    requires Consistent(s) && since <= s.clock
    ensures Covers(s, Members(s, since))
  {
    forall id | Pending(s, id) ensures id in Members(s, since) {
      assert Counted(s, id);
    }
  }

  lemma CommitKeepsCapacity(s: Store, q: Request, counted: set<JobId>, maxPending: nat)
    requires Covers(s, counted) && |counted| < maxPending && q.id !in s.jobs
    ensures |PendingIds(Reserve(s, q.id, q.record, q.payload, q.claim))| <= maxPending
  {
    var t := Reserve(s, q.id, q.record, q.payload, q.claim);
    forall id | id in PendingIds(t) ensures id in counted + {q.id} {
      if id != q.id {
        assert Pending(s, id);
      }
    }
    SubsetIsNoLarger(PendingIds(t), counted + {q.id});
  }

  lemma CommittingIsGuarded(w: World, cid: ClientId, maxPending: nat)
    requires Sound(w) && Guarded(w, maxPending) && cid in w.reservers && w.reservers[cid].point.Committing?
    ensures ClaimsAgree(Advance(w, cid, maxPending).store)
    ensures |PendingIds(Advance(w, cid, maxPending).store)| <= maxPending
  {
    var r := w.reservers[cid];
    assert ReserverOk(w, cid, r) && SectionOk(w, cid, r, maxPending);
    assert r.request.id !in w.store.jobs;
    ReserveKeepsClaims(w.store, r.request.id, r.request.record, r.request.payload, r.request.claim);
    CommitKeepsCapacity(w.store, r.request, r.point.counted, maxPending);
  }

  /** A caller forgets only a claim that has already lapsed. */
  lemma OtherPointsKeepTheStore(w: World, cid: ClientId, maxPending: nat)
    requires Guarded(w, maxPending) && cid in w.reservers && !w.reservers[cid].point.Committing?
    ensures Advance(w, cid, maxPending).store == w.store
  {
    var r := w.reservers[cid];
    assert SectionOk(w, cid, r, maxPending);
    if r.point.ForgettingClaim? {
      assert w.store.idempotency - {r.request.claim.value.digest} == w.store.idempotency;
    }
  }

  lemma StoreStepsAreGuarded(w: World, cid: ClientId, maxPending: nat)
    requires Sound(w) && Guarded(w, maxPending) && cid in w.reservers
    ensures ClaimsAgree(Advance(w, cid, maxPending).store)
    ensures |PendingIds(Advance(w, cid, maxPending).store)| <= maxPending
    ensures !w.reservers[cid].point.Committing? ==> Shrinks(w.store, Advance(w, cid, maxPending).store)
  {
    if w.reservers[cid].point.Committing? {
      CommittingIsGuarded(w, cid, maxPending);
    } else {
      OtherPointsKeepTheStore(w, cid, maxPending);
      NothingShrinks(w.store);
    }
  }

  lemma CheckingKeepsSection(w: World, cid: ClientId, maxPending: nat)
    requires cid in w.reservers && SectionOk(w, cid, w.reservers[cid], maxPending) && ClaimsAgree(w.store)
    requires w.reservers[cid].point.CheckingClaim? || w.reservers[cid].point.ReadingClaimed?
    ensures SectionOk(Advance(w, cid, maxPending), cid, Advance(w, cid, maxPending).reservers[cid], maxPending)
  {
    var d := w.reservers[cid].request.claim.value.digest;
    assert d in w.store.idempotency ==> ClaimOk(w.store, d);
  }

  lemma CountingKeepsSection(w: World, cid: ClientId, maxPending: nat)
    requires cid in w.reservers && SectionOk(w, cid, w.reservers[cid], maxPending)
    requires w.reservers[cid].point.Counting? || w.reservers[cid].point.Probing?
    requires Covers(w.store, Members(w.store, w.reservers[cid].since))
    ensures SectionOk(Advance(w, cid, maxPending), cid, Advance(w, cid, maxPending).reservers[cid], maxPending)
  {
  }

  lemma OtherPointsKeepSection(w: World, cid: ClientId, maxPending: nat)
    requires cid in w.reservers && SectionOk(w, cid, w.reservers[cid], maxPending)
    requires var p := w.reservers[cid].point;
             !p.CheckingClaim? && !p.ReadingClaimed? && !p.Counting? && !p.Probing?
    ensures SectionOk(Advance(w, cid, maxPending), cid, Advance(w, cid, maxPending).reservers[cid], maxPending)
  {
  }

  lemma AdvancerKeepsSection(w: World, cid: ClientId, maxPending: nat)
    requires cid in w.reservers && SectionOk(w, cid, w.reservers[cid], maxPending)
    requires Consistent(w.store) && ClaimsAgree(w.store) && w.reservers[cid].since <= w.store.clock
    ensures SectionOk(Advance(w, cid, maxPending), cid, Advance(w, cid, maxPending).reservers[cid], maxPending)
  {
    CountCoversPending(w.store, w.reservers[cid].since);
    match w.reservers[cid].point
    case Counting => CountingKeepsSection(w, cid, maxPending);
    case Probing(_) => CountingKeepsSection(w, cid, maxPending);
    case CheckingClaim => CheckingKeepsSection(w, cid, maxPending);
    case ReadingClaimed(_) => CheckingKeepsSection(w, cid, maxPending);
    case _ => OtherPointsKeepSection(w, cid, maxPending);
  }

  /** While one caller is in its section nobody else is, so nobody else's section can be disturbed. */
  lemma AdvanceIsGuarded(w: World, cid: ClientId, maxPending: nat)
    requires Sound(w) && Guarded(w, maxPending) && cid in w.reservers
    ensures Guarded(Advance(w, cid, maxPending), maxPending)
  {
    var v := Advance(w, cid, maxPending);
    assert ReserverOk(w, cid, w.reservers[cid]) && SectionOk(w, cid, w.reservers[cid], maxPending);
    StoreStepsAreGuarded(w, cid, maxPending);
    AdvanceTouchesOwnLock(w, cid, maxPending);
    AdvancerKeepsSection(w, cid, maxPending);
    forall other | other in v.reservers && other != cid ensures SectionOk(v, other, v.reservers[other], maxPending) {
      assert SectionOk(w, other, w.reservers[other], maxPending);
      if w.reservers[other].InSection() {
        SectionsShrink(w, v, other, w.reservers[other], maxPending);
      }
    }
  }

  lemma OwnEventsAreGuarded(w: World, e: Event, maxPending: nat)
    requires Sound(w) && Guarded(w, maxPending) && Possible(w, e) && !Quiet(e)
    ensures Guarded(After(w, e, maxPending), maxPending)
  {
    if e.Proceeds? {
      AdvanceIsGuarded(w, e.cid, maxPending);
    } else {
      var v := After(w, e, maxPending);
      assert v.store == w.store && v.lock == w.lock;
      forall cid | cid in v.reservers ensures SectionOk(v, cid, v.reservers[cid], maxPending) {
        assert cid in w.reservers ==> SectionOk(w, cid, w.reservers[cid], maxPending);
      }
    }
  }

  lemma StartIsGuarded(clock: int, maxPending: nat)
    ensures Guarded(Start(clock), maxPending)
  {
    assert PendingIds(Start(clock).store) == {};
  }

  lemma {:induction false} TimelyCoursesAreGuarded(ws: seq<World>, es: seq<Event>, maxPending: nat, n: nat)
    requires Course(ws, es, maxPending) && Timely(ws, es) && n < |ws|
    ensures Sound(ws[n]) && Guarded(ws[n], maxPending)
  {
    CoursesAreSound(ws, es, maxPending, n);
    if n == 0 {
      var clock :| ws[0] == Start(clock);
      StartIsGuarded(clock, maxPending);
    } else {
      var w, e := ws[n - 1], es[n - 1];
      TimelyCoursesAreGuarded(ws, es, maxPending, n - 1);
      if Quiet(e) {
        QuietEventsAreGuarded(w, e, maxPending);
      } else {
        OwnEventsAreGuarded(w, e, maxPending);
      }
    }
  }

  // ---- What callers get ----

  /** The unexpired, unfinished jobs never outnumber the limit, whatever the callers and everybody else do. */
  lemma PendingNeverExceedsTheLimit(ws: seq<World>, es: seq<Event>, maxPending: nat, n: nat)
    requires Course(ws, es, maxPending) && Timely(ws, es) && n < |ws|
    ensures |set id | id in ws[n].store.jobs && ws[n].store.jobs[id].record.expiresAt > ws[n].store.clock
                      && !ws[n].store.jobs[id].record.status.Terminal()| <= maxPending
  {
    TimelyCoursesAreGuarded(ws, es, maxPending, n);
    var s := ws[n].store;
    assert PendingIds(s) ==
      set id | id in s.jobs && s.jobs[id].record.expiresAt > s.clock && !s.jobs[id].record.status.Terminal();
  }

  /** At most one live job per digest. */
  lemma OneLiveJobPerDigest(ws: seq<World>, es: seq<Event>, maxPending: nat, n: nat, i: JobId, j: JobId)
    requires Course(ws, es, maxPending) && Timely(ws, es) && n < |ws|
    requires i in ws[n].store.jobs && j in ws[n].store.jobs
    requires ws[n].store.jobs[i].digest.Some? && ws[n].store.jobs[j].digest == ws[n].store.jobs[i].digest
    ensures i == j
  {
    TimelyCoursesAreGuarded(ws, es, maxPending, n);
  }

  /**
   * What each answer to a claim says: a replay names the live job that was reserved with this digest and fingerprint; a
   * conflict means that a live job holds the digest with another fingerprint; and a new job, a refusal for want of
   * capacity or a clash of job ids mean that no live job holds it.
   */
  lemma ClaimsAreAnsweredTruthfully(ws: seq<World>, es: seq<Event>, maxPending: nat, n: nat, cid: ClientId)
    requires Course(ws, es, maxPending) && Timely(ws, es) && n < |es| && es[n] == Proceeds(cid)
    requires cid in ws[n].reservers && ws[n].reservers[cid].request.claim.Some?
    requires ws[n].reservers[cid].InSection() && ws[n + 1].reservers[cid].point.Unlocking?
    ensures var s := ws[n].store;
            var claim := ws[n].reservers[cid].request.claim.value;
            match ws[n + 1].reservers[cid].point.outcome
            case Replayed(id) => NamesLiveJob(s, claim, id)
            case Conflict =>
              && claim.digest in s.idempotency
              && s.idempotency[claim.digest].jobId in s.jobs
              && s.jobs[s.idempotency[claim.digest].jobId].digest == Some(claim.digest)
              && s.idempotency[claim.digest].fingerprint != claim.fingerprint
            case _ => forall id :: id in s.jobs ==> s.jobs[id].digest != Some(claim.digest)
  {
    TimelyCoursesAreGuarded(ws, es, maxPending, n);
    var w := ws[n];
    var r := w.reservers[cid];
    assert SectionOk(w, cid, r, maxPending) && ReserverOk(w, cid, r);
    if r.point.CheckingClaim? && r.request.claim.value.digest in w.store.idempotency {
      assert ClaimOk(w.store, r.request.claim.value.digest);
    }
  }

  // ---- What a claim means from its reservation on ----

  lemma OtherClaimStays(s: Store, q: Request, c: Claim, id: JobId)
    requires Consistent(s) && NamesLiveJob(s, c, id) && ClaimsAgree(s)
    requires q.id !in s.jobs && (q.claim.Some? ==> q.claim.value.digest != c.digest)
    ensures NamesLiveJob(Reserve(s, q.id, q.record, q.payload, q.claim), c, id)
  {
    ReserveKeepsOthers(s, q.id, q.record, q.payload, q.claim);
    assert ClaimOk(s, c.digest) && JobKeyOk(s, id);
  }

  lemma ReservingKeepsOtherClaims(w: World, cid: ClientId, maxPending: nat, c: Claim, id: JobId)
    requires Sound(w) && Guarded(w, maxPending) && cid in w.reservers && w.reservers[cid].point.Committing?
    requires NamesLiveJob(w.store, c, id)
    ensures NamesLiveJob(Advance(w, cid, maxPending).store, c, id)
  {
    var r := w.reservers[cid];
    var q := r.request;
    assert ReserverOk(w, cid, r) && q.id !in w.store.jobs;
    assert SectionOk(w, cid, r, maxPending) && (q.claim.Some? ==> q.claim.value.digest != c.digest);
    OtherClaimStays(w.store, q, c, id);
  }

  /** No event changes what a live job's digest stands for, the fingerprint of its first use included. */
  lemma ClaimSurvivesEvent(w: World, e: Event, maxPending: nat, c: Claim, id: JobId)
    requires Sound(w) && Guarded(w, maxPending) && Possible(w, e)
    requires NamesLiveJob(w.store, c, id) && id in After(w, e, maxPending).store.jobs
    ensures NamesLiveJob(After(w, e, maxPending).store, c, id)
  {
    if Quiet(e) {
      QuietEventsShrink(w, e, maxPending);
    } else if e.Proceeds? {
      if w.reservers[e.cid].point.Committing? {
        ReservingKeepsOtherClaims(w, e.cid, maxPending, c, id);
      } else {
        OtherPointsKeepTheStore(w, e.cid, maxPending);
      }
    }
  }

  /** The job's reservation has been executed. */
  ghost predicate Drawn(w: World, id: JobId) {
    id in w.requested && w.requested[id] in w.committed
  }

  /** A reservation is executed once, so a job that is gone does not come back. */
  lemma GoneStaysGone(w: World, e: Event, maxPending: nat, id: JobId)
    requires Sound(w) && Possible(w, e) && Drawn(w, id)
    ensures Drawn(After(w, e, maxPending), id)
    ensures id in After(w, e, maxPending).store.jobs ==> id in w.store.jobs
  {
    if Quiet(e) {
      QuietEventsShrink(w, e, maxPending);
    } else if e.Proceeds? {
      var r := w.reservers[e.cid];
      assert ReserverOk(w, e.cid, r);
      AdvanceTouchesOwnLock(w, e.cid, maxPending);
      AdvanceAddsOwnJob(w, e.cid, maxPending);
    }
  }

  lemma DrawnStaysOneEvent(ws: seq<World>, es: seq<Event>, maxPending: nat, n: nat, id: JobId)
    requires Course(ws, es, maxPending) && n < |es| && Drawn(ws[n], id)
    ensures Drawn(ws[n + 1], id) && (id in ws[n + 1].store.jobs ==> id in ws[n].store.jobs)
  {
    CoursesAreSound(ws, es, maxPending, n);
    GoneStaysGone(ws[n], es[n], maxPending, id);
  }

  lemma {:induction false} DrawnStays(ws: seq<World>, es: seq<Event>, maxPending: nat, i: nat, n: nat, id: JobId)
    requires Course(ws, es, maxPending) && i <= n < |ws| && Drawn(ws[i], id)
    ensures Drawn(ws[n], id) && (id in ws[n].store.jobs ==> id in ws[i].store.jobs)
    decreases n - i
  {
    if i < n {
      DrawnStays(ws, es, maxPending, i, n - 1, id);
      DrawnStaysOneEvent(ws, es, maxPending, n - 1, id);
    }
  }

  lemma LiveJobsAreDrawn(ws: seq<World>, es: seq<Event>, maxPending: nat, n: nat, id: JobId)
    requires Course(ws, es, maxPending) && n < |ws| && id in ws[n].store.jobs
    ensures Drawn(ws[n], id)
  {
    CoursesAreSound(ws, es, maxPending, n);
  }

  lemma ClaimLastsOneEvent(ws: seq<World>, es: seq<Event>, maxPending: nat, n: nat, c: Claim, id: JobId)
    requires Course(ws, es, maxPending) && Timely(ws, es) && n < |es| && id in ws[n + 1].store.jobs
    requires Drawn(ws[n], id)
    ensures id in ws[n].store.jobs && (NamesLiveJob(ws[n].store, c, id) ==> NamesLiveJob(ws[n + 1].store, c, id))
  {
    DrawnStaysOneEvent(ws, es, maxPending, n, id);
    if NamesLiveJob(ws[n].store, c, id) {
      TimelyCoursesAreGuarded(ws, es, maxPending, n);
      ClaimSurvivesEvent(ws[n], es[n], maxPending, c, id);
    }
  }

  /** A claim that names a live job names it for as long as the job lives. */
  lemma {:induction false} ClaimLasts(
    ws: seq<World>, es: seq<Event>, maxPending: nat, i: nat, n: nat, c: Claim, id: JobId)
    requires Course(ws, es, maxPending) && Timely(ws, es) && i <= n < |ws|
    requires NamesLiveJob(ws[i].store, c, id) && id in ws[n].store.jobs
    ensures NamesLiveJob(ws[n].store, c, id)
    decreases n - i
  {
    if i < n {
      LiveJobsAreDrawn(ws, es, maxPending, i, id);
      DrawnStays(ws, es, maxPending, i, n - 1, id);
      ClaimLastsOneEvent(ws, es, maxPending, n - 1, c, id);
      ClaimLasts(ws, es, maxPending, i, n - 1, c, id);
    }
  }

  lemma LiveClaimIsAnswered(w: World, cid: ClientId, maxPending: nat, c: Claim, id: JobId)
    requires Guarded(w, maxPending) && NamesLiveJob(w.store, c, id) && cid in w.reservers
    requires var r := w.reservers[cid];
             r.InSection() && r.request.claim.Some? && r.request.claim.value.digest == c.digest
    requires Advance(w, cid, maxPending).reservers[cid].point.Unlocking?
    ensures Advance(w, cid, maxPending).reservers[cid].point.outcome ==
            if w.reservers[cid].request.claim.value == c then Replayed(id) else Conflict
  {
    assert SectionOk(w, cid, w.reservers[cid], maxPending);
  }

  /**
   * While the job of a claim lives, every caller with its digest is answered alike, whenever it comes and whatever else
   * it asks for: with that very job if its fingerprint is the same, and with a conflict if it is not.
   */
  lemma LiveClaimsAreAnsweredAlike(
    ws: seq<World>, es: seq<Event>, maxPending: nat, i: nat, n: nat, c: Claim, id: JobId, cid: ClientId)
    requires Course(ws, es, maxPending) && Timely(ws, es) && i <= n < |es| && es[n] == Proceeds(cid)
    requires NamesLiveJob(ws[i].store, c, id) && id in ws[n].store.jobs
    requires cid in ws[n].reservers && ws[n].reservers[cid].InSection() && ws[n + 1].reservers[cid].point.Unlocking?
    requires ws[n].reservers[cid].request.claim.Some? && ws[n].reservers[cid].request.claim.value.digest == c.digest
    ensures ws[n + 1].reservers[cid].point.outcome ==
            if ws[n].reservers[cid].request.claim.value == c then Replayed(id) else Conflict
  {
    ClaimLasts(ws, es, maxPending, i, n, c, id);
    TimelyCoursesAreGuarded(ws, es, maxPending, n);
    LiveClaimIsAnswered(ws[n], cid, maxPending, c, id);
  }

  /** Creating a job makes its claim name it, unless the job's deadline has passed already. */
  lemma CreatingMakesTheClaim(w: World, cid: ClientId, maxPending: nat)
    requires Sound(w) && cid in w.reservers
      && w.reservers[cid].point.Committing? && w.reservers[cid].request.claim.Some?
    ensures var v := Advance(w, cid, maxPending);
            var q := w.reservers[cid].request;
            && v.reservers[cid].point == Unlocking(ReservedNew) && Drawn(v, q.id)
            && (q.id in v.store.jobs ==> NamesLiveJob(v.store, q.claim.value, q.id))
  {
    var r := w.reservers[cid];
    assert ReserverOk(w, cid, r);
    assert r.request.id !in w.store.jobs;
    ReserveKeepsOthers(w.store, r.request.id, r.request.record, r.request.payload, r.request.claim);
  }

  /**
   * A claim creates one job: once it has, and for as long as that job lives, nobody with its digest creates another;
   * the same claim replays that job, and the digest with any other fingerprint conflicts.
   */
  lemma ClaimsCreateOneJob(
    ws: seq<World>, es: seq<Event>, maxPending: nat, i: nat, n: nat, creator: ClientId, cid: ClientId)
    requires Course(ws, es, maxPending) && Timely(ws, es) && i < n < |es|
    requires es[i] == Proceeds(creator) && creator in ws[i].reservers && ws[i].reservers[creator].point.Committing?
    requires var q := ws[i].reservers[creator].request;
             && q.claim.Some? && q.id in ws[n].store.jobs
             && es[n] == Proceeds(cid) && cid in ws[n].reservers && ws[n].reservers[cid].InSection()
             && ws[n].reservers[cid].request.claim.Some?
             && ws[n].reservers[cid].request.claim.value.digest == q.claim.value.digest
    requires ws[n + 1].reservers[cid].point.Unlocking?
    ensures ws[n + 1].reservers[cid].point.outcome ==
            if ws[n].reservers[cid].request.claim == ws[i].reservers[creator].request.claim then
              Replayed(ws[i].reservers[creator].request.id)
            else Conflict
  {
    var q := ws[i].reservers[creator].request;
    CoursesAreSound(ws, es, maxPending, i);
    CreatingMakesTheClaim(ws[i], creator, maxPending);
    DrawnStays(ws, es, maxPending, i + 1, n, q.id);
    LiveClaimsAreAnsweredAlike(ws, es, maxPending, i + 1, n, q.claim.value, q.id, cid);
  }
}
