/** Who may delete a job's audio, and when: safety of every run of JobProtocol. */
module AudioOwnership {
  import opened Wrappers
  import opened JobRecords
  import opened JobStore
  import opened JobProtocol

  /** The job is known and nothing will need its audio any more. */
  ghost predicate Released(s: System, id: JobId) {
    id in s.audioOf && !(Unexpired(s.store, id) && s.store.jobs[id].record.NeedsAudio())
  }

  ghost predicate Holds(s: System, id: JobId, audio: BlobId) {
    id in s.audioOf && s.audioOf[id] == audio
  }

  ghost predicate HoldsDropped(s: System, id: JobId, audio: BlobId) {
    Holds(s, id, audio) && audio !in s.blobs && audio in s.owner
  }

  ghost predicate HoldsReleased(s: System, id: JobId, audio: BlobId) {
    Holds(s, id, audio) && Released(s, id)
  }

  ghost predicate Unclaimed(s: System, audio: BlobId) {
    forall id :: id in s.audioOf ==> s.audioOf[id] != audio
  }

  /** What a record read earlier still says about the job now. */
  ghost predicate SeenOk(s: System, id: JobId, seen: Record) {
    && id in s.audioOf
    && (!seen.NeedsAudio() ==> Released(s, id))
    && (CancelSeen(seen) ==> !seen.NeedsAudio())
    && (id in s.store.jobs ==> s.store.jobs[id].record.expiresAt == seen.expiresAt)
  }

  ghost predicate SubmitterOk(s: System, cid: ClientId, audio: BlobId, expiresAt: int, spot: SubmitPoint) {
    && audio in s.owner && s.owner[audio] == cid
    && match spot
       case Reserving =>
         && Unclaimed(s, audio)
         && (audio in s.blobs ==> s.blobs[audio] == expiresAt)
         && (expiresAt > s.store.clock ==> audio in s.blobs)
       case Publishing(id) => Holds(s, id, audio)
       case Attaching(id, _) => Holds(s, id, audio)
       case Withdrawing(id) => Holds(s, id, audio) && id !in s.store.jobs
       case Compensating(id) => Holds(s, id, audio)
       case Discarding(None) => Unclaimed(s, audio)
       case Discarding(Some(id)) => Holds(s, id, audio) && (Released(s, id) || id in s.uncompensated)
       case Accepted(_) => true
       case Refused(discarded) => discarded ==> audio !in s.blobs
  }

  ghost predicate ControllerOk(s: System, id: JobId, step: ControlPoint) {
    match step
    case Inspecting => true
    case Reading => true
    case Requesting(_) => true
    case Revoking(_) => Released(s, id)
    case FetchingPayload => Released(s, id)
    case DroppingQueued(audio) => HoldsReleased(s, id, audio)
    case MarkingCancelled(Some(audio)) => HoldsDropped(s, id, audio)
    case MarkingCancelled(None) => id in s.audioOf && id !in s.store.jobs
    case FetchingForDelete => Released(s, id)
    case DroppingDeleted(audio) => HoldsReleased(s, id, audio)
    case DeletingKeys => true
    case Answered => true
  }

  ghost predicate WorkerOk(s: System, id: JobId, point: WorkPoint) {
    match point
    case Loading => true
    case LoadingPayload(found) => found.Some? ==> SeenOk(s, id, found.value)
    case Deciding(seen, audio) => Holds(s, id, audio) && SeenOk(s, id, seen)
    case DroppingExpired(audio) => HoldsReleased(s, id, audio)
    case DeletingExpired => true
    case Dropping(audio) => HoldsReleased(s, id, audio)
    case CancelDropping(audio) => HoldsReleased(s, id, audio)
    case CancelReading(audio) => HoldsDropped(s, id, audio)
    case CancelMarking(audio) => HoldsDropped(s, id, audio)
    case Starting(audio) => Holds(s, id, audio)
    case Recognising(audio) => Holds(s, id, audio)
    case Rechecking(audio, _) => Holds(s, id, audio)
    case Progressing(audio, _) => Holds(s, id, audio)
    case Checking(audio, _) => Holds(s, id, audio)
    case Diarising(audio) => Holds(s, id, audio)
    case Assembling(audio) => Holds(s, id, audio)
    case Saving(audio, _) => Holds(s, id, audio)
    case Raising => true
    case FailLoading => true
    case FailLoadingPayload(found) => found.Some? ==> SeenOk(s, id, found.value)
    case FailMarking(mine) => id in s.audioOf && (mine.Some? ==> Holds(s, id, mine.value))
    case Done => true
  }

  ghost predicate ClientOk(s: System, cid: ClientId, c: Client) {
    match c
    case Submitter(_, audio, expiresAt, spot) => SubmitterOk(s, cid, audio, expiresAt, spot)
    case Controller(id, _, step) => ControllerOk(s, id, step)
    case Worker(id, _, point) => WorkerOk(s, id, point)
  }

  /** Every stored job refers to the audio it was reserved with, which no other job shares. */
  ghost predicate AudioNamed(s: System) {
    && (forall id :: id in s.store.jobs ==>
          id in s.audioOf && s.store.jobs[id].payload.Some? && s.store.jobs[id].payload.value.audio == s.audioOf[id])
    && (forall i, j :: i in s.audioOf && j in s.audioOf && s.audioOf[i] == s.audioOf[j] ==> i == j)
    && (forall id :: id in s.audioOf ==> s.audioOf[id] in s.owner)
    && (forall b :: b in s.blobs ==> b in s.owner)
  }

  /** The submitter was refused the write that would have failed the job, and then discarded the audio. */
  ghost predicate Forsaken(s: System, id: JobId) {
    && id in s.uncompensated && id in s.audioOf && s.audioOf[id] in s.owner
    && var cid := s.owner[s.audioOf[id]];
       && cid in s.clients && s.clients[cid].Submitter?
       && s.clients[cid].audio == s.audioOf[id] && s.clients[cid].spot == Refused(true)
  }

  ghost predicate KeepsForsaken(s: System, t: System) {
    forall id :: Forsaken(s, id) ==> Forsaken(t, id)
  }

  /** The central property: whoever still needs the audio has it, and a cancelled job's audio is gone. */
  ghost predicate AudioKept(s: System, id: JobId)
    requires id in s.store.jobs && id in s.audioOf
  {
    var r := s.store.jobs[id].record;
    && (r.NeedsAudio() && r.expiresAt > s.store.clock ==> s.audioOf[id] in s.blobs || Forsaken(s, id))
    && (r.status == Cancelled ==> s.audioOf[id] !in s.blobs)
    && (s.audioOf[id] in s.blobs ==> s.blobs[s.audioOf[id]] == r.expiresAt)
  }

  ghost predicate AudioSafe(s: System) {
    && AudioNamed(s)
    && forall id :: id in s.store.jobs && id in s.audioOf ==> AudioKept(s, id)
  }

  ghost predicate ClientsOk(s: System) {
    forall cid :: cid in s.clients ==> ClientOk(s, cid, s.clients[cid])
  }

  ghost predicate Invariant(s: System) {
    Consistent(s.store) && AudioSafe(s) && ClientsOk(s)
  }

  // ---- What a step leaves intact for every client but the one acting ----

  ghost predicate Rely(s: System, t: System, actor: Option<ClientId>) {
    && s.store.clock <= t.store.clock
    && (forall id :: id in s.audioOf ==> id in t.audioOf && t.audioOf[id] == s.audioOf[id])
    && (forall id :: id in t.audioOf && id !in s.audioOf ==>
          t.audioOf[id] in s.owner && actor == Some(s.owner[t.audioOf[id]]))
    && (forall b :: b in s.owner ==> b in t.owner && t.owner[b] == s.owner[b])
    && (forall id :: id in s.audioOf && id in t.store.jobs ==>
          && id in s.store.jobs
          && t.store.jobs[id].record.expiresAt == s.store.jobs[id].record.expiresAt
          && (t.store.jobs[id].record.NeedsAudio() ==> s.store.jobs[id].record.NeedsAudio()))
    && (forall b :: b in s.owner && b in t.blobs ==> b in s.blobs && t.blobs[b] == s.blobs[b])
    && (forall b :: b in s.owner && b in s.blobs && b !in t.blobs ==>
          s.blobs[b] <= t.store.clock || !Unclaimed(s, b) || actor == Some(s.owner[b]))
    && s.uncompensated <= t.uncompensated
  }

  lemma ClientsStayOk(s: System, t: System, actor: Option<ClientId>, cid: ClientId, c: Client)
    requires Rely(s, t, actor) && (actor != Some(cid) || !c.Submitter?) && ClientOk(s, cid, c)
    ensures ClientOk(t, cid, c)
  {
    match c
    case Submitter(_, audio, expiresAt, spot) =>
    case Controller(id, _, step) =>
    case Worker(id, _, point) =>
  }

  // ---- Steps that only touch the store ----

  lemma StoreCallKeepsConsistent(s: Store, c: Client)
    requires Consistent(s)
    ensures Consistent(StoreEffect(s, CallOf(c)).0)
  {
    match CallOf(c)
    case Update(id, m) => ChangeKeepsConsistent(s, id, m);
    case Save(id, result) => SaveKeepsConsistent(s, id, result);
    case DeleteJob(id) => DeleteKeepsConsistent(s, id);
    case _ =>
  }

  lemma DeleteFollows(s: Store, id: JobId)
    ensures Follows(s, Delete(s, id), None)
  {
  }

  lemma NothingFollows(s: Store)
    ensures Follows(s, s, None)
  {
  }

  lemma StoreCallFollows(s: Store, c: Client)
    requires Consistent(s)
    ensures Follows(s, StoreEffect(s, CallOf(c)).0, None)
  {
    match CallOf(c)
    case Update(id, m) => ChangeFollows(s, id, m);
    case Save(id, result) => SaveFollows(s, id, result);
    case DeleteJob(id) => DeleteFollows(s, id);
    case _ => NothingFollows(s);
  }

  lemma FollowsIsRely(s: System, t: System, actor: Option<ClientId>)
    requires AudioNamed(s) && Follows(s.store, t.store, None)
    requires t.blobs == s.blobs && t.owner == s.owner && t.audioOf == s.audioOf && s.uncompensated <= t.uncompensated
    ensures Rely(s, t, actor)
  {
  }

  /** Only the mutation that asks for CANCELLED makes a job CANCELLED. */
  lemma CancelledOnlyByMove(s: Store, call: Call, id: JobId)
    requires id in s.jobs && s.jobs[id].record.status != Cancelled
    requires id in StoreEffect(s, call).0.jobs && StoreEffect(s, call).0.jobs[id].record.status == Cancelled
    ensures call.Update? && call.id == id && call.mutation.MoveTo? && call.mutation.target == Cancelled
  {
    match call
    case Update(j, m) =>
    case Save(j, result) =>
    case _ =>
  }

  /** Only a client that has dropped the audio ever moves a job to CANCELLED. */
  lemma CancelledByDroppers(s: System, cid: ClientId, id: JobId)
    requires Invariant(s) && cid in s.clients
    requires id in s.store.jobs && s.store.jobs[id].record.status != Cancelled
    requires var t := StoreEffect(s.store, CallOf(s.clients[cid])).0;
             id in t.jobs && t.jobs[id].record.status == Cancelled
    ensures id in s.audioOf && s.audioOf[id] !in s.blobs
  {
    var c := s.clients[cid];
    CancelledOnlyByMove(s.store, CallOf(c), id);
    assert ClientOk(s, cid, c);
    match c
    case Submitter(_, _, _, spot) =>
    case Controller(_, _, step) => assert step.MarkingCancelled?;
    case Worker(_, _, point) => assert point.CancelMarking?;
  }

  lemma StoreStepKeepsAudio(s: System, t: System, cid: ClientId)
    requires Invariant(s) && cid in s.clients
    requires t.store == StoreEffect(s.store, CallOf(s.clients[cid])).0
    requires t.blobs == s.blobs && t.owner == s.owner && t.audioOf == s.audioOf && s.uncompensated <= t.uncompensated
    requires KeepsForsaken(s, t)
    ensures Consistent(t.store) && AudioSafe(t) && Rely(s, t, Some(cid))
  {
    StoreCallKeepsConsistent(s.store, s.clients[cid]);
    StoreCallFollows(s.store, s.clients[cid]);
    FollowsIsRely(s, t, Some(cid));
    forall id | id in t.store.jobs && id in t.audioOf ensures AudioKept(t, id) {
      assert AudioKept(s, id);
      if t.store.jobs[id].record.status == Cancelled && s.store.jobs[id].record.status != Cancelled {
        CancelledByDroppers(s, cid, id);
      }
    }
  }

  lemma FollowsKeepsAudio(s: System, t: System)
    requires AudioSafe(s) && Follows(s.store, t.store, None)
    requires t.blobs == s.blobs && t.owner == s.owner && t.audioOf == s.audioOf && t.uncompensated == s.uncompensated
    requires forall id :: id in t.store.jobs ==> t.store.jobs[id] == s.store.jobs[id]
    requires KeepsForsaken(s, t)
    ensures AudioSafe(t)
  {
    forall id | id in t.store.jobs && id in t.audioOf ensures AudioKept(t, id) {
      assert AudioKept(s, id);
    }
  }

  // ---- Dropping one blob ----

  lemma DropIsRely(s: System, t: System, cid: ClientId, audio: BlobId)
    requires AudioNamed(s)
    requires t.store == s.store && t.blobs == s.blobs - {audio} && t.owner == s.owner && t.audioOf == s.audioOf
    requires t.uncompensated == s.uncompensated
    requires !Unclaimed(s, audio) || (audio in s.owner && s.owner[audio] == cid)
    ensures Rely(s, t, Some(cid))
  {
  }

  lemma DropKeepsAudio(s: System, t: System, audio: BlobId)
    requires AudioSafe(s)
    requires t.store == s.store && t.blobs == s.blobs - {audio} && t.owner == s.owner && t.audioOf == s.audioOf
    requires t.uncompensated == s.uncompensated
    requires forall id :: Holds(s, id, audio) ==> Released(s, id) || Forsaken(t, id)
    requires KeepsForsaken(s, t)
    ensures AudioSafe(t)
  {
    forall id | id in t.store.jobs && id in t.audioOf ensures AudioKept(t, id) {
      assert AudioKept(s, id);
      assert s.audioOf[id] == audio ==> Holds(s, id, audio);
    }
  }

  /** Whoever is about to drop a blob is entitled to. */
  lemma DroppersAreEntitled(s: System, cid: ClientId)
    requires Invariant(s) && cid in s.clients && CallOf(s.clients[cid]).DropBlob?
    ensures var audio := CallOf(s.clients[cid]).audio;
            && (forall id :: Holds(s, id, audio) ==> Released(s, id) || Forsaken(Act(s, cid, Proceed), id))
            && (!Unclaimed(s, audio) || (audio in s.owner && s.owner[audio] == cid))
            && audio in s.owner
  {
    assert ClientOk(s, cid, s.clients[cid]);
    var audio := CallOf(s.clients[cid]).audio;
    match s.clients[cid]
    case Submitter(_, _, _, spot) =>
      if spot.job.Some? {
        assert Holds(s, spot.job.value, audio);
      }
    case Controller(id, _, _) => assert Holds(s, id, audio);
    case Worker(id, _, _) => assert Holds(s, id, audio);
  }

  // ---- Reserving ----

  ghost predicate Reserved(s: System, t: System, c: Client, choice: Choice) {
    && c.Submitter? && ReserveAllowed(s, c, choice)
    && t.store == Reserve(s.store, choice.id, choice.record, Payload(c.kind, c.audio), choice.claim)
    && t.audioOf == s.audioOf[choice.id := c.audio]
    && t.blobs == s.blobs && t.owner == s.owner && t.uncompensated == s.uncompensated
    && KeepsForsaken(s, t)
  }

  lemma ReserveIsRely(s: System, t: System, cid: ClientId, c: Client, choice: Choice)
    requires AudioNamed(s) && Reserved(s, t, c, choice) && c.audio in s.owner && s.owner[c.audio] == cid
    ensures Rely(s, t, Some(cid))
    ensures Follows(s.store, t.store, Some(choice.id))
  {
    assert choice.id !in s.store.jobs;
    ReserveFollows(s.store, choice.id, choice.record, Payload(c.kind, c.audio), choice.claim);
  }

  lemma ReserveKeepsNames(s: System, t: System, cid: ClientId, c: Client, choice: Choice)
    requires AudioNamed(s) && Reserved(s, t, c, choice) && c.spot == Reserving && ClientOk(s, cid, c)
    ensures AudioNamed(t)
    ensures forall id :: id in t.store.jobs && id != choice.id ==>
              id in s.store.jobs && t.store.jobs[id] == s.store.jobs[id]
    ensures choice.id in t.store.jobs ==> t.store.jobs[choice.id].record == choice.record
    ensures t.store.clock == s.store.clock
  {
  }

  lemma ReserveKeepsAudio(s: System, t: System, cid: ClientId, c: Client, choice: Choice)
    requires Consistent(s.store) && AudioSafe(s) && Reserved(s, t, c, choice)
    requires c.spot == Reserving && ClientOk(s, cid, c)
    ensures Consistent(t.store) && AudioSafe(t)
  {
    assert choice.id !in s.store.jobs;
    ReserveKeepsConsistent(s.store, choice.id, choice.record, Payload(c.kind, c.audio), choice.claim);
    ReserveKeepsNames(s, t, cid, c, choice);
    forall id | id in t.store.jobs && id in t.audioOf ensures AudioKept(t, id) {
      if id != choice.id {
        assert AudioKept(s, id);
      }
    }
  }

  // ---- What the answers of the store mean for the audio ----

  lemma FailingReleases(s: Store, id: JobId, code: string)
    requires KeysOk(s) && code != ""
    ensures var t := Change(s, id, MoveTo(Failed, None, Some(code))).0;
            id in t.jobs ==> !t.jobs[id].record.NeedsAudio()
  {
    assert id in s.jobs ==> JobKeyOk(s, id);
  }

  // ---- The acting client itself ----

  /** What an answer says about the state in which it arrives. */
  ghost predicate AnswerOk(t: System, call: Call, a: Answer) {
    a.Failure? ||
    match call
    case Get(id) =>
      && a.Reply? && !a.reply.Raised?
      && (a.reply.Missing? ==> id !in t.store.jobs)
      && (a.reply.Found? ==> SeenOk(t, id, a.reply.record))
    case GetPayload(id) =>
      && (a.NoPayload? ==> id !in t.store.jobs)
      && (a.HasPayload? ==> Holds(t, id, a.payload.audio))
    case Update(id, m) =>
      && a.Reply?
      && (a.reply.Missing? ==> id !in t.store.jobs)
      && (a.reply.Found? && (m.RequestCancellation? || (m.MoveTo? && m.target != Running)) ==> Released(t, id))
    case Save(id, _) =>
      && a.Reply?
      && (a.reply.Missing? ==> id !in t.store.jobs)
      && (a.reply.Found? ==> SeenOk(t, id, a.reply.record))
    case DropBlob(audio) => a.Went? && audio !in t.blobs && audio in t.owner
    case ReadClock => a == Instant(t.store.clock)
    case _ => !a.Reply? && !a.HasPayload? && !a.NoPayload? && !a.Instant? && !a.Created?
  }

  lemma SubmitterResumes(s: System, t: System, cid: ClientId, c: Client, a: Answer)
    requires c.Submitter? && SubmitterOk(s, cid, c.audio, c.expiresAt, c.spot)
    requires Rely(s, t, Some(cid)) && t.audioOf == s.audioOf
    requires AnswerOk(t, CallOf(c), a)
    requires c.spot.Compensating? ==> if a.Failure? then c.spot.id in t.uncompensated else Released(t, c.spot.id)
    ensures SubmitterOk(t, cid, c.audio, c.expiresAt, ResumeSubmitter(c.kind, c.spot, a))
  {
    assert c.audio in t.owner && t.owner[c.audio] == cid;
    match c.spot
    case Reserving => assert Unclaimed(t, c.audio) && CallOf(c) == ReserveJob && !a.Created?;
    case Publishing(id) => assert Holds(t, id, c.audio);
    case Attaching(id, _) => assert Holds(t, id, c.audio);
    case Withdrawing(id) => assert Holds(t, id, c.audio) && Released(t, id);
    case Compensating(id) => assert Holds(t, id, c.audio);
    case Discarding(_) => assert !a.Failure? ==> c.audio !in t.blobs;
    case _ =>
  }

  lemma RecordTells(t: System, id: JobId)
    requires Consistent(t.store) && AudioNamed(t) && id in t.store.jobs
    ensures SeenOk(t, id, t.store.jobs[id].record)
    ensures t.store.jobs[id].payload.Some? && Holds(t, id, t.store.jobs[id].payload.value.audio)
  {
    assert JobKeyOk(t.store, id);
  }

  lemma UpdateTells(s: Store, id: JobId, m: Mutation)
    ensures var (t, r) := Change(s, id, m);
            && (r.Missing? ==> id !in t.jobs)
            && (r.Found? ==> id in t.jobs && t.jobs[id].record == r.record)
            && (r.Found? && m.RequestCancellation? ==> !r.record.NeedsAudio())
            && (r.Found? && m.MoveTo? ==> r.record.status == m.target)
  {
  }

  lemma SaveTells(s: Store, id: JobId, result: JobResult)
    ensures var (t, r) := SaveResult(s, id, result);
            && (r.Missing? ==> id !in t.jobs)
            && (r.Found? ==> id in t.jobs && t.jobs[id].record == r.record)
  {
  }

  lemma StoreAnswersAreTrue(s: System, t: System, c: Client)
    requires Consistent(t.store) && AudioNamed(t)
    requires !CallOf(c).Elsewhere? && !CallOf(c).DropBlob? && !CallOf(c).ReserveJob? && !CallOf(c).NoCall?
    requires t.store == StoreEffect(s.store, CallOf(c)).0
    ensures AnswerOk(t, CallOf(c), StoreEffect(s.store, CallOf(c)).1)
  {
    match CallOf(c)
    case Get(id) => if id in t.store.jobs { RecordTells(t, id); }
    case GetPayload(id) => if id in t.store.jobs { RecordTells(t, id); }
    case Update(id, m) =>
      UpdateTells(s.store, id, m);
      if id in t.store.jobs { RecordTells(t, id); }
      assert m.MoveTo? ==> m.target in {Running, Failed, Cancelled};
    case Save(id, result) =>
      SaveTells(s.store, id, result);
      if id in t.store.jobs { RecordTells(t, id); }
    case _ =>
  }

  lemma ControllerResumes(t: System, c: Client, a: Answer)
    requires c.Controller? && ControllerOk(t, c.id, c.step) && AnswerOk(t, CallOf(c), a)
    ensures ControllerOk(t, c.id, ResumeController(c.deleting, c.step, a))
  {
  }

  lemma WorkerResumes(t: System, c: Client, a: Answer)
    requires c.Worker? && WorkerOk(t, c.id, c.point) && AnswerOk(t, CallOf(c), a)
    ensures WorkerOk(t, c.id, ResumeWorker(c.kind, c.point, a))
  {
  }

  lemma ActingClientStaysOk(s: System, t: System, cid: ClientId, c: Client, a: Answer)
    requires ClientOk(s, cid, c) && Rely(s, t, Some(cid)) && t.audioOf == s.audioOf
    requires AnswerOk(t, CallOf(c), a)
    requires c.Submitter? && c.spot.Compensating? ==>
               if a.Failure? then c.spot.id in t.uncompensated else Released(t, c.spot.id)
    ensures ClientOk(t, cid, Resume(c, a))
  {
    match c
    case Submitter(_, _, _, _) => SubmitterResumes(s, t, cid, c, a);
    case Controller(_, _, _) =>
      ClientsStayOk(s, t, Some(cid), cid, c);
      ControllerResumes(t, c, a);
    case Worker(_, _, _) =>
      ClientsStayOk(s, t, Some(cid), cid, c);
      WorkerResumes(t, c, a);
  }

  // ---- Whole steps ----

  /** A step is fine when the shared state is, and the acting client is; nobody else needs a look. */
  lemma StepIsSafe(s: System, t: System, actor: Option<ClientId>)
    requires Invariant(s) && Consistent(t.store) && AudioSafe(t) && Rely(s, t, actor)
    requires forall cid :: cid in t.clients && actor != Some(cid) ==>
              cid in s.clients && t.clients[cid] == s.clients[cid]
    requires actor.Some? && actor.value in t.clients ==> ClientOk(t, actor.value, t.clients[actor.value])
    ensures Invariant(t)
  {
    forall cid | cid in t.clients ensures ClientOk(t, cid, t.clients[cid]) {
      if actor != Some(cid) {
        ClientsStayOk(s, t, actor, cid, t.clients[cid]);
      }
    }
  }

  /** A submitter that has returned never acts again and is not killed. */
  lemma StepKeepsForsaken(s: System, m: Move)
    requires Enabled(s, m) && AudioNamed(s)
    ensures KeepsForsaken(s, Step(s, m))
  {
    forall id | Forsaken(s, id) ensures Forsaken(Step(s, m), id) {
      assert id in s.audioOf && s.audioOf[id] in s.owner;
    }
  }

  lemma OthersDoNotMove(s: System, cid: ClientId, choice: Choice)
    requires cid in s.clients && ChoiceAllowed(s, s.clients[cid], choice)
    ensures var t := Act(s, cid, choice);
            forall o :: o in t.clients && o != cid ==> o in s.clients && t.clients[o] == s.clients[o]
  {
  }

  lemma StoreActIsSafe(s: System, cid: ClientId)
    requires Invariant(s) && cid in s.clients && ChoiceAllowed(s, s.clients[cid], Proceed)
    requires !CallOf(s.clients[cid]).DropBlob? && !CallOf(s.clients[cid]).ReserveJob?
    ensures Invariant(Act(s, cid, Proceed))
  {
    var c := s.clients[cid];
    var t := Act(s, cid, Proceed);
    var a := StoreEffect(s.store, CallOf(c)).1;
    StepKeepsForsaken(s, Acts(cid, Proceed));
    StoreStepKeepsAudio(s, t, cid);
    StoreAnswersAreTrue(s, t, c);
    assert ClientOk(s, cid, c);
    if c.Submitter? && c.spot.Compensating? {
      FailingReleases(s.store, c.spot.id, "dependency_unavailable");
    }
    ActingClientStaysOk(s, t, cid, c, a);
    OthersDoNotMove(s, cid, Proceed);
    StepIsSafe(s, t, Some(cid));
  }

  lemma DropActIsSafe(s: System, cid: ClientId)
    requires Invariant(s) && cid in s.clients && CallOf(s.clients[cid]).DropBlob?
    ensures Invariant(Act(s, cid, Proceed))
  {
    var c := s.clients[cid];
    var t := Act(s, cid, Proceed);
    var audio := CallOf(c).audio;
    DroppersAreEntitled(s, cid);
    DropIsRely(s, t, cid, audio);
    StepKeepsForsaken(s, Acts(cid, Proceed));
    DropKeepsAudio(s, t, audio);
    assert ClientOk(s, cid, c);
    ActingClientStaysOk(s, t, cid, c, Went);
    OthersDoNotMove(s, cid, Proceed);
    StepIsSafe(s, t, Some(cid));
  }

  lemma ReserveActIsSafe(s: System, cid: ClientId, choice: Choice)
    requires Invariant(s) && cid in s.clients && CallOf(s.clients[cid]).ReserveJob?
    requires ReserveAllowed(s, s.clients[cid], choice)
    ensures Invariant(Act(s, cid, choice))
  {
    var c := s.clients[cid];
    var t := Act(s, cid, choice);
    assert ClientOk(s, cid, c);
    StepKeepsForsaken(s, Acts(cid, choice));
    ReserveIsRely(s, t, cid, c, choice);
    ReserveKeepsAudio(s, t, cid, c, choice);
    assert Holds(t, choice.id, c.audio) && t.clients[cid] == c.(spot := Publishing(choice.id));
    OthersDoNotMove(s, cid, choice);
    StepIsSafe(s, t, Some(cid));
  }

  lemma UntouchedStaysSafe(s: System, t: System, actor: Option<ClientId>)
    requires Consistent(s.store) && AudioSafe(s)
    requires t.store == s.store && t.blobs == s.blobs && t.owner == s.owner && t.audioOf == s.audioOf
    requires s.uncompensated <= t.uncompensated && KeepsForsaken(s, t)
    ensures AudioSafe(t) && Rely(s, t, actor)
  {
    forall id | id in t.store.jobs && id in t.audioOf ensures AudioKept(t, id) {
      assert AudioKept(s, id);
    }
  }

  /** Failing calls, the broker, the models, a refused reservation: only the acting client moves on. */
  lemma QuietActIsSafe(s: System, cid: ClientId, choice: Choice)
    requires Invariant(s) && cid in s.clients && ChoiceAllowed(s, s.clients[cid], choice)
    requires choice.Fail? || CallOf(s.clients[cid]).Elsewhere?
             || (CallOf(s.clients[cid]).ReserveJob? && choice.Proceed?)
    ensures Invariant(Act(s, cid, choice))
  {
    var c := s.clients[cid];
    var t := Act(s, cid, choice);
    var a := if choice.Fail? then Failure else if CallOf(c).Elsewhere? then choice.answer else NotCreated;
    StepKeepsForsaken(s, Acts(cid, choice));
    UntouchedStaysSafe(s, t, Some(cid));
    assert ClientOk(s, cid, c);
    ActingClientStaysOk(s, t, cid, c, a);
    OthersDoNotMove(s, cid, choice);
    StepIsSafe(s, t, Some(cid));
  }

  lemma ActIsSafe(s: System, cid: ClientId, choice: Choice)
    requires Invariant(s) && cid in s.clients && ChoiceAllowed(s, s.clients[cid], choice)
    ensures Invariant(Act(s, cid, choice))
  {
    var call := CallOf(s.clients[cid]);
    if choice.Fail? || call.Elsewhere? || (call.ReserveJob? && choice.Proceed?) {
      QuietActIsSafe(s, cid, choice);
    } else if call.ReserveJob? {
      ReserveActIsSafe(s, cid, choice);
    } else if call.DropBlob? {
      DropActIsSafe(s, cid);
    } else {
      StoreActIsSafe(s, cid);
    }
  }

  lemma PassingIsSafe(s: System, instant: int)
    requires Invariant(s) && s.store.clock <= instant
    ensures Invariant(Step(s, Passes(instant)))
  {
    var t := Step(s, Passes(instant));
    TickKeepsConsistent(s.store, instant);
    TickFollows(s.store, instant);
    FollowsIsRely(s, t, None);
    StepKeepsForsaken(s, Passes(instant));
    FollowsKeepsAudio(s, t);
    StepIsSafe(s, t, None);
  }

  lemma CleaningIsSafe(s: System, m: Move)
    requires Invariant(s) && Enabled(s, m) && (m.CleansBlobs? || m.CleansIndex?)
    ensures Invariant(Step(s, m))
  {
    var t := Step(s, m);
    StepKeepsForsaken(s, m);
    if m.CleansIndex? {
      CleanupKeepsConsistent(s.store, m.cutoff);
    }
    forall id | id in t.store.jobs && id in t.audioOf ensures AudioKept(t, id) {
      assert AudioKept(s, id);
    }
    StepIsSafe(s, t, None);
  }

  lemma ArrivingIsRely(s: System, m: Move)
    requires Invariant(s) && Enabled(s, m) && (m.Submits? || m.Controls? || m.Delivers? || m.Crashes?)
    ensures AudioSafe(Step(s, m)) && Rely(s, Step(s, m), Some(m.client))
  {
    var t := Step(s, m);
    StepKeepsForsaken(s, m);
    forall id | id in t.store.jobs && id in t.audioOf ensures AudioKept(t, id) {
      assert AudioKept(s, id);
    }
  }

  lemma ArrivingClientsAreOk(s: System, m: Move)
    requires Invariant(s) && Enabled(s, m) && (m.Submits? || m.Controls? || m.Delivers? || m.Crashes?)
    ensures var t := Step(s, m);
            && (forall o :: o in t.clients && o != m.client ==> o in s.clients && t.clients[o] == s.clients[o])
            && (m.client in t.clients ==> ClientOk(t, m.client, t.clients[m.client]))
  {
    var t := Step(s, m);
    if m.Submits? {
      assert Unclaimed(t, m.audio);
    }
  }

  lemma ArrivingIsSafe(s: System, m: Move)
    requires Invariant(s) && Enabled(s, m) && (m.Submits? || m.Controls? || m.Delivers? || m.Crashes?)
    ensures Invariant(Step(s, m))
  {
    var t := Step(s, m);
    ArrivingIsRely(s, m);
    ArrivingClientsAreOk(s, m);
    assert t.store == s.store;
    StepIsSafe(s, t, Some(m.client));
  }

  lemma EveryStepIsSafe(s: System, m: Move)
    requires Invariant(s) && Enabled(s, m)
    ensures Invariant(Step(s, m))
  {
    match m
    case Idles =>
    case Passes(instant) => PassingIsSafe(s, instant);
    case CleansBlobs => CleaningIsSafe(s, m);
    case CleansIndex(_) => CleaningIsSafe(s, m);
    case Acts(cid, choice) => ActIsSafe(s, cid, choice);
    case _ => ArrivingIsSafe(s, m);
  }

  lemma {:induction false} EveryRunIsSafe(states: seq<System>, moves: seq<Move>, n: nat)
    requires Run(states, moves) && n < |states|
    ensures Invariant(states[n])
  {
    if n > 0 {
      EveryRunIsSafe(states, moves, n - 1);
      EveryStepIsSafe(states[n - 1], moves[n - 1]);
    }
  }
}
