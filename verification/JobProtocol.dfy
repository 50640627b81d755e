/**
 * Submitters, controllers and workers sharing the job store and the audio blobs, as one program counter per client.
 * Here each store call is one atomic step; OptimisticTransactions shows that the WATCH/EXEC loops refine this.
 */
module JobProtocol {
  import opened Wrappers
  import opened JobRecords
  import opened JobStore

  type ClientId = nat

  /** BatchTranscriptionService.execute and ConversationSubmissionService.execute, from normalized audio on. */
  datatype SubmitPoint =
    | Reserving
    | Publishing(id: JobId)
    | Attaching(id: JobId, task: string)
    | Withdrawing(id: JobId)
    | Compensating(id: JobId)
    | Discarding(job: Option<JobId>)
    | Accepted(id: JobId)
    | Refused(discarded: bool)

  /** JobManagementService.cancel, and delete when the client is deleting. */
  datatype ControlPoint =
    | Inspecting
    | Reading
    | Requesting(seen: Record)
    | Revoking(seen: Record)
    | FetchingPayload
    | DroppingQueued(audio: BlobId)
    | MarkingCancelled(dropped: Option<BlobId>)
    | FetchingForDelete
    | DroppingDeleted(audio: BlobId)
    | DeletingKeys
    | Answered

  /** One delivery of a job: execute, and fail when the caller of execute gives up. */
  datatype WorkPoint =
    | Loading
    | LoadingPayload(found: Option<Record>)
    | Deciding(seen: Record, audio: BlobId)
    | DroppingExpired(audio: BlobId)
    | DeletingExpired
    | Dropping(audio: BlobId)
    | CancelDropping(audio: BlobId)
    | CancelReading(audio: BlobId)
    | CancelMarking(audio: BlobId)
    | Starting(audio: BlobId)
    | Recognising(audio: BlobId)
    | Rechecking(audio: BlobId, result: JobResult)
    | Progressing(audio: BlobId, percent: int)
    | Checking(audio: BlobId, percent: int)
    | Diarising(audio: BlobId)
    | Assembling(audio: BlobId)
    | Saving(audio: BlobId, result: JobResult)
    | Raising
    | FailLoading
    | FailLoadingPayload(found: Option<Record>)
    | FailMarking(mine: Option<BlobId>)
    | Done

  datatype Client =
    | Submitter(kind: Kind, audio: BlobId, expiresAt: int, spot: SubmitPoint)
    | Controller(id: JobId, deleting: bool, step: ControlPoint)
    | Worker(id: JobId, kind: Kind, point: WorkPoint)

  datatype Call =
    | Get(id: JobId)
    | GetPayload(id: JobId)
    | Update(id: JobId, mutation: Mutation)
    | Save(id: JobId, result: JobResult)
    | DeleteJob(id: JobId)
    | DropBlob(audio: BlobId)
    | ReserveJob
    | ReadClock
    | Elsewhere  // broker, recognizer, diarizer, assembler, or a choice of whoever called execute
    | NoCall

  datatype Answer =
    | Reply(reply: JobStore.Reply)
    | HasPayload(payload: Payload)
    | NoPayload
    | Instant(now: int)
    | Created(id: JobId)
    | NotCreated
    | Went
    | Named(task: string)
    | Produced(result: JobResult)
    | GivesUp
    | Failure

  function CallOf(c: Client): Call {
    match c
    case Submitter(_, audio, _, spot) => (
      match spot
      case Reserving => ReserveJob
      case Publishing(_) => Elsewhere
      case Attaching(id, task) => Update(id, AttachTask(task))
      case Withdrawing(_) => Elsewhere
      case Compensating(id) => Update(id, MoveTo(Failed, None, Some("dependency_unavailable")))
      case Discarding(_) => DropBlob(audio)
      case Accepted(_) => NoCall
      case Refused(_) => NoCall)
    case Controller(id, _, step) => (
      match step
      case Inspecting => Get(id)
      case Reading => Get(id)
      case Requesting(_) => Update(id, RequestCancellation)
      case Revoking(_) => Elsewhere
      case FetchingPayload => GetPayload(id)
      case DroppingQueued(audio) => DropBlob(audio)
      case MarkingCancelled(_) => Update(id, MoveTo(Cancelled, None, None))
      case FetchingForDelete => GetPayload(id)
      case DroppingDeleted(audio) => DropBlob(audio)
      case DeletingKeys => DeleteJob(id)
      case Answered => NoCall)
    case Worker(id, _, point) => (
      match point
      case Loading => Get(id)
      case LoadingPayload(_) => GetPayload(id)
      case Deciding(_, _) => ReadClock
      case DroppingExpired(audio) => DropBlob(audio)
      case DeletingExpired => DeleteJob(id)
      case Dropping(audio) => DropBlob(audio)
      case CancelDropping(audio) => DropBlob(audio)
      case CancelReading(_) => Get(id)
      case CancelMarking(_) => Update(id, MoveTo(Cancelled, None, None))
      case Starting(_) => Update(id, MoveTo(Running, Some(10), None))
      case Recognising(_) => Elsewhere
      case Rechecking(_, _) => Get(id)
      case Progressing(_, percent) => Update(id, UpdateProgress(percent))
      case Checking(_, _) => Get(id)
      case Diarising(_) => Elsewhere
      case Assembling(_) => Elsewhere
      case Saving(_, result) => Save(id, result)
      case Raising => Elsewhere
      case FailLoading => Get(id)
      case FailLoadingPayload(_) => GetPayload(id)
      case FailMarking(_) => Update(id, MoveTo(Failed, None, Some("failure")))
      case Done => NoCall)
  }

  // ---- What each client does with the answer ----

  function ResumeSubmitter(kind: Kind, spot: SubmitPoint, a: Answer): SubmitPoint {
    match spot
    case Reserving =>
      if a.Created? then Publishing(a.id) else Discarding(None)
    case Publishing(id) =>
      if a.Named? then Attaching(id, a.task) else Compensating(id)
    case Attaching(id, _) =>
      if a.Reply? && a.reply.Found? then Accepted(id)
      else if a.Reply? && a.reply.Missing? then Withdrawing(id)
      else Compensating(id)
    case Withdrawing(id) =>
      // Only the transcription service lets the ServiceError through without compensating.
      if a.Went? && kind == Transcription then Discarding(Some(id)) else Compensating(id)
    case Compensating(id) => Discarding(Some(id))
    case Discarding(_) => Refused(!a.Failure?)
    case Accepted(_) => spot
    case Refused(_) => spot
  }

  function AfterCancel(deleting: bool): ControlPoint {
    if deleting then FetchingForDelete else Answered
  }

  function AfterRequest(deleting: bool, seen: Record): ControlPoint {
    if seen.status == Queued then FetchingPayload else AfterCancel(deleting)
  }

  function ResumeController(deleting: bool, step: ControlPoint, a: Answer): ControlPoint {
    match step
    case Inspecting =>
      if !(a.Reply? && a.reply.Found?) || a.reply.record.status in {Running, Cancelling} then Answered
      else if a.reply.record.status == Queued then Reading
      else FetchingForDelete
    case Reading =>
      if !(a.Reply? && a.reply.Found?) then Answered
      else if a.reply.record.status.Terminal() then AfterCancel(deleting)
      else Requesting(a.reply.record)
    case Requesting(seen) =>
      if !(a.Reply? && a.reply.Found?) then Answered
      else if seen.taskId.Some? then Revoking(seen)
      else AfterRequest(deleting, seen)
    case Revoking(seen) =>
      if a.Failure? then Answered else AfterRequest(deleting, seen)
    case FetchingPayload =>
      if a.HasPayload? then DroppingQueued(a.payload.audio)
      else if a.NoPayload? then MarkingCancelled(None)
      else Answered
    case DroppingQueued(audio) =>
      if a.Failure? then Answered else MarkingCancelled(Some(audio))
    case MarkingCancelled(_) =>
      if a.Reply? && a.reply.Found? then AfterCancel(deleting) else Answered
    case FetchingForDelete =>
      if a.HasPayload? then DroppingDeleted(a.payload.audio)
      else if a.NoPayload? then DeletingKeys
      else Answered
    case DroppingDeleted(_) =>
      if a.Failure? then Answered else DeletingKeys
    case DeletingKeys => Answered
    case Answered => Answered
  }

  predicate CancelSeen(r: Record) {
    r.cancellationRequested || r.status == Cancelling
  }

  function Decide(seen: Record, audio: BlobId, now: int): WorkPoint {
    if seen.expiresAt <= now then DroppingExpired(audio)
    else if seen.status.Terminal() then Dropping(audio)
    else if CancelSeen(seen) then CancelDropping(audio)
    else if seen.status == Queued then Starting(audio)
    else if seen.status == Running then Recognising(audio)
    else Done
  }

  function ResumeWorker(kind: Kind, point: WorkPoint, a: Answer): WorkPoint {
    if a.Failure? then (if point.FailLoading? || point.FailLoadingPayload? || point.FailMarking? then Done else Raising)
    else
      match point
      case Loading =>
        if a.Reply? && a.reply.Found? then LoadingPayload(Some(a.reply.record)) else LoadingPayload(None)
      case LoadingPayload(seen) =>
        if a.HasPayload? && seen.Some? && a.payload.kind == kind then Deciding(seen.value, a.payload.audio) else Done
      case Deciding(seen, audio) =>
        if a.Instant? then Decide(seen, audio, a.now) else Raising
      case DroppingExpired(_) => DeletingExpired
      case DeletingExpired => Done
      case Dropping(_) => Done
      case CancelDropping(audio) => CancelReading(audio)
      case CancelReading(audio) =>
        if a.Reply? && a.reply.Found? && a.reply.record.status == Cancelling then CancelMarking(audio) else Done
      case CancelMarking(_) =>
        if a.Reply? && a.reply.Raised? then Raising else Done
      case Starting(audio) =>
        if a.Reply? && a.reply.Found? then Recognising(audio)
        else if a.Reply? && a.reply.Missing? then Done
        else Raising
      case Recognising(audio) =>
        if !a.Produced? then Raising
        else if kind == Transcription then Rechecking(audio, a.result)
        else Progressing(audio, 45)
      case Rechecking(audio, result) =>
        if a.Reply? && a.reply.Found? && !CancelSeen(a.reply.record) then Saving(audio, result)
        else CancelDropping(audio)
      case Progressing(audio, percent) =>
        if a.Reply? && a.reply.Found? then Checking(audio, percent)
        else if a.Reply? && a.reply.Missing? then Dropping(audio)
        else Raising
      case Checking(audio, percent) =>
        if a.Reply? && a.reply.Found? && CancelSeen(a.reply.record) then CancelDropping(audio)
        else if percent == 45 then Diarising(audio)
        else Assembling(audio)
      case Diarising(audio) => Progressing(audio, 80)
      case Assembling(audio) =>
        if a.Produced? then Saving(audio, a.result) else Raising
      case Saving(audio, _) =>
        if a.Reply? && a.reply.Found? then
          (match a.reply.record.status
           case Succeeded => Dropping(audio)
           case Cancelling => CancelDropping(audio)
           case _ => Done)
        else if a.Reply? && a.reply.Missing? then Dropping(audio)
        else Raising
      case Raising => if a.GivesUp? then FailLoading else Done
      case FailLoading =>
        if a.Reply? && a.reply.Found? then FailLoadingPayload(Some(a.reply.record)) else FailLoadingPayload(None)
      case FailLoadingPayload(seen) =>
        var mine := if a.HasPayload? && a.payload.kind == kind then Some(a.payload.audio) else None;
        if seen.None? || seen.value.status.Terminal() then Done
        else if seen.value.status == Cancelling then (if mine.Some? then CancelDropping(mine.value) else Done)
        else FailMarking(mine)
      case FailMarking(audio) =>
        if a.Reply? && !a.reply.Raised? && audio.Some? then Dropping(audio.value) else Done
      case Done => Done
  }

  function Resume(c: Client, a: Answer): Client {
    match c
    case Submitter(kind, _, _, spot) => c.(spot := ResumeSubmitter(kind, spot, a))
    case Controller(_, deleting, step) => c.(step := ResumeController(deleting, step, a))
    case Worker(_, kind, point) => c.(point := ResumeWorker(kind, point, a))
  }

  // ---- The system ----

  /** `owner`, `audioOf` and `uncompensated` are history: who made a blob, which audio each job ever had, and
      which submitters were refused their FAILED write. */
  datatype System = System(
    store: Store,
    blobs: map<BlobId, int>,
    clients: map<ClientId, Client>,
    owner: map<BlobId, ClientId>,
    audioOf: map<JobId, BlobId>,
    uncompensated: set<JobId>)

  datatype Choice =
    | Proceed
    | Fail
    | Reserves(id: JobId, record: Record, claim: Option<Claim>)
    | Other(answer: Answer)

  datatype Move =
    | Idles
    | Passes(instant: int)
    | CleansBlobs
    | CleansIndex(cutoff: int)
    | Submits(client: ClientId, kind: Kind, audio: BlobId, expiresAt: int)
    | Controls(client: ClientId, id: JobId, deleting: bool)
    | Delivers(client: ClientId, id: JobId, kind: Kind)
    | Crashes(client: ClientId)
    | Acts(client: ClientId, choice: Choice)

  /** The store side of a call; everything but the store's reply is unchanged by it. */
  function StoreEffect(s: Store, call: Call): (Store, Answer) {
    match call
    case Get(id) => (s, Reply(if id in s.jobs then Found(s.jobs[id].record) else Missing))
    case GetPayload(id) =>
      (s, if id in s.jobs && s.jobs[id].payload.Some? then HasPayload(s.jobs[id].payload.value) else NoPayload)
    case Update(id, m) => var (t, r) := Change(s, id, m); (t, Reply(r))
    case Save(id, result) => var (t, r) := SaveResult(s, id, result); (t, Reply(r))
    case DeleteJob(id) => (Delete(s, id), Went)
    case ReadClock => (s, Instant(s.clock))
    case _ => (s, Went)
  }

  predicate ReserveAllowed(s: System, c: Client, choice: Choice) {
    && choice.Reserves? && c.Submitter?
    && choice.id !in s.audioOf
    && FreshRecord(choice.record) && choice.record.kind == c.kind && choice.record.expiresAt == c.expiresAt
  }

  /** A call outside the store answers anything but a store reply. */
  predicate OtherAllowed(choice: Choice) {
    choice.Other? && (choice.answer.Went? || choice.answer.Named? || choice.answer.Produced? || choice.answer.GivesUp?)
  }

  predicate ChoiceAllowed(s: System, c: Client, choice: Choice) {
    match CallOf(c)
    case NoCall => false
    case ReserveJob => choice.Fail? || choice.Proceed? || ReserveAllowed(s, c, choice)
    case Elsewhere => choice.Fail? || OtherAllowed(choice)
    case _ => choice.Fail? || choice.Proceed?
  }

  function Act(s: System, cid: ClientId, choice: Choice): System
    requires cid in s.clients && ChoiceAllowed(s, s.clients[cid], choice)
  {
    var c := s.clients[cid];
    if choice.Fail? then
      s.(clients := s.clients[cid := Resume(c, Failure)],
         uncompensated :=
           if c.Submitter? && c.spot.Compensating? then s.uncompensated + {c.spot.id} else s.uncompensated)
    else
      match CallOf(c)
      case ReserveJob =>
        if choice.Proceed? then s.(clients := s.clients[cid := Resume(c, NotCreated)])
        else
          s.(store := Reserve(s.store, choice.id, choice.record, Payload(c.kind, c.audio), choice.claim),
             audioOf := s.audioOf[choice.id := c.audio],
             clients := s.clients[cid := Resume(c, Created(choice.id))])
      case Elsewhere => s.(clients := s.clients[cid := Resume(c, choice.answer)])
      case DropBlob(audio) =>
        s.(blobs := s.blobs - {audio}, clients := s.clients[cid := Resume(c, Went)])
      case call =>
        var (store, answer) := StoreEffect(s.store, call);
        s.(store := store, clients := s.clients[cid := Resume(c, answer)])
  }

  predicate Enabled(s: System, m: Move) {
    match m
    case Idles => true
    case Passes(instant) => s.store.clock <= instant
    case CleansBlobs => true
    case CleansIndex(cutoff) => cutoff <= s.store.clock
    case Submits(cid, _, audio, _) => cid !in s.clients && audio !in s.owner && audio !in s.blobs
    case Controls(cid, _, _) => cid !in s.clients
    case Delivers(cid, _, _) => cid !in s.clients
    case Crashes(cid) => cid in s.clients && !s.clients[cid].Submitter?
    case Acts(cid, choice) => cid in s.clients && ChoiceAllowed(s, s.clients[cid], choice)
  }

  function Step(s: System, m: Move): System
    requires Enabled(s, m)
  {
    match m
    case Idles => s
    case Passes(instant) => s.(store := Tick(s.store, instant))
    case CleansBlobs => s.(blobs := map b | b in s.blobs && s.blobs[b] > s.store.clock :: s.blobs[b])
    case CleansIndex(cutoff) => s.(store := CleanupIndex(s.store, cutoff))
    case Submits(cid, kind, audio, expiresAt) =>
      s.(blobs := s.blobs[audio := expiresAt],
         owner := s.owner[audio := cid],
         clients := s.clients[cid := Submitter(kind, audio, expiresAt, Reserving)])
    case Controls(cid, id, deleting) =>
      s.(clients := s.clients[cid := Controller(id, deleting, if deleting then Inspecting else Reading)])
    case Delivers(cid, id, kind) => s.(clients := s.clients[cid := Worker(id, kind, Loading)])
    case Crashes(cid) => s.(clients := s.clients - {cid})
    case Acts(cid, choice) => Act(s, cid, choice)
  }

  function Initial(clock: int): System {
    System(Store(clock, map[], map[], map[], map[]), map[], map[], map[], map[], {})
  }

  /** The states a list of moves visits, when every move is enabled. */
  ghost predicate Run(states: seq<System>, moves: seq<Move>) {
    && |states| == |moves| + 1
    && (exists clock :: states[0] == Initial(clock))
    && (forall i :: 0 <= i < |moves| ==> Enabled(states[i], moves[i]) && states[i + 1] == Step(states[i], moves[i]))
  }
}
