/** The job record, its lifecycle graph and the pure mutations the store applies to it. */
module JobRecords {
  import opened Wrappers

  datatype Kind = Transcription | Conversation

  datatype Status = Queued | Running | Succeeded | Failed | Cancelling | Cancelled | Expired {
    predicate Terminal() {
      this in {Succeeded, Failed, Cancelled, Expired}
    }

    predicate CanTransitionTo(target: Status) {
      match this
      case Queued => target in {Running, Cancelling, Cancelled, Failed, Expired}
      case Running => target in {Succeeded, Failed, Cancelling, Cancelled, Expired}
      case Cancelling => target in {Cancelled, Failed, Expired}
      case Succeeded => target == Expired
      case Failed => target == Expired
      case Cancelled => target == Expired
      case Expired => false
    }

    /** How many status changes are still possible at most. */
    function Rank(): nat {
      match this
      case Queued => 4
      case Running => 3
      case Cancelling => 2
      case Succeeded => 1
      case Failed => 1
      case Cancelled => 1
      case Expired => 0
    }
  }

  const MAX_RETENTION_US := 30 * 60 * 1_000_000

  /** Instants are microseconds. */
  datatype Record = Record(
    kind: Kind,
    status: Status,
    createdAt: int,
    expiresAt: int,
    progress: int,
    cancellationRequested: bool,
    taskId: Option<string>,
    failureCode: Option<string>,
    version: int)
  {
    predicate Valid() {
      && createdAt < expiresAt <= createdAt + MAX_RETENTION_US
      && 0 <= progress <= 100
      && (taskId.Some? ==> taskId.value != "")
      && (failureCode.Some? ==> failureCode.value != "")
      && 0 <= version
    }

    /** Still waiting for or receiving work, so the audio is still needed. */
    predicate NeedsAudio() {
      status == Queued || status == Running
    }
  }

  /** Constructing a record re-runs its validation. */
  function Validated(r: Record): Checked<Record> {
    if r.Valid() then Ok(r) else ValueError
  }

  function Transition(r: Record, target: Status, progress: Option<int>, failure: Option<string>): Checked<Record> {
    if !r.status.CanTransitionTo(target) then ValueError
    else
      var requested := if progress.None? then r.progress else progress.value;
      if requested < r.progress then ValueError
      else
        Validated(r.(status := target,
                   progress := if target == Succeeded then 100 else requested,
                   failureCode := failure,
                   version := r.version + 1))
  }

  /** The closures handed to the store's optimistic update loop. */
  datatype Mutation =
    | AttachTask(taskId: string)
    | MoveTo(target: Status, progress: Option<int>, failure: Option<string>)
    | UpdateProgress(percent: int)
    | RequestCancellation
  {
    predicate RemovesFromActive() {
      MoveTo? && target.Terminal()
    }

    /** The mutations the services and workers ask for; SUCCEEDED is reached through a saved result only. */
    predicate FromClients() {
      MoveTo? ==> target in {Running, Failed, Cancelled}
    }

    function Apply(r: Record): Checked<Record> {
      match this
      case AttachTask(task) =>
        if task == "" then ValueError else Validated(r.(taskId := Some(task), version := r.version + 1))
      case MoveTo(target, progress, failure) =>
        Transition(r, target, progress, failure)
      case UpdateProgress(percent) =>
        if r.status != Running || !(r.progress <= percent <= 99) then ValueError
        else Validated(r.(progress := percent, version := r.version + 1))
      case RequestCancellation =>
        if r.status.Terminal() || r.status == Cancelling then Ok(r)
        else Transition(r.(cancellationRequested := true), Cancelling, None, None)
    }
  }

  /** What one committed write may do to a record. */
  ghost predicate Evolves(before: Record, after: Record) {
    && after.kind == before.kind
    && after.createdAt == before.createdAt
    && after.expiresAt == before.expiresAt
    && before.version <= after.version <= before.version + 1
    && (after.version == before.version ==> after == before)
    && before.progress <= after.progress
    && (before.cancellationRequested ==> after.cancellationRequested)
    && (after.status == before.status || before.status.CanTransitionTo(after.status))
  }

  /** A record whose cancellation was requested can never run or succeed. */
  ghost predicate CancellationHonoured(r: Record) {
    && (r.cancellationRequested ==> r.status in {Cancelling, Cancelled, Failed, Expired})
    && (r.status == Cancelling ==> r.cancellationRequested)
  }

  lemma MutationsEvolve(m: Mutation, r: Record)
    requires m.Apply(r).Ok? && r.Valid()
    ensures Evolves(r, m.Apply(r).value) && m.Apply(r).value.Valid()
    ensures m.FromClients() && CancellationHonoured(r) ==> CancellationHonoured(m.Apply(r).value)
  {
  }

  /** The whole lifecycle graph: a change spends rank, and only a RUNNING job can succeed. */
  lemma TransitionLowersRank(s: Status, t: Status)
    ensures s.CanTransitionTo(t) <==> t.Rank() < s.Rank() && (t == Succeeded ==> s == Running)
  {
  }

  /** Consecutive committed versions of one record. */
  ghost predicate History(rs: seq<Record>) {
    forall i :: 0 < i < |rs| ==> Evolves(rs[i - 1], rs[i])
  }

  function StatusChanges(rs: seq<Record>): nat {
    if |rs| < 2 then 0
    else StatusChanges(rs[..|rs| - 1]) + (if rs[|rs| - 1].status != rs[|rs| - 2].status then 1 else 0)
  }

  /** Every status change spends rank, so a job changes status at most four times. */
  lemma {:induction false} StatusChangesAreBounded(rs: seq<Record>)
    requires |rs| > 0 && History(rs)
    ensures StatusChanges(rs) + rs[|rs| - 1].status.Rank() <= rs[0].status.Rank()
    ensures StatusChanges(rs) <= 4
  {
    if |rs| > 1 {
      var shorter := rs[..|rs| - 1];
      StatusChangesAreBounded(shorter);
      assert Evolves(rs[|rs| - 2], rs[|rs| - 1]);
      if rs[|rs| - 1].status != rs[|rs| - 2].status {
        TransitionLowersRank(rs[|rs| - 2].status, rs[|rs| - 1].status);
      }
    }
  }
}
