/** The store's two retry loops as they run against a server that other clients keep using in between. */
module RedisTransactions {
  import opened Wrappers
  import opened Basics
  import opened JobRecords
  import opened JobStore
  import JobProtocol
  import opened OptimisticTransactions

  /** One thing that may happen between two of our commands: another client's call, or time passing. */
  datatype Foreign =
    | Calls(call: JobProtocol.Call)
    | Passes(duration: nat)

  function AfterOne(s: Store, f: Foreign): Store {
    match f
    case Calls(call) => JobProtocol.StoreEffect(s, call).0
    case Passes(duration) => Tick(s, s.clock + duration)
  }

  ghost predicate TookEffect(before: Store, call: JobProtocol.Call, after: Store, reply: Reply) {
    JobProtocol.StoreEffect(before, call) == (after, JobProtocol.Reply(reply))
  }

  /** In one attempt others act before WATCH, before the read and before EXEC. */
  predicate IsAttempt(gaps: Gaps<Foreign>) {
    |gaps| == 3
  }

  /** Others act while the key is watched. */
  predicate Disturbed(gaps: Gaps<Foreign>) {
    IsAttempt(gaps) && (gaps[1] != [] || gaps[2] != [])
  }

  function At(versions: map<JobId, nat>, id: JobId): nat {
    if id in versions then versions[id] else 0
  }

  /** The version of every key whose value changes moves on. */
  function Bumped<V(==)>(versions: map<JobId, nat>, before: map<JobId, V>, after: map<JobId, V>): map<JobId, nat> {
    map id | id in versions.Keys + before.Keys + after.Keys ::
      At(versions, id) + (if Lookup(before, id) != Lookup(after, id) then 1 else 0)
  }

  class Server {
    var store: Store
    var version: map<JobId, nat>
    var resultVersion: map<JobId, nat>

    function VersionOf(id: JobId): nat
      reads this
    {
      At(version, id)
    }

    function ResultVersionOf(id: JobId): nat
      reads this
    {
      At(resultVersion, id)
    }

    /** Replaces the store, moving on the version of every job key and result key that changes. */
    method Become(next: Store)
      modifies this
      ensures store == next
      ensures forall id :: VersionOf(id) >= old(VersionOf(id))
      ensures forall id :: Lookup(old(store).jobs, id) != Lookup(next.jobs, id) ==> VersionOf(id) > old(VersionOf(id))
      ensures forall id :: ResultVersionOf(id) >= old(ResultVersionOf(id))
      ensures forall id ::
                Lookup(old(store).results, id) != Lookup(next.results, id) ==>
                  ResultVersionOf(id) > old(ResultVersionOf(id))
    {
      version := Bumped(version, store.jobs, next.jobs);
      resultVersion := Bumped(resultVersion, store.results, next.results);
      store := next;
    }

    method Serve(others: seq<Foreign>)
      modifies this
      ensures store == AfterAll(AfterOne, old(store), others)
      ensures others == [] ==> version == old(version) && resultVersion == old(resultVersion)
      ensures forall id :: VersionOf(id) >= old(VersionOf(id))
      ensures forall id :: VersionOf(id) == old(VersionOf(id)) ==> Lookup(old(store).jobs, id) == Lookup(store.jobs, id)
    {
      for i := 0 to |others|
        invariant store == AfterAll(AfterOne, old(store), others[..i])
        invariant i == 0 ==> version == old(version) && resultVersion == old(resultVersion)
        invariant forall id :: VersionOf(id) >= old(VersionOf(id))
        invariant forall id :: VersionOf(id) == old(VersionOf(id)) ==>
                  Lookup(old(store).jobs, id) == Lookup(store.jobs, id)
      {
        assert others[..i + 1][..i] == others[..i];
        Become(AfterOne(store, others[i]));
      }
      assert others[..|others|] == others;
    }

    /** Others act before command k, having left the store like this since `start`. */
    method ServeGap(ghost start: Store, gaps: Gaps<Foreign>, k: nat)
      requires k < |gaps| && store == AfterAll(AfterOne, start, Flatten(gaps[..k]))
      modifies this
      ensures store == AfterAll(AfterOne, start, Flatten(gaps[..k + 1])) && Flatten(gaps[..k + 1]) <= Flatten(gaps)
      ensures gaps[k] == [] ==> version == old(version) && resultVersion == old(resultVersion)
      ensures forall id :: VersionOf(id) >= old(VersionOf(id))
      ensures forall id :: VersionOf(id) == old(VersionOf(id)) ==> Lookup(old(store).jobs, id) == Lookup(store.jobs, id)
    {
      FlattenExtends(gaps, k);
      AfterAllSplits(AfterOne, start, Flatten(gaps[..k]), gaps[k]);
      Serve(gaps[k]);
    }

    /** One pass through the loop: WATCH, read, and EXEC unless the watched key changed. */
    method AttemptOnce(call: JobProtocol.Call, gaps: Gaps<Foreign>)
        returns (answer: Option<Reply>, ghost happened: seq<Foreign>)
      requires Transactional(call) && IsAttempt(gaps)
      modifies this
      ensures happened <= Flatten(gaps) && (answer.None? ==> happened == Flatten(gaps))
      ensures answer.Some? ==> TookEffect(AfterAll(AfterOne, old(store), happened), call, store, answer.value)
      ensures answer.None? ==> store == AfterAll(AfterOne, old(store), happened)
      ensures answer.None? ==> Disturbed(gaps)
    {
      ghost var start := store;
      ServeGap(start, gaps, 0);
      var watched, watchedResult := VersionOf(call.id), ResultVersionOf(call.id);
      ServeGap(start, gaps, 1);
      happened := Flatten(gaps[..2]);
      var reading := Read(store, call);
      if reading.Answers? {
        EarlyAnswerIsAtomic(store, call);
        return Some(reading.answer.reply), happened;
      }
      ghost var read := store;
      ServeGap(start, gaps, 2);
      assert gaps[..3] == gaps;
      happened := Flatten(gaps);
      if VersionOf(call.id) == watched && (call.Save? ==> ResultVersionOf(call.id) == watchedResult) {
        ReadDependsOnTheKeyOnly(read, store, call);
        CommitIsAtomic(store, call, reading.seen, reading.update);
        Become(Commands(store, call, reading.update));
        return Some(Found(reading.update)), happened;
      }
      return None, happened;
    }

    /**
     * _mutate_record and save_result: try again while others keep changing the record. `happened` is what they have
     * done by the time the call is decided. Whatever it is, either the call takes effect once, on the state they left,
     * or after 64 disturbed attempts it has no effect.
     */
    method Transact(call: JobProtocol.Call, attempts: seq<Gaps<Foreign>>)
        returns (answer: Option<Reply>, ghost happened: seq<Foreign>)
      requires Transactional(call) && |attempts| == MAX_TRANSACTION_RETRIES
      requires forall k :: 0 <= k < |attempts| ==> IsAttempt(attempts[k])
      modifies this
      ensures happened <= Everything(attempts) && (answer.None? ==> happened == Everything(attempts))
      ensures answer.Some? ==> TookEffect(AfterAll(AfterOne, old(store), happened), call, store, answer.value)
      ensures answer.None? ==> store == AfterAll(AfterOne, old(store), happened)
      ensures answer.None? ==> forall k :: 0 <= k < |attempts| ==> Disturbed(attempts[k])
    {
      happened := [];
      var attempt := 0;
      while attempt < MAX_TRANSACTION_RETRIES
        invariant 0 <= attempt <= MAX_TRANSACTION_RETRIES
        invariant happened == Everything(attempts[..attempt]) && store == AfterAll(AfterOne, old(store), happened)
        invariant forall k :: 0 <= k < attempt ==> Disturbed(attempts[k])
      {
        ghost var now;
        answer, now := AttemptOnce(call, attempts[attempt]);
        AfterAllSplits(AfterOne, old(store), happened, now);
        EverythingExtends(attempts, attempt);
        assert happened + now <= happened + Flatten(attempts[attempt]);
        happened := happened + now;
        if answer.Some? {
          return;
        }
        attempt := attempt + 1;
      }
      assert attempts[..attempt] == attempts;
      return None, happened;
    }
  }
}
