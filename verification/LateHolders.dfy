/** Why the capacity bound needs lock holders to finish in time: a course in which one does not. */
module LateHolders {
  import opened Wrappers
  import opened JobRecords
  import opened JobStore
  import opened CapacityLock

  function QueuedJob(): Record {
    Record(Transcription, Queued, 0, 60_000_000, 0, false, None, None, 0)
  }

  function Unclaimed(id: JobId): Request {
    Request(id, QueuedJob(), Payload(Transcription, id), None)
  }

  /** The store at an instant before the deadline of the jobs, with these jobs reserved. */
  function Holding(clock: int, ids: set<JobId>): Store {
    Store(clock,
          map id | id in ids :: Hash(QueuedJob(), Some(Payload(Transcription, id)), None, Some(60_000)),
          map[],
          map id | id in ids :: 60_000_000,
          map[])
  }

  function First(point: Point): Reserver {
    Reserver(Unclaimed(0), 0, point)
  }

  function Second(point: Point): Reserver {
    Reserver(Unclaimed(1), LOCK_TTL_US, point)
  }

  /** Caller 0 has counted and is about to commit when its lock expires; caller 1 then counts, and both commit. */
  function LateEvents(): seq<Event> {
    [Arrives(0, Unclaimed(0)), Proceeds(0), Proceeds(0), Proceeds(0), Elapses(LOCK_TTL_US),
     Arrives(1, Unclaimed(1)), Proceeds(1), Proceeds(1), Proceeds(1), Proceeds(1), Proceeds(0)]
  }

  function Alone(lock: Option<Lock>, version: nat, clock: int, point: Point): World {
    World(Holding(clock, {}), lock, version, map[0 := First(point)], map[0 := 0], {}, {0})
  }

  function Both(lock: Option<Lock>, version: nat, ids: set<JobId>, first: Point, second: Point): World {
    World(Holding(LOCK_TTL_US, ids), lock, version, map[0 := First(first), 1 := Second(second)],
          map[0 := 0, 1 := 1], ids, {0, 1})
  }

  function LateWorlds(): seq<World> {
    var held := Some(Lock(0, LOCK_TTL_US));
    var stolen := Some(Lock(1, 2 * LOCK_TTL_US));
    [Start(0),
     Alone(None, 0, 0, Locking),
     Alone(held, 1, 0, Counting),
     Alone(held, 1, 0, Probing({})),
     Alone(held, 1, 0, Committing({})),
     Alone(None, 2, LOCK_TTL_US, Committing({})),
     Both(None, 2, {}, Committing({}), Locking),
     Both(stolen, 3, {}, Committing({}), Counting),
     Both(stolen, 3, {}, Committing({}), Probing({})),
     Both(stolen, 3, {}, Committing({}), Committing({})),
     Both(stolen, 3, {1}, Committing({}), Unlocking(ReservedNew)),
     Both(stolen, 3, {0, 1}, Unlocking(ReservedNew), Unlocking(ReservedNew))]
  }

  lemma ReservingAddsJob(clock: int, ids: set<JobId>, id: JobId)
    requires 0 <= clock < 60_000_000 && id !in ids
    ensures Reserve(Holding(clock, ids), id, QueuedJob(), Payload(Transcription, id), None)
            == Holding(clock, ids + {id})
  {
    assert CeilToMilliseconds(60_000_000) == 60_000;
  }

  lemma NobodyIsCounted(clock: int, since: int)
    ensures Members(Holding(clock, {}), since) == {}
  {
  }

  lemma ArrivingLeadsOn()
    ensures Possible(LateWorlds()[0], LateEvents()[0])
    ensures LateWorlds()[1] == After(LateWorlds()[0], LateEvents()[0], 1)
  {
  }

  lemma FirstStepsLeadOn(n: nat)
    requires 1 <= n < 4
    ensures LateEvents()[n] == Proceeds(0) && 0 in LateWorlds()[n].reservers
    ensures LateWorlds()[n + 1] == Advance(LateWorlds()[n], 0, 1)
  {
    NobodyIsCounted(0, 0);
  }

  lemma ExpiryLeadsOn()
    ensures Possible(LateWorlds()[4], LateEvents()[4])
    ensures LateWorlds()[5] == After(LateWorlds()[4], LateEvents()[4], 1)
  {
    assert Tick(Holding(0, {}), LOCK_TTL_US) == Holding(LOCK_TTL_US, {});
  }

  lemma SecondArrivingLeadsOn()
    ensures Possible(LateWorlds()[5], LateEvents()[5])
    ensures LateWorlds()[6] == After(LateWorlds()[5], LateEvents()[5], 1)
  {
  }

  lemma SecondStepsLeadOn(n: nat)
    requires 6 <= n < 9
    ensures LateEvents()[n] == Proceeds(1) && 1 in LateWorlds()[n].reservers
    ensures LateWorlds()[n + 1] == Advance(LateWorlds()[n], 1, 1)
  {
    NobodyIsCounted(LOCK_TTL_US, LOCK_TTL_US);
  }

  lemma SecondCommitLeadsOn()
    ensures LateEvents()[9] == Proceeds(1) && 1 in LateWorlds()[9].reservers
    ensures LateWorlds()[10] == Advance(LateWorlds()[9], 1, 1)
  {
    ReservingAddsJob(LOCK_TTL_US, {}, 1);
    assert {} + {1} == {1};
  }

  lemma LateCommitLeadsOn()
    ensures LateEvents()[10] == Proceeds(0) && 0 in LateWorlds()[10].reservers
    ensures LateWorlds()[11] == Advance(LateWorlds()[10], 0, 1)
  {
    ReservingAddsJob(LOCK_TTL_US, {1}, 0);
    assert {1} + {0} == {0, 1};
  }

  lemma LateWorldsAreACourse()
    ensures Course(LateWorlds(), LateEvents(), 1)
  {
    forall n | 0 <= n < 11
      ensures Possible(LateWorlds()[n], LateEvents()[n])
      ensures LateWorlds()[n + 1] == After(LateWorlds()[n], LateEvents()[n], 1)
    {
      if n == 0 { ArrivingLeadsOn(); } else if n < 4 { FirstStepsLeadOn(n); } else if n == 4 { ExpiryLeadsOn(); }
      else if n == 5 { SecondArrivingLeadsOn(); } else if n < 9 { SecondStepsLeadOn(n); }
      else if n == 9 { SecondCommitLeadsOn(); } else { LateCommitLeadsOn(); }
    }
  }

  lemma OneHolderWasLate()
    ensures !Timely(LateWorlds(), LateEvents())
  {
    assert !InTime(LateWorlds()[4], LateEvents()[4]);
  }

  /** Finishing in time is needed: with a limit of one, a holder that outlives its lock leaves two jobs pending. */
  lemma LateHoldersExceedTheLimit()
    ensures Course(LateWorlds(), LateEvents(), 1) && !Timely(LateWorlds(), LateEvents())
    ensures |LateWorlds()| == 12 && Pending(LateWorlds()[11].store, 0) && Pending(LateWorlds()[11].store, 1)
  {
    LateWorldsAreACourse();
    OneHolderWasLate();
  }
}
