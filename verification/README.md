# Verified model of the speech intelligence service

The service takes dictation and recordings, transcribes them in the background or live, and tells who said what. This
project models the parts of it whose correctness depends on the order of events or on bookkeeping over whole inputs,
and proves what they promise.

* **Jobs.** Submitters, cancelling and deleting clients and workers share job records in Redis and audio blobs.
  `JobRecords` holds the record and its lifecycle, `JobStore` the expiring keys with each store operation as one step,
  `JobProtocol` the clients as program counters, `AudioOwnership` the invariant of every run and `JobGuarantees` what
  follows from one moment to any later one. `OptimisticTransactions` breaks each store operation into WATCH, read and
  EXEC with a version per key and shows that every interleaving is a run of `JobProtocol`; `RedisTransactions` is the
  retry loop itself, against arbitrary interference. `CapacityLock` breaks a reservation into its commands under the
  expiring lock, and `LateHolders` shows what a late lock holder can do.
* **Rate limiting.** `RateLimiter` models the self-expiring sorted set, any number of callers command by command, and
  the retry loop.
* **Live dictation.** `LiveSession` says what each call does, `LiveGuarantees` what holds after any calls with any
  answers of detector and recognizer, and `DictationSession` is the object that does it in place. `LiveSocket` is the
  connection's receiver and processor with their bounded queue, and `LiveDictation` puts connection and session together.
* **Speech regions.** `VoiceActivity` shows that the one-pass loop over frames computes the unique clustering, and
  `LiveDetection` what a session with that detector can hear.
* **Conversations.** `OverlapDetection` turns a diarization into flagged turns, `TokenTexts` joins words, and
  `SpeakerAlignment` and `ConversationAssembly` give every word a speaker and cut the words into segments.

`Basics` and `Wrappers` hold what the modules share. Clocks, job ids, tokens, the broker, the models and all failures of
calls are choices of the run. Instants are microseconds, positions in audio are samples, and timestamps of alignment are
reals. Ghost fields and fields documented as history only record what happened.

Five places where the code does less than one might expect. The first four come with the exact condition for it:

* A submitter whose message the broker refuses writes FAILED and then discards the audio. If that write is refused, the
  audio is discarded all the same and a live QUEUED job is left without it (`AudioIsKeptUnlessForsaken`,
  `RefusedCompensationOrphansTheJob`).
* A `stop` in mid-speech whose final decode is rejected as invalid audio or uncertain language is answered like any
  recoverable error; the processor then waits on a queue that nobody fills (`HangsExactlyWhenSpeechIsRejected`,
  `RejectedSpeechHangs`).
* `delete` reads the idempotency key before its transaction; a stale one makes the store forget a live claim or keep a
  dead one (`StaleDeleteBreaksClaims`, `StaleDeleteForgetsALiveClaim`). In the runs delete is one step.
* An idle session shows the detector at most its pre-roll and at most its analysis window, and the detector drops what is
  shorter than the shortest speech. The settings do not compare them: a session can ever hear speech if and only if the
  shortest speech fits both (`SessionsHearExactly`, `TooLittleIsNeverHeard`). A pre-roll of zero is allowed and hears
  nothing, and neither do a pre-roll of 200 ms beside the default shortest speech of 250 ms, or a shortest speech of
  500 ms beside the default pre-roll of 320 ms (`DefaultsHearButNeighboursDoNot`).
* Capacity and idempotency hold if lock holders finish within the lock's lifetime. That is sufficient, and a course shows
  that it cannot simply be dropped (`LateHoldersExceedTheLimit`); it is not claimed to be necessary in every course.

A speaker whom the diarizer itself calls "Unknown" shares the label of unattributed words and is not counted.

## Model

| member | source | states |
|---|---|---|
| `JobRecords.MutationsEvolve` | src/speech_intelligence_api/domain/models.py:337-366 | Whatever mutation the store applies, a record keeps its kind, creation and expiry instants; its version grows by one or nothing changes; progress never falls; a status change is an edge of the lifecycle graph. The mutations the services use also keep "cancellation was requested, so it neither runs nor succeeds". |
| `JobRecords.TransitionLowersRank` | src/speech_intelligence_api/domain/enums.py:130-158 | The lifecycle graph in one formula, both ways: a change is legal exactly when it spends rank and SUCCEEDED is reached from RUNNING only. |
| `JobRecords.StatusChangesAreBounded` | src/speech_intelligence_api/domain/enums.py:130-158 | Any history of committed versions of one record holds at most four status changes. |
| `JobStore.TickKeepsConsistent` | src/speech_intelligence_api/adapters/redis_jobs.py:371-372 | The expiry of any number of keys, at millisecond deadlines rounded up, leaves records, results, active index and idempotency table in agreement. |
| `JobStore.ChangeKeepsConsistent` | src/speech_intelligence_api/adapters/redis_jobs.py:132-173 | Attaching a task, a transition, a progress update and a cancellation request each leave them in agreement. |
| `JobStore.SaveKeepsConsistent` | src/speech_intelligence_api/adapters/redis_jobs.py:175-205 | So does saving a result, which writes record, result and index in one transaction. |
| `JobStore.DeleteKeepsConsistent` | src/speech_intelligence_api/adapters/redis_jobs.py:225-235 | So does deleting a job, with its own digest. |
| `JobStore.CleanupKeepsConsistent` | src/speech_intelligence_api/adapters/redis_jobs.py:241-245 | Removing index members up to now changes no answer of the index. |
| `JobStore.ReserveKeepsConsistent` | src/speech_intelligence_api/adapters/redis_jobs.py:97-122 | Reserving a fresh job leaves keys, index and results in agreement, even if its deadline has already passed. |
| `JobStore.ReserveKeepsClaims` | src/speech_intelligence_api/adapters/redis_jobs.py:97-122 | And it leaves every digest naming the one live job that claimed it, if the digest was free. |
| `JobStore.ResultsAreNeverOrphaned` | src/speech_intelligence_api/adapters/redis_jobs.py:207-223 | Reading a result finds one exactly for a SUCCEEDED job and never has to delete one. |
| `JobStore.StaleDeleteBreaksClaims` | src/speech_intelligence_api/adapters/redis_jobs.py:225-235 | delete reads the digest outside its transaction: it leaves the idempotency table right if and only if that digest is still the job's own and names no other job. |
| `JobStore.StaleDeleteForgetsALiveClaim` | src/speech_intelligence_api/adapters/redis_jobs.py:225-235 | How it becomes stale: of two deletes of one job, one reads the digest, the other removes the job, the digest is claimed for a new job, and the first then forgets the claim of a job that lives on. |
| `JobStore.StaleDeleteIsPossible` | src/speech_intelligence_api/adapters/redis_jobs.py:225-235 | The store that one reservation with a claim leaves is one in which that can happen. |
| `AudioOwnership.SubmitterResumes` | src/speech_intelligence_api/application/transcriptions.py:234-267 | Whatever the store and the broker answer, a submitter discards the normalized audio only while no job names it, or after the job was released, or when its own FAILED write was refused. |
| `AudioOwnership.ControllerResumes` | src/speech_intelligence_api/application/jobs.py:62-104 | A cancelling or deleting client drops audio only of a job that no longer needs it, and marks CANCELLED only after the audio is gone. |
| `AudioOwnership.WorkerResumes` | src/speech_intelligence_api/application/conversations.py:264-362 | The same for a delivery of either kind of task, through every answer, failure, retry and `fail`. |
| `AudioOwnership.DroppersAreEntitled` | src/speech_intelligence_api/application/jobs.py:128-166 | Whoever is about to delete a blob deletes one that no live QUEUED or RUNNING job needs. |
| `AudioOwnership.CancelledByDroppers` | src/speech_intelligence_api/application/jobs.py:187-191 | Only a client that has seen the audio deleted ever moves a job to CANCELLED. |
| `AudioOwnership.StepKeepsForsaken` | src/speech_intelligence_api/application/transcriptions.py:254-262 | A submitter that lost its FAILED write and discarded the audio stays the exception it is. |
| `AudioOwnership.EveryStepIsSafe` | src/speech_intelligence_api/application/jobs.py:62-191 | Every step of any client, every crash of a worker or controller, every passing of time and every clean-up keeps the audio-ownership invariant. |
| `AudioOwnership.EveryRunIsSafe` | src/speech_intelligence_api/workers/tasks.py:85-156 | So it holds at every moment of every run with any number of submitters, controllers and duplicated deliveries. |
| `JobGuarantees.RunsMoveForward` | src/speech_intelligence_api/adapters/redis_jobs.py:132-205 | Between any two moments of a run versions, progress and cancellation requests only grow, terminal states stay, expiry never moves, results are never replaced, and a removed job never returns. |
| `JobGuarantees.AudioIsKeptUnlessForsaken` | src/speech_intelligence_api/application/transcriptions.py:167-191 | An unexpired QUEUED or RUNNING job lacks its audio if and only if its submitter was refused the compensating FAILED write and then discarded the audio. |
| `JobGuarantees.RefusedCompensationOrphansTheJob` | src/speech_intelligence_api/application/transcriptions.py:254-268 | That case is reachable: a five-step run that ends with a live QUEUED job without audio. |
| `JobGuarantees.CancelledAudioIsGone` | src/speech_intelligence_api/application/jobs.py:62-82 | The audio of a CANCELLED job is gone, then and at every later moment. |
| `JobGuarantees.FinishedDeliveriesCleanUp` | src/speech_intelligence_api/application/jobs.py:123-136 | A delivery that holds a finished record and its payload, and neither fails nor crashes, is done only when the audio is gone, however the others interleave and whatever becomes of the record. |
| `JobGuarantees.SecondReadDecides` | src/speech_intelligence_api/application/jobs.py:124-127 | Its second read gets it there, with the job's own audio, exactly if the job still exists at that moment and is of its kind; otherwise it is done and has deleted nothing. |
| `JobGuarantees.RedeliveryCleansUp` | src/speech_intelligence_api/application/jobs.py:124-136 | So a redelivery that has read a finished record, and finds the job at its second read, is done only when the job's audio is gone. |
| `JobGuarantees.ResultIsWrittenOnce` | src/speech_intelligence_api/adapters/redis_jobs.py:175-223 | While a job lives it has a result exactly when it is SUCCEEDED; the first result stays, whichever duplicate worker wrote it. |
| `JobGuarantees.CancellationWins` | src/speech_intelligence_api/adapters/redis_jobs.py:166-192 | Once cancellation is requested no continuation stores a result or leaves CANCELLING, CANCELLED, FAILED. |
| `JobGuarantees.IndexAlwaysAgrees` | src/speech_intelligence_api/adapters/redis_jobs.py:92-113 | In every reachable state the index above now lists exactly the unexpired unfinished jobs. |
| `JobGuarantees.StatusFollowsTheGraph` | src/speech_intelligence_api/adapters/redis_jobs.py:143-150 | The successive records of a stored job follow the lifecycle graph with at most three status changes (EXPIRED is never asked for). |
| `OptimisticTransactions.CommitIsAtomic` | src/speech_intelligence_api/adapters/redis_jobs.py:314-324 | If the record is still what was read, the queued commands have the effect and the answer of the whole call. |
| `OptimisticTransactions.EarlyAnswerIsAtomic` | src/speech_intelligence_api/adapters/redis_jobs.py:186-192 | An attempt that answers without EXEC answers like the whole call. |
| `OptimisticTransactions.StepKeepsPipelines` | src/speech_intelligence_api/adapters/redis_jobs.py:310-318 | While the watched version is current, what a client has read is what the key holds, whoever moves next. |
| `OptimisticTransactions.StepRefinesAtomic` | src/speech_intelligence_api/adapters/redis_jobs.py:303-327 | Each WATCH, read and EXEC, and giving up after 64 attempts, is one atomic step or none. |
| `OptimisticTransactions.RedisRunsRefineAtomicRuns` | src/speech_intelligence_api/adapters/redis_jobs.py:303-327 | Every interleaving of any number of such loops is a run in which each call takes effect at once on the current record: no update is lost. |
| `OptimisticTransactions.RedisRunsAreSafe` | src/speech_intelligence_api/adapters/redis_jobs.py:175-205 | So the ownership invariant and the monotonicity of runs hold for the interleaved system. |
| `RedisTransactions.Server.AttemptOnce` | src/speech_intelligence_api/adapters/redis_jobs.py:311-326 | One pass of the loop: it takes effect on the state that the others left, or changes nothing and something did interfere. |
| `RedisTransactions.Server.Transact` | src/speech_intelligence_api/adapters/redis_jobs.py:303-327 | The retry loop under any interference: the call takes effect exactly once on what the others left by then, or 64 disturbed attempts leave only the others' effects. |
| `CapacityLock.AdvanceTouchesOwnLock` | src/speech_intelligence_api/adapters/redis_jobs.py:270-301 | A caller's command takes a free lock or gives up its own, and touches nobody else's. |
| `CapacityLock.CoursesAreSound` | src/speech_intelligence_api/adapters/redis_jobs.py:85-122 | Whatever callers, other clients, deaths and expiries do, stored jobs stem from one reservation each and the keys agree. |
| `CapacityLock.NobodyFreesAnothersLock` | src/speech_intelligence_api/adapters/redis_jobs.py:288-301 | A lock changes hands only by its own expiry or by its holder: a late holder never frees another caller's lock. |
| `CapacityLock.OtherPointsKeepTheStore` | src/speech_intelligence_api/adapters/redis_jobs.py:265-268 | A claim that a caller deletes has always lapsed already. |
| `CapacityLock.TimelyCoursesAreGuarded` | src/speech_intelligence_api/adapters/redis_jobs.py:270-286 | If holders finish within the lock's lifetime, digests and jobs agree, capacity is kept, and what a caller found in its section stays true until it leaves. |
| `CapacityLock.PendingNeverExceedsTheLimit` | src/speech_intelligence_api/adapters/redis_jobs.py:92-94 | Then the unexpired unfinished jobs never outnumber max_pending_jobs. |
| `CapacityLock.OneLiveJobPerDigest` | src/speech_intelligence_api/adapters/redis_jobs.py:247-268 | Then no two live jobs carry one digest. |
| `CapacityLock.ClaimsAreAnsweredTruthfully` | src/speech_intelligence_api/adapters/redis_jobs.py:247-268 | Then a replay names the live job with that digest and fingerprint, a conflict means a live job with another fingerprint, and every other outcome means that no live job holds the digest. |
| `CapacityLock.CreatingMakesTheClaim` | src/speech_intelligence_api/adapters/redis_jobs.py:105-122 | Creating a job with a claim makes the digest name that job and fingerprint. |
| `CapacityLock.ClaimLasts` | src/speech_intelligence_api/adapters/redis_jobs.py:247-268 | Then a claim that names a live job names it, with that fingerprint, for as long as the job lives. |
| `CapacityLock.LiveClaimsAreAnsweredAlike` | src/speech_intelligence_api/adapters/redis_jobs.py:86-91 | Then every caller with the digest of a live job, whenever it comes, gets that very job if its fingerprint is the same and a conflict if it is not. |
| `CapacityLock.ClaimsCreateOneJob` | src/speech_intelligence_api/adapters/redis_jobs.py:86-122 | Then a claim creates one job: while the job lives, the same claim replays it, and its digest with any other fingerprint conflicts. |
| `LateHolders.LateHoldersExceedTheLimit` | src/speech_intelligence_api/adapters/redis_jobs.py:270-286 | The assumption is needed: an eleven-step course with one late holder leaves two jobs pending under a limit of one. |
| `RateLimiter.PrunedReadsAreFull` | src/speech_intelligence_api/adapters/redis_rate_limiting.py:53-61 | Reading the pruned set is as good as reading every admission ever made. |
| `RateLimiter.CommitAppends` | src/speech_intelligence_api/adapters/redis_rate_limiting.py:68-74 | A commit appends its timestamp as the newest, and forgets only what no later window can contain. |
| `RateLimiter.CoursesAreSound` | src/speech_intelligence_api/adapters/redis_rate_limiting.py:47-92 | In every concurrent course the key holds what it should, and what a caller read is complete while its watch is. |
| `RateLimiter.CommitOrderIsTimeOrder` | src/speech_intelligence_api/adapters/redis_rate_limiting.py:50-51 | Admissions commit in timestamp order, because time is read after WATCH. |
| `RateLimiter.NoWindowIsOverfull` | src/speech_intelligence_api/adapters/redis_rate_limiting.py:47-75 | Every interval (t - window, t] holds at most limit admissions. |
| `RateLimiter.DecisionsAreExact` | src/speech_intelligence_api/adapters/redis_rate_limiting.py:76-90 | Every decision is the one computed from the full, unpruned, never-expired history, and is recorded in it exactly if allowed. |
| `RateLimiter.RetryAfterIsTight` | src/speech_intelligence_api/adapters/redis_rate_limiting.py:62-66 | A refused caller is told between 1 and window_seconds; waiting that long admits it if nobody else was admitted, and a second less does not. |
| `RateLimiter.SlidingWindow.Attempt` | src/speech_intelligence_api/adapters/redis_rate_limiting.py:48-74 | One transaction between other callers' steps: it adds exactly its own commit to what they left, or nothing. |
| `RateLimiter.SlidingWindow.Acquire` | src/speech_intelligence_api/adapters/redis_rate_limiting.py:28-95 | At most 64 transactions; a decision is exact for the history it is committed on, and without one only the others' effects remain. |
| `DictationSession.LiveTranscriptionSession.Ingest` | src/speech_intelligence_api/application/live_transcription.py:159-226 | The object takes the chunk into its stream exactly if it accepts it. Afterwards an active utterance is the stream from its start on, below its limit and not silent for too long; the recognizer got exactly the stream from there on; and every event is well-formed and spans it. On every path state, calls and answer are those of the specification. |
| `DictationSession.LiveTranscriptionSession.CommitUtterance` | src/speech_intelligence_api/application/live_transcription.py:228-235 | The same for commit, which adds no audio. |
| `DictationSession.LiveTranscriptionSession.CloseSession` | src/speech_intelligence_api/application/live_transcription.py:237-245 | The same for close, which leaves the object closed exactly if it returns: a final decode that raises leaves it open. |
| `DictationSession.LiveTranscriptionSession.DiscardSession` | src/speech_intelligence_api/application/live_transcription.py:247-251 | The same for discard, which decodes nothing and leaves no audio. |
| `DictationSession.LiveTranscriptionSession.AlwaysHolds` | src/speech_intelligence_api/application/live_transcription.py:107-157 | Between any two calls the buffers are slices of the stream, the events returned so far follow the grammar unless an error ended the session, and inference stays amortised. |
| `LiveGuarantees.StartedUtterancesAreNewest` | src/speech_intelligence_api/application/live_transcription.py:253-260 | A new utterance is the newest audio of the stream, from its start to the newest sample, under a new id and at revision zero. |
| `LiveGuarantees.DraftsAreSpacedAndNew` | src/speech_intelligence_api/application/live_transcription.py:272-284 | After a draft none is due before another interval of audio, whatever the recognizer did; an event comes exactly for a text that differs from the last one, so the same text is never reported twice in a row. |
| `LiveGuarantees.FinishedUtterancesAreOver` | src/speech_intelligence_api/application/live_transcription.py:286-300 | An utterance ends whatever the final decode does, up to the revision; what is kept for the next one is the newest audio, as long as the pre-roll allows, or nothing. |
| `LiveGuarantees.ClosingIsRejectedInSpeech` | src/speech_intelligence_api/application/live_transcription.py:237-245 | Closing fails as a rejected decode exactly if the session is open, in mid-speech, and the final decode is rejected. |
| `LiveGuarantees.BuffersAreSlices` | src/speech_intelligence_api/application/live_transcription.py:159-226 | After any calls and errors the stream is as long as the sample count, an active utterance is stream[start .. total] and an idle pre-roll is a suffix of the stream. |
| `LiveGuarantees.AnalysedAudioIsNewest` | src/speech_intelligence_api/application/live_transcription.py:348-350 | The detector always gets the newest audio of the stream. |
| `LiveGuarantees.DecodedAudioIsTheUtterance` | src/speech_intelligence_api/application/live_transcription.py:302-346 | The recognizer always gets exactly stream[start .. total], and every event spans exactly that. |
| `LiveGuarantees.EventsAreValid` | src/speech_intelligence_api/application/live_transcription.py:332-346 | Building an event never raises: positive id, start at or after zero, end not before start. |
| `LiveGuarantees.ActiveUtterancesAreSettled` | src/speech_intelligence_api/application/live_transcription.py:199-217 | After each ingest that returns, an active utterance is below its limit and its silence below the end silence. |
| `LiveGuarantees.SpeechIsFedInOrder` | src/speech_intelligence_api/application/live_transcription.py:187-217 | With any settings, starts never decrease and utterances overlap by at most the pre-roll; if the pre-roll is no longer than the end silence, each starts at or after the last speech of the one before; without pre-roll the session never hears speech at all. |
| `LiveGuarantees.InferenceIsAmortised` | src/speech_intelligence_api/application/live_transcription.py:168-225 | Drafts times the partial interval is at most the samples plus utterances times the pre-roll, detector calls times 512 at most the samples, and the samples at most the session limit. |
| `LiveGuarantees.EventsFollowTheGrammar` | src/speech_intelligence_api/application/live_transcription.py:196-300 | Until a non-recoverable error the events form (Started Partial* Final?)*, ids increase, revisions are 0, 1, 2, ..., and nothing follows a Final for its id. |
| `LiveGuarantees.UtterancesAreAnnounced` | src/speech_intelligence_api/application/live_transcription.py:196-197 | Until then an id is missing from the events only if a decode raised in it. |
| `LiveSocket.WakingIsSound` | src/speech_intelligence_api/entrypoints/http/routes/live.py:543-545 | Waking after a flag always leaves the processor something to take, whether or not there was room for the wake, and disturbs no message. |
| `LiveSocket.PuttingAppends` | src/speech_intelligence_api/entrypoints/http/routes/live.py:325-334 | A message is accepted as the last one, behind those not taken yet, exactly if the queue has room; otherwise nothing changes among them and the connection fails as too fast. |
| `LiveSocket.Connection.ReceiveOne` | src/speech_intelligence_api/entrypoints/http/routes/live.py:288-367 | One pass of the receiver: a valid message becomes the last one accepted exactly if there is room, everything else raises a flag, and anything but a queued message that is no stop ends the receiver; the object stays valid. |
| `LiveSocket.Connection.ProcessOne` | src/speech_intelligence_api/entrypoints/http/routes/live.py:378-436 | One step of the processor, whether handling ends normally, recoverably or fatally: it takes at most one message, the oldest one queued, at most one after a flag, and loses none; the object stays valid. |
| `LiveSocket.CoursesAreSound` | src/speech_intelligence_api/entrypoints/http/routes/live.py:258-279 | In every interleaving of the two tasks flags, queue, and what was taken agree. |
| `LiveSocket.NothingIsLostOrReordered` | src/speech_intelligence_api/entrypoints/http/routes/live.py:378-412 | What the processor took is always a gap-free prefix of the valid messages received, the rest is queued in order, and the queue stays bounded. |
| `LiveSocket.AtMostOneLateItem` | src/speech_intelligence_api/entrypoints/http/routes/live.py:379-385 | After a disconnect or failure is flagged at most one more item is taken. |
| `LiveSocket.HangsExactlyAfterARejectedStop` | src/speech_intelligence_api/entrypoints/http/routes/live.py:363-428 | Once the receiver has ended, a waiting processor finds the queue empty if and only if the final decode of a stop was rejected as recoverable. |
| `LiveSocket.RejectedStopHangs` | src/speech_intelligence_api/entrypoints/http/routes/live.py:399-428 | Such a stop always leads there. |
| `LiveSocket.RejectedStopReachesAHang` | src/speech_intelligence_api/entrypoints/http/routes/live.py:363-428 | A five-event course that does, whatever the queue holds. |
| `LiveSocket.HangingIsForever` | src/speech_intelligence_api/entrypoints/http/routes/live.py:385-385 | And nothing ends that wait. |
| `LiveSocket.ProcessorEnds` | src/speech_intelligence_api/entrypoints/http/routes/live.py:271-279 | Otherwise the processor takes at most three steps per queued item plus three, that is queue length plus one iterations, after the receiver's end. |
| `LiveDictation.SocketsFormACourse` | src/speech_intelligence_api/entrypoints/http/routes/live.py:385-436 | The connection together with its session runs through courses of the connection, so all of the above holds of it. |
| `LiveDictation.MessageFeedsItsAudio` | src/speech_intelligence_api/entrypoints/http/routes/live.py:386-412 | A message handled without a fatal error has fed the session all of its audio, and no message feeds anything else. |
| `LiveDictation.SessionHearsWhatWasSent` | src/speech_intelligence_api/entrypoints/http/routes/live.py:258-279 | The stream that the session has heard is a gap-free prefix of the audio sent, and exactly the audio of the messages handled as long as the processor goes on. |
| `LiveDictation.HangsExactlyWhenSpeechIsRejected` | src/speech_intelligence_api/entrypoints/http/routes/live.py:399-428 | A waiting processor waits for good if and only if a stop was handled while the session was in mid-speech and the final decode was rejected as invalid audio or uncertain language. |
| `LiveDictation.RejectedSpeechHangs` | src/speech_intelligence_api/entrypoints/http/routes/live.py:399-428 | A nine-event course that gets there: one window of speech, a stop, a rejected decode. |
| `VoiceActivity.DetectRegions` | src/speech_intelligence_api/adapters/silero_vad.py:76-114 | The one-pass loop yields the regions of the clusters that are long enough, in order, for the clustering of all frames. |
| `VoiceActivity.AppendRegion` | src/speech_intelligence_api/adapters/silero_vad.py:124-149 | A cluster that is long enough adds its region, and any other adds none. |
| `VoiceActivity.NeighboursShareOrSplit` | src/speech_intelligence_api/adapters/silero_vad.py:79-101 | Two consecutive voiced frames share a cluster exactly when fewer than min_silence_frames unvoiced frames lie between them. |
| `VoiceActivity.ClustersAreDisjoint` | src/speech_intelligence_api/adapters/silero_vad.py:79-114 | No frame is in two clusters. |
| `VoiceActivity.ClusteringIsUnique` | src/speech_intelligence_api/adapters/silero_vad.py:79-114 | There is only one clustering of the frames, so the loop computes it. |
| `VoiceActivity.LongClustersAreEmitted` | src/speech_intelligence_api/adapters/silero_vad.py:136-149 | Every cluster that is long enough has its region in the output. |
| `VoiceActivity.RegionsStem` | src/speech_intelligence_api/adapters/silero_vad.py:136-149 | Every region in the output is that of a cluster that is long enough. |
| `VoiceActivity.RegionPadsItsSpeech` | src/speech_intelligence_api/adapters/silero_vad.py:134-139 | A region contains its cluster's samples and at most the padding on either side. |
| `VoiceActivity.RegionsAreOrdered` | src/speech_intelligence_api/adapters/silero_vad.py:134-149 | Regions lie in the audio, are not empty, and their starts and ends never go back. |
| `VoiceActivity.AudioHasOneListOfRegions` | src/speech_intelligence_api/adapters/silero_vad.py:53-114 | The output is determined by the frames. |
| `VoiceActivity.Detect` | src/speech_intelligence_api/adapters/silero_vad.py:37-51 | It raises exactly for odd or non-16-kHz audio that is not empty, gives nothing for no audio, and its last region ends last and within the audio, as the live session relies on. |
| `LiveDetection.ShortAudioIsSilent` | src/speech_intelligence_api/adapters/silero_vad.py:134-137 | Audio that is shorter than the shortest speech has no regions, whatever probabilities the model gives. |
| `LiveDetection.LongAudioCanBeHeard` | src/speech_intelligence_api/adapters/silero_vad.py:80-137 | All other audio can be heard: some probabilities make a region that reaches to its end. |
| `LiveDetection.DetectableIsTruthful` | src/speech_intelligence_api/adapters/silero_vad.py:37-51 | The service's detector never reports a region beyond the audio it was given, so SpeechIsFedInOrder holds of every session with it. |
| `LiveDetection.IdleSessionsHearExactlyEnough` | src/speech_intelligence_api/application/live_transcription.py:182-197 | Whenever an idle session consults the detector, some answer that the detector can give begins an utterance if and only if the audio shown is at least as long as the shortest speech. |
| `LiveDetection.TooLittleIsNeverHeard` | src/speech_intelligence_api/application/live_transcription.py:171-197 | If the pre-roll or the analysis window is shorter than the shortest speech, the session stays idle and reports nothing, whatever it is sent and whatever the model makes of it. |
| `LiveDetection.SessionsHearExactly` | src/speech_intelligence_api/config.py:151-157 | Within the ranges of the settings, a session can ever hear speech if and only if the shortest speech fits both the pre-roll and the analysis window. |
| `LiveDetection.DefaultsHearButNeighboursDoNot` | src/speech_intelligence_api/config.py:151-157 | The default settings can hear speech; with a pre-roll of 200 ms, or a shortest speech of 500 ms, they never do. |
| `OverlapDetection.Entries` | src/speech_intelligence_api/adapters/pyannote_diarization.py:202-217 | Reading an annotation fails exactly if some item is malformed, and otherwise keeps every item in order. |
| `OverlapDetection.OverlapIntervals` | src/speech_intelligence_api/adapters/pyannote_diarization.py:219-232 | The intervals are exactly the common parts of the pairs of entries that share time and differ in speaker. |
| `OverlapDetection.FlagIsPointwise` | src/speech_intelligence_api/adapters/pyannote_diarization.py:189-195 | The interval test flags a turn exactly when two different speakers talk at some instant of it. |
| `OverlapDetection.BuildTurns` | src/speech_intelligence_api/adapters/pyannote_diarization.py:185-197 | Turns are built, in order, for the entries with a duration; it raises exactly if one of these starts before zero or has no speaker. |
| `OverlapDetection.TurnsOf` | src/speech_intelligence_api/adapters/pyannote_diarization.py:176-200 | The output is the valid, flagged turns sorted by time; when it is unavailable or invalid is stated exactly. |
| `OverlapDetection.SortingPermutes` | src/speech_intelligence_api/adapters/pyannote_diarization.py:200-200 | Sorting permutes the turns. |
| `OverlapDetection.SortedIsTheStableOrder` | src/speech_intelligence_api/adapters/pyannote_diarization.py:200-200 | It is the only order by start and end that keeps ties as they were. |
| `TokenTexts.JoinTokenTexts` | src/speech_intelligence_api/application/conversation_alignment.py:206-228 | It raises exactly if every text is blank; otherwise the text is the words joined, keeping every visible character in order and adding no other. |
| `TokenTexts.JoiningKeepsInk` | src/speech_intelligence_api/application/conversation_alignment.py:209-228 | Joining with or without spaces only ever adds or drops white space. |
| `TokenTexts.DecimalIsInjective` | src/speech_intelligence_api/application/conversation_alignment.py:156-156 | Different numbers make different labels. |
| `SpeakerAlignment.Tokens` | src/speech_intelligence_api/application/conversation_alignment.py:87-114 | The tokens are the words of each segment, or the segment itself if it has none, in order. |
| `SpeakerAlignment.TokensAreValid` | src/speech_intelligence_api/application/conversation_alignment.py:87-114 | Tokens inherit the time and score bounds of the transcript. |
| `SpeakerAlignment.AtMostOneIsChosen` | src/speech_intelligence_api/application/conversation_alignment.py:122-140 | The rules choose at most one turn for a token. |
| `SpeakerAlignment.MeetingTurnIsChosen` | src/speech_intelligence_api/application/conversation_alignment.py:122-140 | They choose one whenever some turn meets the token. |
| `SpeakerAlignment.Assign` | src/speech_intelligence_api/application/conversation_alignment.py:116-149 | A token takes the first turn of greatest overlap, an instant the first turn around it, and a token that meets no turn stays unknown; its confidence is the shared fraction, between 0 and 1. |
| `SpeakerAlignment.SpeakerLabels` | src/speech_intelligence_api/application/conversation_alignment.py:151-157 | People are numbered by first appearance, and there is one label more than there are known speakers. |
| `SpeakerAlignment.LabelsAreInjective` | src/speech_intelligence_api/application/conversation_alignment.py:151-157 | Two speakers never share a label. |
| `SpeakerAlignment.Groups` | src/speech_intelligence_api/application/conversation_alignment.py:165-170 | Flattening the groups gives the tokens once each in order; groups are not empty, hold together, and no two neighbours could be joined. |
| `SpeakerAlignment.GroupingIsUnique` | src/speech_intelligence_api/application/conversation_alignment.py:165-179 | There is only one such grouping. |
| `ConversationAssembly.SegmentIsValidIfItFits` | src/speech_intelligence_api/domain/models.py:156-176 | Of all that a segment demands only the times can fail, and they hold exactly if the group lies within its first start and last end. |
| `ConversationAssembly.BuildSegment` | src/speech_intelligence_api/application/conversation_alignment.py:181-203 | Building a segment succeeds exactly if the group has visible text and fits its bounds; the segment then shows the group's text. |
| `ConversationAssembly.GroupsHaveOneSpeaker` | src/speech_intelligence_api/application/conversation_alignment.py:173-179 | A segment has one speaker and one language. |
| `ConversationAssembly.Segments` | src/speech_intelligence_api/application/conversation_alignment.py:159-171 | The segments show the groups of the grouping, one each, under the label of their speaker; it raises exactly if one of them cannot be built. |
| `ConversationAssembly.Assemble` | src/speech_intelligence_api/application/conversation_alignment.py:56-85 | It raises exactly for a blank or empty transcript, no turns, or a group that cannot be built; otherwise every token has its rightful speaker, every group its labelled segment, speaker_count is the number of distinct known speakers, and neither transcript is empty. |
| `ConversationAssembly.OutcomeIsUnique` | src/speech_intelligence_api/application/conversation_alignment.py:53-85 | Alignment is deterministic: that fixes the whole outcome, error or conversation. |
| `ConversationAssembly.ConversationKeepsWords` | src/speech_intelligence_api/application/conversation_alignment.py:67-84 | The segments hold the transcript's words each once and in order, and the visible text of its tokens. |
| `ConversationAssembly.WellTimedWordsAssemble` | src/speech_intelligence_api/application/conversation_alignment.py:56-85 | A transcript that is not blank, with turns, whose tokens are not blank and whose starts and ends never go back always makes a conversation. |

## Left out

- JobStore.DeleteKeepsConsistent: delete is one step, although the code reads the digest before its transaction; StaleDeleteBreaksClaims gives the exact condition for the difference.
- AudioOwnership.EveryRunIsSafe: a call that fails has no effect and submitters are not killed in the middle of a call; a store that fails after committing and coroutine cancellation inside a call are not modelled.
- CapacityLock.CoursesAreSound: the process-local lock and the 30 second wait only restrict the callers further; releasing is retried without the limit of 64, and a holder that gives up releasing is a caller that dies.
- LiveGuarantees.SpeechIsFedInOrder: assumes of the detector only that a region ends within the audio it was given; LiveDetection.DetectableIsTruthful proves that of the service's own detector, without the rounding of a region's end to seconds and back.
- VoiceActivity.DetectRegions: probabilities and means are reals, without the rounding of floating point.
- SpeakerAlignment.Assign: timestamps are finite reals; NaN, infinities and rounding are not modelled.
- RateLimiter.SlidingWindow.Acquire: the checks of identity, scope and positive limits, hashing and several keys; one key has a fixed limit and window.
- A retried conversation job is not claimed to resume: update_progress(45) raises once progress has reached 80.
- One clock serves Redis and all processes; clock skew between them is not modelled.
- The raw upload, synchronous transcription, probing and normalization: the submitter begins with normalized audio in the blob store.
- The number of live sessions and their capacity lock: a counter under a mutex.
- Whisper, Silero, pyannote and PyAV inference; JSON dumping and loading; hashing; Celery and Redis themselves.
- LiveDictation.SessionHearsWhatWasSent: ends with the processor; the discard on leaving the session's context comes after that.
- The offset added to a transcript's timestamps in a live event, and the transcript inside the event beyond its text.
- The language, its confidence and the Chinese script of a conversation, which are copied.
- HTTP schemas, authentication, close codes, metrics, logging, settings, exports, summaries and file storage.
