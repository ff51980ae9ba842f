# A verified model of the ViTTS gateway core

The gateway turns text into speech on a fleet of workers. This project models its most intricate
parts in Dafny and proves what they promise, for every input, every schedule and every reachable
state. `dafny verify dfyconfig.toml` checks everything.

**Long-text jobs.** Orchestrators on any number of replicas drive one job and its segment rows
through conditional SQL statements. `JobTables` states the statements, `JobStorage` performs them in
place, `JobProtocol` is the state machine in which every store, stream, object-store or engine call
of a handler is one step and crashes, give-ups, redeliveries, lost entries, re-queues and cancels
fall anywhere between. `JobSafety` and `JobRuns` prove what every run keeps, up to the refinement of
sequential synthesize-then-merge. `JobRecovery` proves that one re-queue finishes an interrupted job
and bounds the steps, `JobExact` exactly when it does, and `JobOrphan` exhibits the crash and the error
it does not recover from. `JobLanes` runs the two consumers of one process side by side and foretells
the outcome from the engine's answers; `JobDrain` is the orchestrator's code as written, handler after
handler. `Submission` is the idempotent submission under races.

**Dispatch.** `WorkerPool` is the pool of health snapshots, `DispatchProtocol` the admission protocol
with releases and probes falling between any two snapshot reads, `DispatchRuns` what holds over its
runs, `StreamReserve` the slots kept for streams, `Admission` the dispatcher object with its timed wait.

**Streams and metering.** `Streaming` is the frame loop with its tee and the cache replay, `Billing` the
price of a cut-off stream, `Quota` the check, charge and log steps of all requests interleaved.
`WebSocketSession` is the pair of goroutines behind one socket.

**Cache.** `CacheKey` is the string a key is the hash of, `CacheProtocol` the stores, lookups, expiries,
sweeps and crashes interleaved, `AudioCache` the same operations as an object.

**Worker.** `Resampler` is the chunked resampler.

Shared helpers: `Basics`, `Arithmetic`, `Decimal`.

## Where the code does less than its comments say

- A crash does not always resume from the row, as the orchestrator's comment has it: a segment whose
  claimant dies between claim and completion stays `running` and is never claimed again
  (`JobOrphan.OrphanReachable`), and a store error after the claim does the same, because the handler
  gives up and its entry is acknowledged (`JobOrphan.OrphanByError`). Such a job can never merge or
  complete (`JobRecovery.OrphanBlocks`). One re-queue brings an unfinished job to its end in every
  crash-free continuation if and only if no row was left running (`JobExact.RecoversExactly`).
- The minimum queue depth does not protect the first waiter of a one-slot fleet: it is refused exactly
  when the mean service time is over half its class budget (`Admission.FirstWaiter`).
- A cancel for the current request does not always abort it. One that is read while the stream is
  watched is heard until the stream ends (`WebSocketSession.WatchedCancelIsHeard`); one that is read at
  any other moment aborts nothing, ever (`WebSocketSession.UnwatchedCancelIsLost`), and that happens to
  a cancel read between the hand-off of its request and the start of the watch
  (`WebSocketSession.CancelCanBeSwallowed`).
- The pool's corrections can be cut off although they are meant to keep its view current: a worker's
  busy count stays in step until the next probe if and only if the last one read no less than this
  gateway holds there and did not fill the worker up under a caller about to take its slot
  (`DispatchRuns.InStepExactly`). A health reply under way while a slot is taken breaks the first
  condition (`DispatchRuns.ProbeCanRace`), one that lands between a caller's last look and its taking
  the second (`DispatchRuns.ProbeCanOvertake`), and such a caller can take one slot of the stream
  reservation (`StreamReserve.OvertakenGrant`).
- Knobs that round to the same value can print differently: a negative one that rounds to zero, and the
  negative zero, print as minus zero (`CacheKey.MinusZero`, exact condition in `CacheKey.SignedKnobs`).
  Version and voice must not hold the separator (`CacheKey.SeparatorsCollide`, exact condition in
  `CacheKey.CollidesExactly`).
- An eviction that races with a store can leave an object that no row knows, although objects are
  deleted first (`CacheProtocol.SweepCanOrphan`, exact condition in `CacheProtocol.OrphanExactly`).

## Model

| member | source | states |
|---|---|---|
| `JobTables.ListsBelow` | gateway/internal/storage/postgres/db/jobs.sql.go:351-353 | listing rows 0..n-1 by sequence number gives 0, 1, ..., n-1 |
| `JobTables.IncreasingUnique` | gateway/internal/storage/postgres/db/jobs.sql.go:351-353 | a listing ordered by sequence number is determined by the set of rows |
| `JobTables.SegmentKeyInjective` | gateway/internal/storage/s3/jobtexts.go:86-89 | two segments of a job never share an object |
| `JobProtocol.LayoutOk` | gateway/internal/storage/s3/jobtexts.go:86-89 | the object layout gives non-empty, pairwise different segment keys |
| `Decimal.PaddedRoundTrip` | gateway/internal/storage/s3/jobtexts.go:88-88 | a zero-padded number reads back as itself, however wide |
| `JobStorage.JobStore.Transition` | gateway/internal/storage/postgres/db/jobs.sql.go:515-518 | moves the job only from the expected status, and says whether it did |
| `JobStorage.JobStore.SetTotal` | gateway/internal/storage/postgres/db/jobs.sql.go:441-444 | total and `synthesizing` only while `segmenting` |
| `JobStorage.JobStore.Create` | gateway/internal/storage/postgres/db/jobs.sql.go:175-179 | inserts a pending row unless it exists |
| `JobStorage.JobStore.Claim` | gateway/internal/storage/postgres/db/jobs.sql.go:34-37 | takes only pending or failed rows, counting the attempt |
| `JobStorage.JobStore.CompleteRow` | gateway/internal/storage/postgres/db/jobs.sql.go:71-79 | completes only a running row and counts it once |
| `JobStorage.JobStore.FailRow` | gateway/internal/storage/postgres/db/jobs.sql.go:218-221 | fails the row whatever its status |
| `JobStorage.JobStore.Fail` | gateway/internal/storage/postgres/db/jobs.sql.go:200-203 | fails a job that is not over |
| `JobStorage.JobStore.Complete` | gateway/internal/storage/postgres/db/jobs.sql.go:52-55 | completes only a merging job |
| `JobStorage.JobStore.Cancel` | gateway/internal/storage/postgres/db/jobs.sql.go:15-19 | cancels a job that is not over |
| `JobSafety.ReadyToMerge` | gateway/internal/jobs/orchestrator.go:380-419 | when all rows are done, the listing passes the merge check and gives the keys of pieces 0..n-1 in order |
| `JobRuns.TurnKeeps` | gateway/internal/jobs/orchestrator.go:187-452 | every call of every handler keeps the invariant, moves the job forward and leaves rows claimed by others alone |
| `JobRuns.EventKeeps` | gateway/internal/jobs/orchestrator.go:157-508 | so do deliveries, crashes, give-ups, redeliveries, lost entries, re-queues and cancels |
| `JobRuns.RunKeeps` | gateway/internal/jobs/orchestrator.go:187-419 | the invariant holds in every state of every run of any number of orchestrators |
| `JobRuns.MergingMeansAllDone` | gateway/internal/jobs/orchestrator.go:187-419 | a merging or completed job has exactly rows 0..n-1, all done under their own keys, and exact totals |
| `JobRuns.NeverNotReady` | gateway/internal/jobs/orchestrator.go:395-401 | the "not ready to merge" branch is unreachable |
| `JobRuns.MergeGetsAllKeys` | gateway/internal/jobs/orchestrator.go:395-405 | every merge is asked for the keys of all pieces in order and finds their audio |
| `JobRuns.RefinesSequential` | gateway/internal/jobs/orchestrator.go:187-419 | one choice of renditions explains every merge of a run and the output of a completed job as synthesizing the pieces in order and merging once |
| `JobRuns.BookkeepingExact` | gateway/internal/storage/postgres/db/jobs.sql.go:71-79 | `segments_done` is the number of done rows, each segment completes at most once, and a held row is running and has one live claimant |
| `JobRuns.StatusMovesForward` | gateway/internal/jobs/orchestrator.go:380-452 | status never moves back, terminal states are final, a done row is never changed again |
| `JobRuns.AnnouncedOnlyWhenOver` | gateway/internal/jobs/orchestrator.go:408-452 | a live job keeps its text and is not announced; all announcements of a run carry the job's one final status |
| `JobRuns.BackoffInRange` | gateway/internal/jobs/orchestrator.go:366-373 | the backoff table is never read out of range, in any run |
| `JobRecovery.SmoothPays` | gateway/internal/jobs/orchestrator.go:187-452 | every crash-free step uses up some of an explicit bound on the work left |
| `JobRecovery.SmoothKeeps` | gateway/internal/jobs/orchestrator.go:187-419 | while the job is not over, some entry or live handler will still move it on |
| `JobRecovery.Recovery` | gateway/internal/jobs/orchestrator.go:472-486 | after any history without a row left running, one re-queue makes every crash-free continuation stop within a bound linear in entries, pieces and retries left, and a drained system means a terminal job |
| `JobRecovery.CanDrain` | gateway/internal/jobs/orchestrator.go:157-184 | with one consumer such a state can always be driven to the end |
| `JobRecovery.OrphanBlocks` | gateway/internal/storage/postgres/db/jobs.sql.go:34-37 | a row left running by a dead claimant stays so in every continuation, and its job never merges or completes |
| `JobExact.RecoversExactly` | gateway/internal/jobs/orchestrator.go:472-486 | after any history that left the job unfinished and nobody on it, one re-queue ends it in every crash-free continuation if and only if no row was left running |
| `JobExact.DrainsUnfinished` | gateway/internal/jobs/orchestrator.go:288-310 | with a row left running, entries and handlers can run out without any failure while the job is still synthesizing |
| `JobExact.RequeueFinishes` | gateway/internal/jobs/orchestrator.go:472-486 | without such a row, a crash-free continuation to a drained, finished job exists |
| `JobExact.RunHeldStarted` | gateway/internal/storage/postgres/db/jobs.sql.go:34-37 | in every run a running row belongs to a job whose rows are complete and that has left segmentation |
| `JobOrphan.OrphanReachable` | gateway/internal/jobs/orchestrator.go:301-332 | such a row is reached by a single crash right after a claim |
| `JobOrphan.OrphanByError` | gateway/internal/jobs/orchestrator.go:311-314 | and by a store error right after a claim, with no entry left |
| `JobLanes.EndsAsForetold` | gateway/internal/jobs/orchestrator.go:151-184 | in every crash-free interleaving of the job consumer and the segment consumer on a fresh job: at most three attempts per segment, at most 3n syntheses, a linear bound on the steps, completed exactly when every segment succeeds within three attempts and the merge succeeds, else failed, and over once drained |
| `JobLanes.LaneKeeps` | gateway/internal/jobs/orchestrator.go:187-452 | every step of the two consumers keeps the history of answers in rows and places |
| `JobLanes.LanesGoOn` | gateway/internal/jobs/orchestrator.go:157-184 | while entries or handlers are left, one of the two consumers can go on |
| `JobDrain.AttemptSettles` | gateway/internal/jobs/orchestrator.go:288-377 | each attempt of a lone consumer either leaves less work or ends the job with the foretold outcome |
| `JobDrain.ListedInOrder` | gateway/internal/jobs/orchestrator.go:259-285 | the fan-out loop queues exactly the unfinished rows, in order |
| `JobDrain.Orchestrator.HandleJob` | gateway/internal/jobs/orchestrator.go:187-255 | plans the missing rows, queues the unfinished ones, fails the job when its text cannot be read or split, and takes up a job that was fanned out before: what is unfinished is queued, or the job is finished |
| `JobDrain.Orchestrator.FanOut` | gateway/internal/jobs/orchestrator.go:259-285 | queues what is unfinished; finishes when nothing is |
| `JobDrain.Orchestrator.HandleSegment` | gateway/internal/jobs/orchestrator.go:288-351 | one attempt: its effect on the row, the stream, the job, the text and the announcements in every case |
| `JobDrain.Orchestrator.RetryOrFail` | gateway/internal/jobs/orchestrator.go:355-377 | the third failure fails the job, an earlier one re-queues the segment |
| `JobDrain.Orchestrator.CollectKeys` | gateway/internal/jobs/orchestrator.go:395-401 | stops exactly when a row is not ready and otherwise lists all keys in order |
| `JobDrain.Orchestrator.Finish` | gateway/internal/jobs/orchestrator.go:380-419 | completes or fails the job, deletes its text and announces it, only if it may finish |
| `JobDrain.Orchestrator.RunJob` | gateway/internal/jobs/orchestrator.go:187-452 | the handlers one after the other on a fresh job: completed exactly when every segment succeeds within three attempts and the merge succeeds, else failed; at most 3n syntheses, at most three attempts per segment, one announcement, text deleted |
| `Submission.OneRowPerKey` | gateway/internal/jobs/service.go:91-103 | at most one row per tenant and key |
| `Submission.TextThenRowThenQueue` | gateway/internal/jobs/service.go:84-110 | in every state of every run only ids with a row are queued, and only jobs whose text is stored have a row |
| `Submission.SuccessesAgree` | gateway/internal/jobs/service.go:58-112 | all successes with one key return the same job, made from exactly their body, and at most one is told it is new |
| `Submission.ConflictExactlyOnOtherBody` | gateway/internal/jobs/service.go:58-103 | when no call fails, a submission gets the key's job if its body is the same and a conflict if not |
| `Submission.OtherBodyNeverAccepted` | gateway/internal/jobs/service.go:58-103 | with failures too, another body is never accepted, and a conflict means such a row exists |
| `WorkerPool.FreeMeansSelectable` | gateway/internal/dispatch/worker.go:51-62 | the fleet has a free slot exactly when some worker can be picked |
| `WorkerPool.Pool.Pick` | gateway/internal/dispatch/pool.go:184-214 | the one selectable worker with most free slots, fastest among ties, first among those; none only if none is selectable |
| `WorkerPool.Pool.AdjustBusy` | gateway/internal/dispatch/pool.go:227-245 | changes the busy count of the addressed worker only, within 0 and its slots |
| `DispatchRuns.BusyLedger` | gateway/internal/dispatch/pool.go:222-245 | from any probe on and whatever it read, the busy count changes exactly with the slots held, but for corrections cut off at zero or at the slots |
| `DispatchRuns.BusyIsProbePlusHeld` | gateway/internal/dispatch/pool.go:222-245 | from any reachable state on, busy less held stays what it was, when the probe counted the slots held then and overtook no caller about to take one |
| `DispatchRuns.InStepExactly` | gateway/internal/dispatch/pool.go:227-245 | from any reachable state, every continuation keeps a worker in step if and only if the probe read no less than is held there and no caller is about to take a slot of it while it is full |
| `DispatchRuns.ReachableIsBasic` | gateway/internal/dispatch/queue.go:269-372 | what the exact theorem asks of a state holds from the start of the gateway through any sensible probes |
| `DispatchRuns.ProbeCanRace` | gateway/internal/dispatch/worker.go:97-126 | a run from the start in which a probe reads less than is held |
| `DispatchRuns.ProbeCanOvertake` | gateway/internal/dispatch/worker.go:97-126 | a run from the start in which a probe fills a worker between a caller's last look and its taking |
| `DispatchRuns.CountersExact` | gateway/internal/dispatch/queue.go:325-372 | from the start of the gateway on, through any probes, in-flight and waiting counters equal the reservations not returned and the callers queued, of each class |
| `DispatchRuns.CountersNeverCutOff` | gateway/internal/dispatch/queue.go:325-372 | returning and leaving lower their counter by exactly one |
| `DispatchRuns.ClampsNeverFire` | gateway/internal/dispatch/pool.go:227-245 | under the exact condition, taking and freeing move the busy count by exactly one |
| `DispatchRuns.ReadsAreSafe` | gateway/internal/dispatch/queue.go:269-319 | from the first moment after a probe at which nobody is inside the lock, capacity read while slots are freed never overstates the fleet, and a stream that reads a free slot goes on to pick |
| `DispatchRuns.AdmittedIsGranted` | gateway/internal/dispatch/queue.go:273-300 | from then on picking cannot fail once capacity admitted a caller, whatever is freed in between |
| `StreamReserve.LowGrantWithinBound` | gateway/internal/dispatch/queue.go:277-300 | from then on no sync or batch caller is granted a slot past the total less the stream reservation, even when the probe left the fleet above it, but for held slots the probes missed |
| `StreamReserve.StreamReserveKept` | gateway/internal/dispatch/queue.go:277-323 | in every probe interval, whatever the probe overtook, sync and batch hold no more than that bound or than they held at the probe, and one more only by the caller inside the lock at the probe |
| `StreamReserve.OvertakenGrant` | gateway/internal/dispatch/queue.go:282-290 | a run from the start in which that one is taken |
| `Admission.FirstWaiter` | gateway/internal/dispatch/queue.go:236-266 | exactly when the first waiter is turned away |
| `Admission.Dispatcher.Capacity` | gateway/internal/dispatch/queue.go:304-319 | totals over the usable workers |
| `Admission.Dispatcher.ShouldRefuse` | gateway/internal/dispatch/queue.go:236-266 | the early refusal decision |
| `Admission.Dispatcher.TryReserve` | gateway/internal/dispatch/queue.go:269-301 | takes a slot of the best worker exactly when the class may have one, else changes nothing; freeing undoes the correction |
| `Admission.Dispatcher.Release` | gateway/internal/dispatch/queue.go:87-92 | gives the slot back once; a second call changes nothing |
| `Admission.Dispatcher.Overload` | gateway/internal/dispatch/queue.go:379-404 | queue depth per slot times mean service time, kept within 1 to 30 seconds, also as whole seconds |
| `Admission.Dispatcher.Await` | gateway/internal/dispatch/queue.go:190-226 | ends after a bounded number of turns; grants on the first turn whose fleet admits the class, after the first turn only before the deadline; refuses only once it is reached |
| `Admission.RetryAfterSeconds` | gateway/internal/http/problem.go:182-188 | whole seconds, rounded up, never zero |
| `Admission.Dispatcher.Reserve` | gateway/internal/dispatch/queue.go:169-227 | refuses at once exactly when it should, else grants or refuses as the wait does, with other callers moving all counters meanwhile; every exit takes its own entry back, and a refusal is 1 to 30 whole seconds (that the counters then count exactly the callers queued, in every interleaving, is DispatchRuns.CountersExact) |
| `Billing.BillMonotone` | gateway/internal/audio/wav.go:69-80 | more delivered bytes never mean a shorter duration or a lower bill |
| `Streaming.OneHeader` | gateway/internal/synth/stream.go:46-52 | a client takes at most one header, and no audio without it |
| `Streaming.Consecutive` | gateway/internal/synth/stream.go:202-206 | delivered frames are numbered consecutively modulo 2^32 |
| `Streaming.SentDelivers` | gateway/internal/synth/stream.go:208-227 | the bytes a client took are the audio of the frames passed on |
| `Streaming.Delivery.Pump` | gateway/internal/synth/stream.go:182-242 | exactly where and why the frame loop stops, and the writes it made, for every frame sequence and every refused write |
| `Streaming.Delivery.StreamFromWorker` | gateway/internal/synth/stream.go:157-256 | a completed stream caches exactly what was delivered, any other nothing; the bill of every outcome |
| `Streaming.Delivery.StreamFromCache` | gateway/internal/synth/stream.go:113-154 | replays the object; a refused header leaves the client untouched for the worker path |
| `Streaming.Delivery.Stream` | gateway/internal/synth/stream.go:68-109 | the sink protocol holds across both paths, only completed synthesis is cached, at most one usage row, the counter moves by its chargeable characters, by no more than the text, and not at all for a failure |
| `Streaming.LeavingLaterCostsMore` | gateway/internal/synth/stream.go:312-323 | leaving later never costs less, nor more than staying |
| `Quota.ChargeIsLogged` | gateway/internal/synth/service.go:349-389 | counter and usage log agree on every way a request can be served |
| `Quota.CounterIsSum` | gateway/internal/storage/postgres/db/usage.sql.go:136-142 | in every run the counter is the query's sum plus what is charged and not yet logged, so equal when nothing is in between |
| `Quota.ChargedOnce` | gateway/internal/synth/service.go:349-389 | over every run a request raises its own tenant's counter once, by the charge of the way it was served and so by at most its text, and no other counter |
| `Quota.RequestsPayForAll` | gateway/internal/quota/quota.go:88-97 | a counter is the sum of what the requests were charged |
| `Quota.OvershootBounded` | gateway/internal/quota/quota.go:63-82 | with at most N requests in flight, used plus in-flight never exceeds the ceiling by more than N-1 full texts |
| `Quota.BoundReached` | gateway/internal/quota/quota.go:63-82 | the bound is reached for every N |
| `WebSocketSession.InSocketOrder` | gateway/internal/http/websocket.go:104-149 | utterances run one at a time in socket order, none skipped |
| `WebSocketSession.CancelAttribution` | gateway/internal/http/websocket.go:104-206 | an utterance is aborted only by a cancel after its request and before the next one |
| `WebSocketSession.OneCancelOneUtterance` | gateway/internal/http/websocket.go:115-206 | one cancel frame aborts at most one utterance |
| `WebSocketSession.WatchedCancelIsHeard` | gateway/internal/http/websocket.go:169-190 | a cancel read while the stream is watched: until the stream ends, one meant for it is pending or has aborted it |
| `WebSocketSession.UnwatchedCancelIsLost` | gateway/internal/http/websocket.go:107-190 | a cancel read at any other moment aborts no utterance in any continuation |
| `WebSocketSession.AborterWasWatched` | gateway/internal/http/websocket.go:161-190 | whatever aborted an utterance was read while that utterance's own stream was watched |
| `WebSocketSession.CancelCanBeSwallowed` | gateway/internal/http/websocket.go:107-159 | a run in which a cancel for the current request is drained |
| `CacheKey.CanonicalTextIdempotent` | gateway/internal/cache/key.go:72-74 | canonical text is canonical and has the same words |
| `CacheKey.FieldsSplit` | gateway/internal/cache/key.go:72-74 | any white space splits the words before from the words after |
| `CacheKey.FieldsJoin` | gateway/internal/cache/key.go:72-74 | splitting undoes joining |
| `CacheKey.RenderKnobInjective` | gateway/internal/cache/key.go:92-94 | a printed knob determines its sign and ten-thousandths, or which special value it is |
| `CacheKey.ParamsExact` | gateway/internal/cache/key.go:78-88 | printed knobs agree exactly when the rounded knobs do |
| `CacheKey.KeyExact` | gateway/internal/cache/key.go:53-66 | two inputs are hashed from the same string exactly when version, voice, flag, rounded knobs and words agree |
| `CacheKey.NonNegativeKnobs` | gateway/internal/cache/key.go:92-94 | non-negative knobs print alike exactly when they round alike |
| `CacheKey.SignedKnobs` | gateway/internal/cache/key.go:92-94 | for all 64-bit numbers, exactly when two knobs print alike: same ten-thousandth, and same sign bit unless that is not zero |
| `CacheKey.MinusZero` | gateway/internal/cache/key.go:90-94 | a knob just below zero, and the negative zero, print differently from zero |
| `CacheKey.SeparatorsCollide` | gateway/internal/cache/key.go:53-59 | separators in version or voice make different inputs collide |
| `CacheKey.CollidesExactly` | gateway/internal/cache/key.go:53-66 | for all inputs: they share a pre-hash string exactly when the pieces between separators agree |
| `CacheProtocol.ObjectKeyInjective` | gateway/internal/cache/cache.go:112-115 | no two keys share an object |
| `CacheProtocol.HitWasStored` | gateway/internal/cache/cache.go:64-108 | in every run a hit returns a body that some store put for that key before |
| `CacheProtocol.IndexNeverStale` | gateway/internal/cache/cache.go:89-108 | without eviction neither index nor catalogue ever points at a missing object |
| `CacheProtocol.RowOutlivesObject` | gateway/internal/maintenance/scheduler.go:183-209 | a row disappears only after the same sweep deleted its object |
| `CacheProtocol.OrphanExactly` | gateway/internal/maintenance/scheduler.go:179-202 | the steps, and only the steps, that leave an object without a row |
| `CacheProtocol.SweepCanOrphan` | gateway/internal/maintenance/scheduler.go:192-202 | a faultless run in which a store between a sweep's deletes loses its row |
| `AudioCache.Manager.Store` | gateway/internal/cache/cache.go:93-108 | object, row, index in this order; the index changes only if both came first |
| `AudioCache.Manager.Lookup` | gateway/internal/cache/cache.go:64-87 | finds exactly what is indexed and there, and drops a stale entry |
| `AudioCache.Manager.EvictCache` | gateway/internal/maintenance/scheduler.go:183-209 | the object store and the catalogue after a sweep with any failures |
| `AudioCache.SweptRowsHaveNoObject` | gateway/internal/maintenance/scheduler.go:192-202 | a deleted row has no object left |
| `AudioCache.SweepSparesOthers` | gateway/internal/maintenance/scheduler.go:192-202 | entries that are not listed keep row and object |
| `Resampler.RatioOfRates` | worker/vitts_worker/encode.py:42-44 | the ratio in lowest terms rounds every length as the rates do |
| `Resampler.NeverTooShort` | worker/vitts_worker/encode.py:58-68 | the slice behind the context always covers what is wanted, although both are rounded |
| `Resampler.StreamResampler.Process` | worker/vitts_worker/encode.py:53-72 | after every call the output is exactly the scaled length of all input, and the context is its last 64 samples or all of it |
| `Resampler.LengthByRates` | worker/vitts_worker/encode.py:30-37 | total length is the input's times the ratio of the rates, rounded down, for every chunking |

## Left out

- Jobs: one job and its rows are modelled, because every statement filters by job id; entries with a malformed sequence number and the branch for a job that does not exist are not.
- Jobs: a store or stream call that reports an error ends the handler and acknowledges its entry, with or without having taken effect; which error it was is not modelled.
- Jobs: recovery of a segment left running is not claimed, since nothing resets one; exactly-once announcements and three attempts per segment under concurrency do not hold and are not claimed.
- JobDrain.Orchestrator.RunJob: handles the job entry to its end before the first segment entry, with no crash and no store error; the two consumers side by side are JobLanes.EndsAsForetold. The backoff's duration is not modelled.
- Submission.ConflictExactlyOnOtherBody: the body fingerprint is an opaque string, so two bodies with one fingerprint count as the same body.
- Submission: request validation, the webhook check and metadata filtering are not modelled.
- Dispatch: addresses are distinct, and a reading has between zero and all slots busy. What a probe reads is any such value; how it comes about, the circuit breaker and voice advertisement are not modelled. Two goroutines releasing one reservation at the same time are not modelled.
- DispatchRuns.ReadsAreSafe: says nothing of a caller that was inside the lock when the probe landed; its reads may overstate the fleet.
- DispatchRuns.AdmittedIsGranted: says nothing of such a caller either; it may find no worker, or take a slot of a full one (DispatchRuns.ProbeCanOvertake).
- Dispatch: no bound on the queue depth is claimed, because the depth is checked only when no slot is free and the lock is dropped before queueing.
- Admission.Dispatcher.Reserve: overflow of 64-bit durations is not modelled.
- Streaming: lease renewal, metrics and timing are not modelled; opening the worker stream is one answer.
- Billing: 14.5 characters per second and the five percent grace are exact, where the code rounds through 64-bit floating point.
- Streaming.Delivery.StreamFromCache: a cancelled replay bills the whole text, as the code does.
- Quota: one month; the reconciling overwrite, the degraded mode without a counter and the daily rollup are not modelled.
- WebSocketSession: the idle timeout and the socket's end are one closing step; audio written to the socket is not modelled.
- CacheKey: text is a sequence of code points; the hash itself is not modelled.
- CacheProtocol: a body is read as of the moment the object is opened.
- Resampler.StreamResampler.Process: the polyphase filter is any function whose answer has the rounded-up scaled length; sample values are not claimed. A source rate of zero is excluded.
- Token buckets, leases, SHA-256, HMAC, codecs, gRPC, Redis, S3 and Postgres clients, the HTTP layer, the console and the SDKs are not part of this model.
