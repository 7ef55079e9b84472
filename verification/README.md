# MPiper: a verified model of the job pipeline

MPiper takes an uploaded media file, stores a job for it in Postgres, announces the job on a Redis
stream, and lets workers turn the file into variants.  This project models the four places where its
correctness is subtle and proves what the system is built to guarantee.

1. **The job protocol** (`postgres.dfy`, `streams.dfy`, `protocol.dfy`).  Job rows, asset rows, the
   stream with its consumer group, any number of workers with their program counters, API requests in
   flight and one clock.  A step is one Postgres transaction, one Redis command or one local decision,
   so every interleaving, every crash and every duplicate delivery is a run.  A failing attempt reads
   `attempts` and writes its verdict in two separate steps, because that read takes no row lock; no
   atomicity is assumed that the code does not have.
   - `invariants.dfy`: what every step keeps.
   - `runs.dfy`: accounting of claims, verdicts, messages and acknowledgements over whole runs.
   - `stability.dfy`, `twoworkers.dfy`: when 'done' is final, and the run that shows when it is not.
   - `recovery.dfy`: the deadline of the time-gated sweep.
   - `sequential.dfy`, `consumer.dfy`: `Consumer` as a class, proved equal to functions, each call of
     which is proved to be a run of the protocol.
   - `effects.dfy`: what single operations do, in the tables' and the stream's own values.
   - `convergence.dfy`: which jobs the recovery brings to an end, exactly, after how many rounds, and with
     which verdict for which outcomes; each round is proved to be a run of the protocol.
   - `lostmessage.dfy`: the job that recovery never reaches.
   - `endtoend.dfy`: what a 'done' job says about the variants of its asset, in a system in which the
     protocol and the cache run together and share the pipelines' 'ready' writes.
   - `publish.dfy`: the producer, again proved to be a run of the protocol.
2. **The content-addressed variant cache** (`variants.dfy`).  Any number of workers that look up,
   upload, commit and link, with a crash possible after each step, and the processing functions as
   methods over a store they update in place.
3. **The evicting per-IP rate limiter** (`limiter.dfy`).  A table that forgets and one that never
   forgets run side by side over the same events, in exact arithmetic; the middleware's objects are
   proved to simulate the forgetting one.
4. **Retry and resume loops** (`transactions.dfy`, `migrations.dfy`, and the XADD retry in
   `publish.dfy`).

## Where a promise fails, and exactly when it holds

- *A done job stays done.*  Not with two workers: a claim refuses only 'done' jobs, so two workers can
  hold one job, and the slower one can overwrite the verdict.  `TwoWorkers.DoneIsNotAbsorbing` is a
  concrete run; `Stability.DoneOverwritableIff` says that the verdict can be overwritten if and only if
  some claim on the job has not finished processing.
- *A job and its asset agree.*  The same run breaks it.  `Stability.VerdictStepIff` says which step
  does: a holder of a claim writing the asset alone against a verdict that stands already.  With any
  number of workers, job and asset agree throughout a run if and only if no step of it does that
  (`Stability.VerdictsAgreeIff`); none does where no job is held twice at once, so with a single worker
  that may crash anywhere.
- *Every job is recovered.*  The API inserts jobs as 'processing', which the sweep does not select.
  `LostMessage.JobCanBeLost` is a run of four steps that loses a job: the API dies between its commit
  and its publish.  With any number of workers it stays untouched until someone appends a message for
  it (`LostMessage.LostStaysLost`).  `Convergence.Convergence` says that a job reaches 'done' or
  'failed' if and only if it was ever claimed or an undelivered message names it.
- *Forgetting idle clients is invisible.*  A request fetches its bucket under the mutex but uses it
  outside.  `Limiter.UnobservableIff` has the exact condition; with the constants of the code it holds
  if and only if no request takes more than 298 seconds between the two.
- *In any T seconds a client gets at most 20 + 10 T requests through.*  For the same reason not always:
  `Limiter.OverAdmits` drains a bucket late, lets the client be swept, and grants a second full burst
  within the window.  The bound holds under exactly the same condition
  (`Limiter.AdmissionBoundIff`, `Limiter.AdmissionPerSecond`).
- *The backoff never panics.*  `Backoff.SleepPanicsIff`: it does from the 38th wait on, if the platform
  converts an overflowing float to an int64 below 2.
- The insert in the worker's asset-message path never inserts: assets that pass its status check
  always have a job already (`Runs.BothPathsOneJob`).

## Where code and documentation disagree

The model follows the code.

- `worker/consumer/migrations.py:24` promises files sorted by version; line 25 sorts by file name.
- `worker/consumer/consumer.py:23` names a setting MAX_JOB_ATTEMPTS; line 244 reads redis.max_retries.
- `worker/consumer/consumer.py:183-184` leaves a failed message in the pending list for a later retry;
  nothing reads that list again.  The retry comes from the sweep over the jobs table.
- `worker/processing/processor.py:207-211` says that processing leaves a failed asset's status alone;
  `worker/processing/videos.py:376-382` writes 'failed'.  The protocol has this write as a step.
- `worker/processing/videos.py:60-61` says that different content can share a variant file; the hash
  covers the content, so only equal content does.
- `internal/repository/asset_repo.go:335` speaks of a base of 100-200 ms; the waits start from 100 ms,
  give or take a quarter.

## Assumptions

- Postgres: transactions are atomic, row locks and the unique index on (asset_id, type) work, a commit
  that reports an error has not committed, and committed rows survive.
- Redis: a read with ">" hands each entry to the group once, in order.
- API and workers share one clock, which never goes back; it reads at least 120 seconds at the start.
- SHA-256 is collision-free, so a hash is modelled as what was hashed.  Rendering is an arbitrary
  function of content and parameters.  The raw object of an asset does not change after upload.
- The token bucket is the documented one: full at first, one token every tenth of a second, at most 20.

## Model

| member | source | states |
|---|---|---|
| Postgres.MarkUploadedKeeps | internal/repository/asset_repo.go:193-239 | The API's guarded update and upsert keep the tables consistent; a job is made exactly when the asset was 'uploading', it is a new row for that asset, and no other row changes |
| Postgres.EnsureJobKeeps | worker/consumer/consumer.py:285-328 | In consistent tables the asset-message path changes nothing and, when it goes on, resolves to an existing job of that very asset |
| Postgres.ClaimKeeps | worker/consumer/consumer.py:196-222 | A claim keeps index, upload and claim agreement; no row is lost and attempts never fall |
| Streams.DeliverKeeps | worker/consumer/consumer.py:137-151 | A delivery takes an entry that was in nobody's pending list and keeps undelivered, dropped, pending and acked a partition of the log |
| Streams.CreateGroupKeeps | worker/consumer/consumer.py:95-102 | Creating the group keeps the partition of the log and lets it only grow; pending entries survive a restart |
| Streams.TrimKeeps | internal/queue/queue.go:129-139 | Trimming by length may drop undelivered entries but never a delivered one |
| Invariants.StepKeeps | worker/consumer/consumer.py:113-364 | Each step of a worker keeps tables, stream and messages in order, leaves what the worker knows true, takes nothing from others, and a new claim's ordinal exceeds all earlier ones of its job |
| Invariants.NextKeeps | worker/consumer/consumer.py:113-364 | Every step of every party, crashes and restarts included, keeps the whole invariant |
| Invariants.Reachable | worker/consumer/consumer.py:113-364 | In every reachable state: index and jobs agree, an asset is 'uploading' exactly while it has no job, unclaimed jobs are exactly the 'processing' ones, no entry is in two hands, and two claims of one job differ in their ordinal |
| Runs.RowStep | worker/consumer/consumer.py:217-273 | The only steps that change an existing job row are a claim of that job and the verdict of a claim on it; every other step of any party leaves it as it is |
| Runs.AttemptsAccounting | worker/consumer/consumer.py:217-222 | Over every run a job's attempts equal its committed claims, which are numbered 1, 2, 3 and so on and each used up a different message; they never exceed the deliveries naming the job, nor these the entries ever appended for it |
| Runs.RequeueBound | worker/consumer/consumer.py:233-258 | Over every run each claim gets at most one verdict, only a claim numbered below max_retries goes back to 'pending', and so a job goes back at most max_retries - 1 times |
| Runs.MessageConservation | worker/consumer/consumer.py:138-151 | In every reachable state each entry ever appended is exactly one of undelivered, dropped, in one worker's hand, left pending, or acked |
| Runs.AckSafety | worker/consumer/consumer.py:204-215 | Job messages of the API and the sweep always name a committed job with the same asset, so "job not found" cannot happen for them, and an acked one names a job committed 'done' earlier in the run |
| Runs.AckingMeansDone | worker/consumer/consumer.py:262-276 | A worker goes to acknowledge such a message only in a state in which its job is 'done' |
| Runs.CommitsAlong | internal/service/asset.go:260-282 | Over every run each commit of a job for an asset is accounted for exactly once: it started its Enqueue, is about to, or died before; there is at most one such commit |
| Runs.UploadJobAgreement | internal/service/asset.go:226-282 | In every reachable state an asset is 'uploading' exactly when it has no job and otherwise has exactly one, committed by exactly one request; the API has started at most one Enqueue for it, however often it was called, and exactly one unless that request is still before its Enqueue or died there |
| Runs.BothPathsOneJob | worker/consumer/consumer.py:301-331 | In every run the worker's insert path changes no row and resolves to the one job the API made for the asset |
| Stability.DoneIsFinal | worker/consumer/consumer.py:212-222 | A job that is 'done' with no claim in flight keeps its whole row for ever, whatever is delivered, crashed or restarted |
| Stability.DoneGainsNoClaim | worker/consumer/consumer.py:212-222 | While a job is 'done', no step of a run adds a claim or an attempt |
| Stability.DoneOverwritableIff | worker/consumer/consumer.py:230-273 | From a state in which a job is 'done', some continuation leaves it not 'done' if and only if some claim on it has not finished processing |
| Stability.VerdictStepIff | worker/processing/processor.py:162-169 | With any number of workers, a step ends the agreement of a job and its asset if and only if a holder of a claim on the job marks the asset 'processing' after either verdict, or writes 'failed' after 'done' or 'ready' after 'failed' |
| Stability.VerdictsAgreeIff | worker/consumer/consumer.py:244-273 | Over every run with any number of workers and crashes, a job and its asset agree in every state if and only if no step is such a write |
| Stability.VerdictsAgree | worker/consumer/consumer.py:244-273 | In every run in which no job is held twice at once, crashes anywhere included, a 'done' job has a 'ready' asset and a 'failed' job a 'failed' one, and a held job is 'in_progress' |
| Stability.SingleWorkerAgrees | worker/processing/processor.py:154-169 | With at most one worker alive, crashing and restarting anywhere, also between the processor's own 'ready' write and the job's commit, job and asset agree in every state |
| TwoWorkers.DoneIsNotAbsorbing | worker/consumer/consumer.py:212-273 | For every max_retries two workers and one message published twice reach a state in which a job is 'done', its asset is not 'ready', and the verdict can still be overwritten |
| Recovery.ClaimedJobIsRecoverable | worker/consumer/consumer.py:353-356 | In every reachable state a job was ever claimed if and only if it is 'done', 'failed' or in a status the sweep selects |
| Recovery.LastRecoveryOrigin | worker/consumer/consumer.py:333-342 | A live worker's time stamp is the one it had at the start of a window or the clock of a due consume call within it |
| Recovery.SweepsAreSpaced | worker/consumer/consumer.py:333-342 | Over every run two sweeps of one live worker are at least 120 seconds apart, however often it is called |
| Recovery.SweepAlong | worker/consumer/consumer.py:351-364 | Throughout a sweep that runs to its end, whatever others do meanwhile, a job that stays stale is still to be selected, on the sweep's list, or published afresh |
| Recovery.LateSweepPublishes | worker/consumer/consumer.py:344-364 | A due call later than 120 seconds after a job stopped moving appends a fresh entry for it within the duration of one sweep |
| Recovery.NoClaimedJobLost | worker/consumer/consumer.py:333-364 | If one live worker starts a consume call at least every d seconds and its due sweeps finish within e seconds, a job left alone since time t in a status the sweep selects has a new entry by t + 240 + d + e |
| LostMessage.UndeliveredIsUntouched | worker/consumer/consumer.py:351-364 | With any number of workers, crashes and sweeps, a job keeps the very row the API inserted, still 'processing', as long as no entry naming it was delivered |
| LostMessage.LostStaysLost | worker/consumer/consumer.py:353-356 | A job all of whose messages were dropped, or that never had one, is touched by no worker, sweep or restart until someone appends an entry naming it |
| LostMessage.JobCanBeLost | internal/service/asset.go:260-282 | For every max_retries a run of four steps reaches a live worker, an idle API and a committed job that was never claimed and that no message names |
| LostMessage.RoundsDoNotHelp | worker/consumer/consumer.py:344-364 | From there no number of recovery rounds, whatever processing comes to, moves that job |
| Sequential.ReadSpec | worker/consumer/consumer.py:137-186 | Reading and handling one message moves the cursor by exactly one and appends nothing, whatever processing comes to |
| Effects.UploadEffect | internal/repository/asset_repo.go:193-239 | The first call for an 'uploading' asset inserts one job row in the API's status with no attempts and marks the asset 'uploaded'; any other call changes nothing |
| Effects.EnsureEffect | worker/consumer/consumer.py:293-326 | An asset message is handled exactly for an asset that is 'uploaded' or 'processing', as its one job; no asset and any other status are skipped |
| Effects.ProcessEffect | worker/processing/processor.py:149-213 | A missing asset raises for good, a 'ready' one returns untouched; else the asset ends 'ready', 'failed' or 'processing' with the return, the video failure or the very exception of processing |
| Effects.JobEffect | worker/consumer/consumer.py:204-276 | A delivered job message writes nothing for a missing or 'done' job; else it counts one attempt and leaves the job 'done', 'pending' exactly for a retryable failure below max_retries, or 'failed', the asset to match, all other rows as they were, and the message acked exactly if 'done' |
| Effects.AckedIff | worker/consumer/consumer.py:173-184 | A handled message ends acked and out of the pending list if and only if it is malformed, its job or asset is missing, its asset is not to be processed, or its job is now 'done'; else the stream is untouched |
| Effects.SettleEffect | worker/consumer/consumer.py:239-258 | With any number of workers, a failed attempt sends its job back to 'pending', touching no asset, if and only if it is retryable and the attempts read are below max_retries; else job and asset are 'failed' |
| Effects.SelectEffect | worker/consumer/consumer.py:352-356 | With any number of workers, a sweep lists exactly the jobs 'pending' or 'in_progress' whose row was written more than 120 seconds ago, each once and with its asset; a job written since is left alone |
| Effects.SweepSpecEffect | worker/consumer/consumer.py:351-364 | A whole sweep appends exactly one entry for each such job and changes nothing else |
| Effects.GroupEffect | worker/consumer/consumer.py:95-102 | An existing group is left as it is, backlog included; a new one starts behind the present entries and drops exactly these |
| Effects.UndeliveredEffect | worker/consumer/consumer.py:95-151 | Once the group exists, an undelivered entry stays so, through crashes and restarts, until it is the first and a worker polls it into its hand, or a publish trims past it |
| Effects.LogEffect | internal/queue/queue.go:125-141 | Each step appends at most one entry: a publish the message of its request, a requeue the next one on the list, a foreign producer any |
| Effects.FailureEffect | worker/consumer/db.py:9-18 | A call can fail before it has a message, with one in hand, and during processing in either way, also after its own 'ready' write |
| Effects.AnytimeEffect | worker/consumer/consumer.py:67-111 | Crashes, restarts, foreign messages and the passing of time are possible in every state, and a crash loses nothing but the worker |
| Refinement.ConsumeIsARun | worker/consumer/consumer.py:113-364 | One undisturbed consume call in any state is a run of the protocol by that worker alone, ending idle in the world the sequential specification computes |
| Refinement.ClaimLeads | worker/consumer/consumer.py:224-276 | From a fresh claim, the sequential outcome (asset missing, already 'ready', processed, failed) is reached by the protocol's own steps |
| Refinement.SweepLeads | worker/consumer/consumer.py:358-364 | The sweep's loop is a sequence of single appends of the protocol |
| Convergence.HandleEffect | worker/consumer/consumer.py:188-331 | Handling one message changes a job only if the message names it and it is not 'done'; then it has a new attempt and is 'done', 'failed', or 'pending' below max_retries |
| Convergence.DrainEffect | worker/consumer/consumer.py:113-186 | Draining the stream moves every job an undelivered entry is sure to claim, and leaves alone every job none of them names |
| Convergence.SweepEffect | worker/consumer/consumer.py:344-364 | A sweep changes no row, makes every stale job due, and makes no other job named |
| Convergence.RoundEffect | worker/consumer/consumer.py:344-364 | One round gives every pending, in-progress or due job a new attempt with a verdict and leaves every other unnamed job as it was |
| Convergence.Convergence | worker/consumer/consumer.py:188-364 | After max_retries rounds or more (one, if that is not positive), whatever the outcomes, a job is 'done' or 'failed' if and only if it was ever claimed or named by an undelivered message; its row then never changes again, and any other job keeps the row it had |
| Convergence.OutcomeDecides | worker/consumer/consumer.py:239-273 | Whatever happens to others, a job in reach and not settled is, after any number of rounds, 'done' if processing returns, 'failed' at once if it fails for good, and for retryable failures 'pending' while fewer than max_retries attempts were made and 'failed' from then on; every round in which it stays pending makes an attempt |
| Convergence.RoundIsConsumeCalls | worker/consumer/consumer.py:113-186 | A round is a row of consume calls of one worker, any number large enough to empty the stream |
| Convergence.RoundIsARun | worker/consumer/consumer.py:113-186 | From any state with an idle worker a round is a run of the protocol: the clock ticks once, then that worker alone makes its consume calls and ends idle with its time stamp moved |
| Convergence.RoundsAreRuns | worker/consumer/consumer.py:113-364 | Every world in any sequence of rounds is reached by a run of the protocol from the state the rounds start from, with nothing changed but the world and that worker's time stamp |
| Convergence.ReachableIsReady | worker/consumer/consumer.py:95-102 | The guarantee applies to every reachable state of the protocol with a consumer group, so also after any crashes |
| ConsumerObject.Consumer.constructor | worker/consumer/consumer.py:67-111 | A new consumer is due for recovery at once; an existing group and its backlog are left as they are, and a new group starts behind the present entries |
| ConsumerObject.Consumer.ProcessAssetDispatch | worker/processing/processor.py:128-219 | A missing asset raises for good, a 'ready' one returns untouched, any other is marked 'processing' and ends 'ready' when processing returns, 'failed' when the video pipeline fails, and 'processing' on any other exception |
| ConsumerObject.Consumer.HandleJob | worker/consumer/consumer.py:188-276 | The tables and the stream after a call are exactly those of the sequential specification that the protocol is proved to reach |
| ConsumerObject.Consumer.HandleAssetMessage | worker/consumer/consumer.py:278-331 | Unknown and finished assets are acked and skipped, others are handled as the one job of the asset, as the specification says |
| ConsumerObject.Consumer.RecoverStuckPending | worker/consumer/consumer.py:344-364 | Appends exactly one job message for each job 'pending' or 'in_progress' for more than 120 seconds, in the order of the query, and touches nothing else |
| ConsumerObject.Consumer.MaybeRecover | worker/consumer/consumer.py:333-342 | Sweeps and moves the time stamp to now exactly when 120 seconds have passed since the last recovery; else it changes nothing |
| ConsumerObject.Consumer.Consume | worker/consumer/consumer.py:113-186 | World and time stamp after a call are those of the specification, and the result tells whether there was a message after the sweep |
| Publishing.RedisQueue.constructor | internal/queue/queue.go:48-72 | The queue keeps the given options with exactly those out of range replaced by their defaults |
| Publishing.Normalised | internal/queue/queue.go:49-72 | Whatever was given, the normalised options are all in range |
| Publishing.DefaultsAre | internal/queue/queue.go:49-72 | Each option out of range, and no other, is replaced by its documented default |
| Publishing.NormalisedKeepsIff | internal/queue/queue.go:49-72 | Options are kept as they are if and only if all are in range, a retry count of zero included |
| Publishing.RedisQueue.DoXAddWithRetry | internal/queue/queue.go:172-224 | The calls made are all those up to the first success, cancelled context or the retry limit, all before the last having failed; the stream gains one copy per call that wrote; nil is returned exactly on success, and an exhausted publish reports the last failure |
| Publishing.CallsUnique | internal/queue/queue.go:184-219 | The number of XADD calls of a publish is determined by the replies: no call follows a final one and none is skipped |
| Publishing.CopiesCount | internal/queue/queue.go:184-219 | The copies left are as many as the calls that wrote, those that reported an error included |
| Publishing.PublishBounds | internal/queue/queue.go:184-224 | A success leaves between 1 and R + 1 copies, no call follows a success, and exhaustion means R + 1 calls and waits of R(R + 1)/2 retry intervals |
| Publishing.WaitsAddUp | internal/queue/queue.go:214-218 | The growing waits before the calls 1 to n total n(n + 1)/2 retry intervals |
| Publishing.AssetService.MarkAssetUploaded | internal/service/asset.go:179-296 | The tables change only by the whole transaction; a message is published only after the commit, for the committed job; on a repeated call or any earlier failure nothing changes and nothing is published |
| ProducerRefinement.ServiceIsARun | internal/service/asset.go:226-282 | What the call leaves after a commit is what the protocol reaches with one fresh request: the commit, the start of its one Enqueue, then one publish step per copy written |
| Variants.PlansAreRoles | worker/processing/images.py:10-35 | Each role of a table belongs to one parameter set, so a link's role determines its variant |
| Variants.NextKeeps | worker/processing/images.py:81-171 | Every step of every worker, interleaved or cut off by a crash, keeps cache agreement; rows never change, and blobs, links and 'ready' marks are never removed |
| Variants.CacheAgreement | worker/processing/images.py:81-164 | In every reachable state each variant row is filed under the hash of its content and parameters, its blob exists and is their rendering, and each link points to an existing row of its role made from its asset's raw bytes |
| Variants.EqualBytesShare | worker/processing/images.py:38-43 | Assets with equal bytes link to the same variant for each role they share |
| Variants.ReadyIsComplete | worker/processing/images.py:166-171 | At the 'ready' write of a pipeline's work on an asset, and in every later state, every role of that very pipeline is linked to the hash of the asset's bytes, whatever other workers do |
| Variants.ImageIsComplete | worker/processing/images.py:10-35 | From an image's 'ready' write on, its thumbnail, display_small and display_large are linked to the hashes of its bytes with the sizes, crop, format and quality of the table |
| Variants.VideoIsComplete | worker/processing/videos.py:163-301 | From a video's 'ready' write on, its poster, transcoded form and preview are linked, in their tables, to the hashes of its bytes with the pipeline's parameters |
| Variants.CommitEffect | worker/processing/images.py:99-164 | To others an image's row and link appear in one step, a video's row before its link, and a row committed meanwhile is kept |
| Variants.QuitEffect | worker/processing/videos.py:369-382 | A worker may take up any asset and crash after any step, and a crash undoes nothing that was stored |
| Variants.ReadyWasWritten | worker/processing/images.py:166-171 | An asset is marked 'ready' only by such a write, made after the last item of the pipeline's plan |
| Variants.RowsArePaidFor | worker/processing/images.py:108-154 | In every run with crashes, rows plus uploads not yet committed never exceed uploads, so no row appears without an upload of its own |
| Variants.WorkSharing | worker/processing/images.py:99-154 | In a crash-free run of one worker, uploads equal rows whenever it rests: no variant is made twice, however many assets share content |
| VariantProcessing.VariantStore.EnsureVariantExists | worker/processing/videos.py:65-134 | An existing row is reused with no upload; otherwise the blob is uploaded and its row inserted |
| VariantProcessing.VariantStore.LinkVariantToAsset | worker/processing/videos.py:150-160 | Exactly the link of this asset and role is set, replacing an older one |
| VariantProcessing.VariantStore.ProcessImageFile | worker/processing/images.py:57-173 | Exactly the links of thumbnail, display_small and display_large change, to the hashes of the content; each of the three is stored, new ones under the image pipeline's key with their rendering, no other row is added, and the asset is marked 'ready' |
| VariantProcessing.VariantStore.ProcessVideoFile | worker/processing/videos.py:335-393 | Exactly the links of poster, transcoded and preview change, in their tables, to the hashes of the content; each is stored, new ones under the shared key with their rendering, no other row is added, and the asset is marked 'ready' |
| VariantProcessing.ImageFileEffect | worker/processing/images.py:81-171 | From any store, uninterrupted image processing changes exactly its three links and marks the asset, and stores exactly its three variants |
| VariantProcessing.VideoFileEffect | worker/processing/videos.py:369-393 | From any store, uninterrupted video processing changes exactly its three links, one of them among the images, and stores exactly its three variants |
| VariantProcessing.FileIsARun | worker/processing/images.py:81-171 | Processing a file in one go, by either pipeline and from any store, is a run of the interleaved system by one worker without a crash |
| VariantProcessing.SecondTimeIsFree | worker/processing/videos.py:68-77 | Processing an asset again, or another asset with the same bytes, uploads no blob and inserts no row |
| EndToEnd.DoneWasProcessed | worker/processing/processor.py:154-157 | With any number of workers and crashes, the asset of a 'done' job was written 'ready' by a pipeline earlier in the run, also when the worker that committed 'done' only found it 'ready' |
| Whole.StepKeepsWhole | worker/processing/images.py:166-171 | Every step of the protocol and the cache run together, in any interleaving and with crashes, keeps this: an asset that is 'ready', held by a worker past its 'ready' write, or named by a 'done' job has all roles of some pipeline linked |
| Whole.DoneIsServed | worker/processing/images.py:166-171 | In every reachable state of the whole system, if a job is 'done' or an asset 'ready', then now, for every role of some pipeline, the link exists, its row was made from the asset's bytes, and the blob at the row's key is their rendering |
| Limiter.UnitsOfRate | internal/router/router.go:59 | The bucket counted in refill intervals is the bucket in seconds at the given rate |
| Limiter.StepMatches | internal/router/router.go:41-64 | One event keeps the forgetting and the remembering table in step: same requests in flight, the same tokens for every client, the same decision |
| Limiter.EvictionHidden | internal/router/router.go:41-64 | Over all timely events with any sweeps, both tables decide alike, if the idle limit less the longest request covers a full refill |
| Limiter.EvictionShows | internal/router/router.go:41-64 | If it does not, for requests no longer than the idle limit, there are timely events on which the tables decide differently, the ones on which only the forgetting table exceeds the admission bound |
| Limiter.UnobservableIff | internal/router/router.go:41-72 | For any burst of at least one, any idle limit and any request length, forgetting is unobservable over all timely events if and only if limit less request length is at least the burst, in refill intervals |
| Limiter.CodeLimitsSuffice | internal/router/router.go:46-59 | With 10 per second, a burst of 20 and five minutes, it is unobservable if and only if no request takes more than 298 seconds from fetch to take |
| Limiter.TokensPay | internal/router/router.go:54-72 | In the table that never forgets, admitted requests plus tokens left never exceed the burst plus the time since the window began |
| Limiter.RememberingBound | internal/router/router.go:54-72 | The table that never forgets lets a client through at most burst plus elapsed refill intervals in any window, however long requests take |
| Limiter.AdmissionBound | internal/router/router.go:41-72 | If the idle limit less the longest request covers a full refill, the forgetting table keeps that bound in any window, evictions included |
| Limiter.OverAdmits | internal/router/router.go:41-72 | If it does not, for requests no longer than the idle limit, some client exceeds it: it drains its bucket late, idles past the limit, is swept and gets a second full burst within the window |
| Limiter.AdmissionBoundIff | internal/router/router.go:41-72 | For any burst of at least one, any idle limit and any request length, the bound holds for all timely events, clients and windows if and only if limit less request length is at least the burst |
| Limiter.AdmissionPerSecond | internal/router/router.go:30-72 | With the values of the code, one client gets at most 20 + 10 T requests through in every window of T seconds if and only if no request takes more than 298 seconds from fetch to take |
| LimiterObject.TokenBucket.Allow | internal/router/router.go:72 | The bucket in seconds takes a token exactly when the specified one does, and becomes the specified one |
| LimiterObject.PresignRateLimiter.GetLimiter | internal/router/router.go:54-64 | A known client gets its own bucket, an unknown one a fresh full one, the client was seen now, and the table in memory still simulates the model's |
| LimiterObject.PresignRateLimiter.Admit | internal/router/router.go:72-77 | The later take on a fetched bucket decides as the model does, even if a sweep has dropped the client in between |
| LimiterObject.PresignRateLimiter.Evict | internal/router/router.go:44-50 | Right after a sweep the table holds exactly the clients seen within five minutes, untouched |
| LimiterObject.PresignRateLimiter.Tick | internal/router/router.go:42-52 | A tick of the evicting goroutine is a sweep of the model; buckets still held by requests are not lost |
| Backoff.BackoffInRange | internal/repository/asset_repo.go:336-344 | Up to the 37th wait the conversion to an integer stays in range and the backoff is min(100 ms times 2 to the attempt less one, 5 s) |
| Backoff.FloatIsExact | internal/repository/asset_repo.go:341 | The base, the power of two and their product are all numbers that a 64-bit float holds exactly, so the product is not rounded |
| Backoff.SleepPanicsIff | internal/repository/asset_repo.go:341-347 | The draw of the jitter panics if and only if it is the 38th wait or later and the overflowing conversion gives less than 2 |
| Backoff.SleepBounds | internal/repository/asset_repo.go:346-351 | Each wait lies in [3/4 b, 5/4 b) for every draw, so the branch for negative sleeps is dead |
| Backoff.DrawCounts | internal/repository/asset_repo.go:346-351 | Each wait is three quarters of the bound plus the draw, which ranges over half the bound, so different draws give different waits |
| Backoff.TotalBound | internal/repository/asset_repo.go:334-351 | n waits total at least 3/4 and less than 5/4 of S(n), which is 100 ms times (2^n - 1) up to six waits and 5 s more for each one beyond |
| Transactions.StringContains | internal/repository/asset_repo.go:395 | The search finds the marker if and only if it occurs somewhere in the message |
| Transactions.ShouldRetry | internal/repository/asset_repo.go:362-400 | An error is retried if and only if it is no cancelled or expired context and its lower-cased message contains a transient marker |
| Transactions.RetryableIff | internal/repository/asset_repo.go:367-399 | An error counts as transient if and only if its context neither ended nor expired and some marker stands at some position of the lower-cased message |
| Transactions.AnyCasing | internal/repository/asset_repo.go:376-398 | A marker in any mix of upper and lower case, anywhere in the message, is recognised |
| Transactions.EndEffect | internal/repository/asset_repo.go:251-325 | An attempt ends with the first thing that goes wrong, in the order context, begin, fn and commit; a failing rollback is reported with its cause, and a panic of fn is an error |
| Transactions.MayRetryIff | internal/repository/asset_repo.go:259-318 | What decides on another attempt is the error of begin, fn or commit itself, and none follows once the context ended |
| Transactions.Once | internal/repository/asset_repo.go:266-325 | One attempt commits fn applied once or leaves the database as it was, whatever fn wrote before failing, ends as the faults say, and leaves neither an open transaction nor an armed rollback |
| Transactions.Attempts | internal/repository/asset_repo.go:249-332 | The loop never falls through; every attempt before the last failed with a retryable error, over the whole call at most one transaction was ever open at once, none is at the end, and every deferred rollback is already disarmed |
| Transactions.ExecTransaction | internal/repository/asset_repo.go:241-332 | Once or not at all: success means exactly one commit and fn applied once, anything else an unchanged database; the result is that of the last attempt as the faults determine it, fn starts exactly in the attempts whose transaction began, at most max(1, maxAttempts) of them, at most one transaction is ever open at once, and none stays open, a panic of fn or of the backoff included |
| Transactions.LastExists | internal/repository/asset_repo.go:249-264 | Whatever goes wrong, some attempt within the limit is the last: the one that succeeds, fails for good, uses up the limit, or whose sleep panics |
| Transactions.LastIsUnique | internal/repository/asset_repo.go:249-264 | No other attempt is, so the faults alone determine how a call ends |
| Transactions.SucceedsIff | internal/repository/asset_repo.go:299-325 | The call succeeds if and only if some attempt within the limit succeeds on its own and all before it failed with a retryable error and slept |
| Migrations.MigrationFiles | worker/consumer/migrations.py:23-31 | The loop returns the numbered files of the listing, in its order |
| Migrations.NumberedComplete | worker/consumer/migrations.py:27-30 | For any set of digit characters: no file whose name starts with digits is left out, and its version is all its leading digits |
| Migrations.BeforeIff | worker/consumer/migrations.py:25 | One name comes before another if and only if it is a proper prefix of it or has the smaller character at the first difference |
| Migrations.NumberedInOrder | worker/consumer/migrations.py:25-31 | From a sorted listing the files come in strict file-name order |
| Migrations.Connection.RunMigrations | worker/consumer/migrations.py:53-67 | A run cut off after any number of files leaves schema and tracking table as specified, with the failing file rolled back and the rest not started |
| Migrations.FileEffect | worker/consumer/migrations.py:53-67 | A recorded version is skipped; an unrecorded one leaves exactly what its SQL makes of the schema and is recorded with it, or, if its SQL fails, changes nothing and ends the run |
| Migrations.FailsIff | worker/consumer/migrations.py:53-67 | A run fails if and only if it comes to an unrecorded file whose SQL fails on the schema left by the files before it |
| Migrations.SchemaIsFold | worker/consumer/migrations.py:61-67 | The schema after a run, complete or cut off, is what the SQL of exactly the committed files makes of the schema before, one after another |
| Migrations.SchemaIsFoldOfCuts | worker/consumer/migrations.py:51-67 | The schema after any sequence of cut-off runs is what the SQL of all files they committed, in order, makes of the schema before |
| Migrations.ResumeFrom | worker/consumer/migrations.py:53-67 | Running on after a cut gives what one uninterrupted run gives, failing files included |
| Migrations.CrashResumable | worker/consumer/migrations.py:51-67 | Any finite sequence of cut-off runs followed by a complete one gives the same schema, applied versions and verdict as one uninterrupted run |
| Migrations.FurtherRunIsIdle | worker/consumer/migrations.py:54-59 | A further run after a complete one changes nothing and ends the same way |
| Migrations.RunApplies | worker/consumer/migrations.py:53-67 | A run commits files in file-name order, each version once and none recorded before, and the tracking table gains exactly these versions |
| Migrations.AppliedOnce | worker/consumer/migrations.py:54-67 | Over any sequence of cut-off runs every version is applied at most once and all that was applied is recorded |
| Migrations.CommittedIff | worker/consumer/migrations.py:54-67 | In a run without failures a file's SQL is committed if and only if its version was not recorded and no earlier file has the same version |

## Left out

- Convergence.Convergence: rounds run without crashes and with one worker, and no time passes while the stream is drained.
- ConsumerObject.Consumer.Consume: a call runs at one moment of the clock; the protocol itself lets time pass between any two steps.
- Publishing.RedisQueue.DoXAddWithRetry: does not trim the stream; trimming by length is part of the protocol's publish step, where any prefix may go. The caller's context deadline is the reply that ends the loop.
- Publishing.AssetService.MarkAssetUploaded: takes the points of failure as a parameter and runs undisturbed; concurrent calls are the protocol's.
- Recovery.NoClaimedJobLost: the duration e of a sweep is a parameter, because the code has no bound on it; with instant sweeps the deadline is t + 240 + d.
- Variants.WorkSharing: counts uploads of one worker; two workers may both upload the same blob, which RowsArePaidFor allows for.
- Limiter.AdmissionBoundIff: a burst of zero is not covered; exact arithmetic as below.
- Limiter.UnobservableIff: a burst of zero, which admits nobody, is not covered. Exact arithmetic; the float rounding of the token bucket library is not modelled.
- Migrations.MigrationFiles: which characters are digits is a parameter, because the pattern's digits are those of all scripts.
- Migrations.RunApplies: file-name order only; numeric order of versions is not promised by the code.
- Asset-level deduplication, cloning and quick_dedupe_variants: no statement stores assets.content_hash, so the lookup finds nothing; 'retryable' remains a possible outcome of processing, and the status 'duplicate' does not arise.
- Rendering, ffmpeg, Pillow and image sizes: an arbitrary function of content and parameters stands for them; the resampling and encoder names, equal for all images, are not parameters.
- The text of hashes: compute_variant_hash is a digest of its inputs, and their concatenation and JSON encoding are taken to be unambiguous.
- Whole.DoneIsServed: a pipeline's own 'ready' write is one step of protocol and cache, as it is one commit; which claim started which pipeline is otherwise left open, so more interleavings are covered than occur, and an asset's type does not choose the pipeline.
- Sequential.ReadSpec: a sequential call does not raise before the asset is marked 'processing' or after it is marked 'ready'; the protocol's steps may raise there.
- Producers of messages outside the repository: any message may appear in the stream at any time.
- A worker's unreadable or empty messages: kept as two kinds of payload, without their JSON; an id of zero does not occur.
- error_reason, last_error, sizes, MIME types and other columns that no decision reads.
- Clocks that differ or go back, and the duration of the 5 s blocking read.
- The Go server's own migration runner, and run_migrations' directory check and creation of the tracking table.
- Storage clients, presigned URLs, HTTP handlers, tokens, metrics, tracing and configuration: plumbing around the modelled logic.
