# Event enrichment and webhook delivery: a verified model

The system takes events from a queue, stores each once, enriches it with a language model, and delivers it to every
subscriber by signed webhook. This project models the two state machines that live in its database, everything that
writes to them, and two smaller cores beside them. It proves what holds over whole runs: with any number of worker
processes, consumers and reconcilers, with crashes between any two steps, with stale snapshots and late writes.

Check the whole project with `dafny verify dfyconfig.toml`.

## How it is built

**Two machines.** `Delivery` is the `delivery_attempts` table with its workers, stale resets and manual retries.
`Ingest` is the broker queue, the message handlers, the `idempotency_keys` table and the reconcilers. An event is one
statement that takes effect, one reading of the clock, one broker exchange, one provider call or one POST. Events of
different processes interleave freely, and a process can die between any two. Workers keep the snapshot their claim
took and write outcomes back without looking at the row again; reconcilers write counts computed from the rows they
loaded. History fields count POSTs, claims, resets, retries, provider calls and publish calls; no guard reads them.
`DeliveryHistory` and `IngestHistory` tie them, and the base definitions the theorems are stated with, to the events of
a run and to the stored columns.
`Pipeline` runs both machines together: a committed insert makes the delivery rows, and a claim loads the payload the
key row holds at that moment. `Subscribers` is a third, smaller machine: the subscriber endpoints of one API process,
with a request giving way to others at each of its awaits. Its effect on the subscriber registry is a sequence of the
registry writes that the other two allow.

**Reconcilers.** `ReconcilerDrain` works with rounds: a cycle whose publishes all succeed, with any events of handlers,
publishers and the broker inside it, and before it anything at all, failing cycles included, as long as reconcilers take
turns. `ReconcilerCounts` says what changes when they do not.

**Two tiers for delivery.** `DeliverySafety`, `DeliveryRecovery` and `SoftDelete` hold in every interleaving,
late writers included. `DeliveryOwnership` and `DeliveryDrain` hold when batches are on time: a claim commits within
`overhead` of the clock reading it uses, each attempt takes at most `perAttempt`, and
`overhead + batchSize * perAttempt` fits in the stale window; and when no manual retry writes over a row in flight or
delivered. Both conditions are exact: `DeliveryOverrun` gives, whenever the window is too short, a schedule on which
every batch is on time and a delivered row is POSTed again, and `DeliveryOwnership.RetryKeepsPromisesIff` does the same
for the retry. With the defaults (50 rows, 10 minutes) that leaves 12 s for each attempt if the
claim takes no time; httpx's 10 s timeout is per phase, so the bound is an assumption about the network, not a fact
about the client.

**The code.** Where the source changes things step by step, so does the model: `DeliveryWorker.Database`,
`Consumer.Store` and `SubscriberEndpoints.Endpoints` are classes whose methods follow the source's functions, loop for loop.
`trace` records every event since the start, and `Await` stands for a point at which the code waits: callers know only
that any events of everything else may have happened. So each method is a piece of a run of the machine, and what is
proved of runs holds of the code.

## Where the code and its documentation differ

The model follows the code.

- `README.md:180` says that the reconciler retries enrichment, and `README.md:124` that it recovers from crashes after
  the acknowledgement. A re-enqueued body carries an id that already has a row, so `handle_message` takes the
  duplicate branch. `IngestTheorems.EnrichmentStillPossibleIff` says exactly when a message can still be enriched:
  while the handler that inserted it is alive and has not failed.
- `README.md:127` says that a subscriber deleted after the batch was claimed is never delivered to. A worker between its
  re-fetch and its POST still delivers: `SoftDelete.PostAfterDeletionIff` is the exact condition, and
  `SoftDelete.PostsAfterDeletion` the bound.
- `app/api/README.md:10` says that a repeated PATCH within 60 s makes no write. That holds once the first has stored its
  answer (`SubscriberTheorems.RepeatedPatchIsAnsweredOnce`); `SubscriberTheorems.BothAppliedIff` says exactly when two
  are both applied, and a stored answer is given even after the subscriber is deleted
  (`SubscriberTheorems.DeletedAnswers`).
- A deleted subscriber's row is not out of reach of a PATCH: one that had read it before the deletion still writes it
  (`SubscriberTheorems.DeletedRowIsWrittenIff`), though it does not undo the deletion.
- `dispatched` is listed as a status of `idempotency_keys` and is never written.

## Model

| member | source | states |
|---|---|---|
| DeliverySafety.NeverGivenUpEarlyNorMarkedFalsely | app/delivery/worker.py:101-174 | in every interleaving, with resets of live workers, late writes and retries split into read and write: the stored count never exceeds the POSTs nor max_attempts + retries, and an open row is one below that; delivered means a 2xx came back; dead means the subscriber was seen unavailable or max_attempts POSTs were made |
| DeliveryHistory.HistoryIsTheTally | app/delivery/worker.py:85-174 | the counts these statements use are those of the run's events: POSTs, claims, stale resets, retries, outcomes and deaths of the row, whether a status from 200 to 299 came back, whether a re-fetch found no subscriber that is active and not deleted |
| DeliveryHistory.PostsAreCounted | app/delivery/worker.py:123-123 | every POST of a run is recorded as sent and counted for its subscriber |
| DeliveryHistory.AnswersAreRecorded | app/delivery/sender.py:66-90 | whatever others do before the worker's next step, it is a crash or stores the answer: delivered for every status from 200 to 299 and for nothing else, otherwise dead at the limit, otherwise failed and due again after the delay |
| DeliveryHistory.BackoffDoubles | app/delivery/worker.py:29-33 | the cap of the delay starts at the base, doubles with each attempt, and stays at the maximum |
| DeliveryHistory.DefaultBackoff | app/config.py:23-27 | with the defaults: ten attempts, 2 s, 256 s and 300 s before the second, ninth and tenth |
| DeliverySafety.SafeStep | app/delivery/worker.py:36-174 | the invariant behind it, which ties every row, worker snapshot and lock together, is kept by every event |
| DeliverySafety.SafeRun | app/delivery/worker.py:188-201 | and so by every run |
| DeliverySafety.ClaimsAreDisjoint | app/delivery/worker.py:63-91 | two claims in progress, from their SELECT on, share no row, take at most the limit and hold only waiting and due rows; a commit changes no row outside its own list |
| DeliverySafety.LockProtects | app/delivery/worker.py:71-91 | no column of a row locked by SELECT ... SKIP LOCKED is changed by another worker until its own claim commits |
| DeliverySafety.OnlyItsBatch | app/delivery/worker.py:85-90 | a worker's writes touch only the rows of its batch |
| DeliveryOwnership.ExclusiveOwnership | app/delivery/worker.py:58-98 | on time: a row in a live batch is in flight with the count the worker remembers, and is in one batch only |
| DeliveryOwnership.StaleResetHitsOnlyOrphans | app/delivery/worker.py:36-54 | on time: what the stale reset finds has no live owner |
| DeliveryOwnership.DeliveredIsFinal | app/delivery/worker.py:129-174 | on time: a delivered row keeps every column and is never POSTed again |
| DeliveryOwnership.ClaimsAreConserved | app/delivery/worker.py:65-174 | on time: claims = recorded outcomes + inactive deaths + resets + the one in flight, recorded outcomes = attempt_count, so POSTs exceed the count by at most resets plus one |
| DeliveryOwnership.OwnedRun | app/delivery/worker.py:58-98 | the ownership invariant and the claim ledger are kept along every on-time run |
| DeliveryOwnership.RetryKeepsPromisesIff | app/api/deliveries.py:54-69 | with the read and the write of a retry taken apart, the write keeps the ledger and leaves a delivered row alone if and only if it finds the row neither in flight nor delivered; on a row in a live batch it takes the row from its owner |
| DeliveryOverrun.DeliveredIsFinalIff | app/delivery/worker.py:58-98 | delivered is final on every on-time schedule if and only if overhead + batchSize * perAttempt fits in the stale window |
| DeliveryOverrun.OverrunReposts | app/delivery/worker.py:36-98 | whenever it does not fit, an explicit on-time schedule ends in a second POST of a delivered row |
| DeliveryOverrun.DefaultSchedule | app/config.py:25-25 | with the defaults that is overhead + 50 attempts <= 10 minutes: 12 s an attempt fits, 12.001 s does not |
| DeliveryDrain.SettledAttemptsAreBounded | app/delivery/worker.py:127-151 | without retries, over N rows at most N * max_attempts attempts are settled, whatever the resets, and every open row has an attempt left |
| DeliveryDrain.BatchesLowerTheWorkLeft | app/delivery/worker.py:58-98 | the attempts left over open rows drop by at least the sizes of the batches a worker completes |
| DeliveryRecovery.NoRowStaysStuck | app/delivery/worker.py:177-185 | in every interleaving, with claims that commit within any given time: an in-flight row is at most the reset period older than the stale window, or than that time if it is longer, and a waiting row is due within the backoff cap |
| DeliveryHistory.LastResetIsTheNewest | app/delivery/worker.py:36-55 | the reset time that bound is counted from is the newest clock reading of a reset in the run, or the start |
| SoftDelete.PostsAfterDeletion | app/delivery/worker.py:104-123 | a deletion is not undone, and at most one more POST begins per worker already past its re-fetch |
| SoftDelete.PostAfterDeletionIff | app/delivery/worker.py:104-123 | such a POST is possible if and only if some worker is past its re-fetch |
| SoftDelete.PostsWhileOff | app/delivery/worker.py:104-123 | while a subscriber is inactive, deleted or missing, at most one POST to it begins per worker already past its re-fetch |
| SoftDelete.PostWhileOffIff | app/delivery/worker.py:104-123 | such a POST is possible if and only if some worker is past its re-fetch |
| SoftDelete.ClaimWhileOffEndsDead | app/delivery/worker.py:104-118 | as long as the subscriber stays so, a worker that comes to its row stays at it without a POST until it marks it dead or crashes, and marking it dead leaves count and POSTs as they are then |
| SoftDelete.RowIsFrozenWhileOff | app/delivery/worker.py:104-118 | meanwhile the row's count, POSTs and response stay and it does not become delivered |
| SoftDelete.ClaimEndsDead | app/delivery/worker.py:104-118 | for a deleted subscriber that holds in every run |
| SoftDelete.RowOfDeletedSubscriberIsFrozen | app/delivery/worker.py:104-118 | its count, POSTs and response then stay for ever and it never becomes delivered, whatever retries follow |
| DeliveryWorker.Database.SelectForUpdate | app/delivery/worker.py:65-79 | distinct, waiting, due and unlocked rows up to the limit; fewer only when there are no more |
| DeliveryWorker.Database.LockBatch | app/delivery/worker.py:65-85 | locks exactly the selected rows and remembers their counts; with none the batch is over |
| DeliveryWorker.Database.CommitBatch | app/delivery/worker.py:85-91 | the locked rows go in flight with the batch's time, every other row stays as it is, and exactly this worker's locks are released |
| DeliveryWorker.Database.WriteReset | app/delivery/worker.py:42-54 | exactly the rows in flight since before the cutoff fail, with the reset's error and due at once; every other row stays as it is |
| DeliveryWorker.Database.ResetStaleInFlight | app/delivery/worker.py:36-55 | afterwards no in-flight row is older than the window before the clock reading |
| DeliveryWorker.Database.RefetchSubscriber | app/delivery/worker.py:104-110 | available if and only if the subscriber is there, active and not deleted at that moment |
| DeliveryWorker.Database.WriteDead | app/delivery/worker.py:111-117 | status and error of the one row, no other column and no other row |
| DeliveryWorker.Database.DeliverAttempt | app/delivery/worker.py:101-174 | either re-fetch and mark dead with no POST, or re-fetch, one POST and the outcome stored under the remembered count plus one, over whatever the row has become |
| DeliveryWorker.Database.Decide | app/delivery/worker.py:126-158 | delivered if and only if the status is from 200 to 299, dead if and only if not and the limit is reached, otherwise failed and due exactly the delay later; count, code and error text column by column |
| DeliveryWorker.Database.RecordOutcome | app/delivery/worker.py:160-174 | the decision is stored over whatever the row has become |
| DeliveryWorker.Database.BackoffSeconds | app/delivery/worker.py:29-33 | the delay is at most the base delay times the power and at most the maximum |
| DeliveryWorker.Database.DeliverBatch | app/delivery/worker.py:93-98 | as many attempts as claimed rows, one after the other, each at most one POST; their number is returned |
| DeliveryWorker.Database.ProcessBatch | app/delivery/worker.py:58-98 | the whole batch as the exact list of this worker's steps, whatever others do in between |
| DeliveryWorker.Database.WriteRetry | app/api/deliveries.py:65-69 | the row becomes pending and due with no error, its count and the other columns kept, no other row changes |
| DeliveryWorker.Database.RetryDelivery | app/api/deliveries.py:50-71 | 404 for a missing row and 409 for one neither dead nor failed change nothing; otherwise the row is written as pending and due, without being looked at again |
| IngestSafety.SafeStep | app/consumer/rabbitmq.py:106-265 | the invariant over rows, handlers, index locks, broker and reconciler snapshots is kept by every event |
| IngestSafety.SafeRun | app/consumer/rabbitmq.py:106-265 | and so by every run |
| IngestTheorems.IngestionIsInsertion | app/consumer/rabbitmq.py:47-93 | every event leaves what is ingested alone or inserts one new id with its attempts |
| IngestTheorems.ExactlyOnceIngestion | app/consumer/rabbitmq.py:131-147 | a committed id has one record, with exactly one attempt per subscriber active at its insert, the same for ever after |
| IngestHistory.AttemptsAreForTheActive | app/consumer/rabbitmq.py:74-93 | its attempts are for exactly the subscribers that were active and not deleted when the handler listed them |
| IngestHistory.HistoryIsTheTally | app/consumer/rabbitmq.py:96-261 | the provider calls, payload writes and publish calls counted for an id are those of the run's events |
| IngestTheorems.KnownIdChangesNothing | app/consumer/rabbitmq.py:132-138 | a handler with a known id changes no row and calls no provider |
| IngestTheorems.RequeuedIdsAreKnown | app/consumer/rabbitmq.py:235-251 | what reconcilers publish always carries a known id |
| IngestHistory.RequeuedBodiesAreOriginals | app/consumer/rabbitmq.py:235-251 | in any run, every body reconcilers have published is the id, kind and raw payload of the message as ingested |
| IngestHistory.PublishedAgain | app/consumer/rabbitmq.py:235-251 | a publish call that reaches the broker queues exactly that body, one that does not queues nothing |
| IngestHistory.YoungKeysAreUntouched | app/consumer/rabbitmq.py:204-218 | until a message is older than the stale age, no publish call is issued for it, its count is zero and it is not given up |
| IngestTheorems.RequeuedBodiesChangeNothing | app/consumer/rabbitmq.py:131-138 | so in any run, handling a re-enqueued body changes no row and calls no provider |
| IngestTheorems.EarlyAckIsDurable | app/consumer/rabbitmq.py:109-147 | an acknowledged body was unusable, or its key row and all its attempts are committed |
| IngestTheorems.NoBodyIsLost | app/consumer/rabbitmq.py:106-147 | each published body is queued, acknowledged or held by exactly one live handler |
| IngestTheorems.EnrichedAtMostOnce | app/consumer/rabbitmq.py:96-195 | at most three provider calls and one payload write per id; enriched means stored; the payload differs from the raw one in `_enrichment` only |
| IngestTheorems.OneHandlerPerId | app/consumer/rabbitmq.py:132-195 | at most one handler is past the insert gate of an id |
| IngestTheorems.StoredPayloadStays | app/consumer/rabbitmq.py:185-195 | a stored payload is never changed or cleared, even when a reconciler overwrites the status |
| IngestTheorems.EnrichmentStillPossibleIff | app/consumer/rabbitmq.py:131-195 | a message without a payload can still get one if and only if its inserting handler is alive and has not failed |
| IngestTheorems.ReconcilesAreBacked | app/consumer/rabbitmq.py:219-261 | with any number of reconcilers, time-outs and rolled-back cycles, the stored count is at most the publish calls issued and at most the cap |
| IngestTheorems.CountsAreMonotone | app/consumer/rabbitmq.py:253-261 | with one reconciler at a time a stored count never goes down |
| ReconcilerCounts.CountCanDropIff | app/consumer/rabbitmq.py:211-261 | with any number of reconcilers, between cycles, some run lowers a stored count if and only if the key is still received and two below the cap |
| ReconcilerCounts.TwoReconcilersCanLowerACount | app/consumer/rabbitmq.py:211-261 | the run that does it: a late commit writes the value of its old snapshot |
| ReconcilerCycle.UndisturbedCycleSettles | app/consumer/rabbitmq.py:208-261 | a cycle can always be left alone to its commit, which then gives each loaded row one more re-enqueue or gives it up at the cap |
| ReconcilerCycle.SucceedingCycleSettles | app/consumer/rabbitmq.py:208-261 | whatever handlers do meanwhile, the commit of a cycle whose publishes succeed settles exactly the loaded rows, as they are by then |
| ReconcilerDrain.OrphanRun | app/consumer/rabbitmq.py:131-195 | in every run a key that no handler is past the insert gate of stays so, is not received again, and keeps its age |
| ReconcilerDrain.CycleLowersPotential | app/consumer/rabbitmq.py:219-261 | in the machine, a cycle whose publishes succeed takes exactly min(limit, stuck keys) off the sum of (max + 1 - count) over stale keys without a handler, whichever rows the query returns, and nothing before it adds to the sum |
| ReconcilerDrain.RoundIsPossible | app/consumer/rabbitmq.py:208-261 | such a cycle can always be completed, for any rows the query may return |
| ReconcilerDrain.ReconcilerDrains | app/consumer/rabbitmq.py:208-261 | from any reached state those keys are gone after at most potential / limit + max + 1 such cycles, with any handler and broker events and any failing cycles in between, as long as reconcilers take turns and no other key goes stale |
| Consumer.Store.InsertIdempotencyKey | app/consumer/rabbitmq.py:40-71 | an insert staged for commit if the id has no row, the duplicate branch if it has one |
| Consumer.Store.ListActive | app/consumer/rabbitmq.py:76-82 | exactly the subscribers active and not deleted, each once |
| Consumer.Store.CreateDeliveryAttempts | app/consumer/rabbitmq.py:74-93 | exactly one attempt staged for each subscriber active and not deleted at that moment, counted |
| Consumer.Store.CommitInsertion | app/consumer/rabbitmq.py:132-144 | key row and attempts become visible together; the row is received, with kind and raw payload of the message, no payload, no error, count zero |
| Consumer.Store.EnrichWithRetry | app/consumer/rabbitmq.py:96-103 | one to three calls; only transient errors are tried again; the last answer is returned |
| Consumer.Store.WritePayload | app/consumer/rabbitmq.py:186-195 | payload and status of the one row, nothing else |
| Consumer.Store.WriteError | app/consumer/rabbitmq.py:174-181 | the error of the one row, nothing else |
| Consumer.Store.StoreAnswer | app/consumer/rabbitmq.py:149-195 | the raw payload with the provider's value under `_enrichment`, or the error, or nothing after transient errors |
| Consumer.Store.HandleMessage | app/consumer/rabbitmq.py:106-197 | the exact list of a handler's steps: commit, then acknowledgement, then provider calls; unusable bodies are discarded, and an event is skipped if and only if its id had a row when the insert was made |
| Consumer.Store.SelectStale | app/consumer/rabbitmq.py:204-218 | distinct rows received longer than the stale age before the clock reading, up to the limit; fewer only when there are no more |
| Consumer.Store.ReconcileRow | app/consumer/rabbitmq.py:219-259 | gives up at the cap, otherwise publishes; the pending changes depend on how the publish ended |
| Consumer.Store.CommitEdits | app/consumer/rabbitmq.py:261-261 | every pending change is stored over whatever the row holds by then, in the columns it names only; no other row changes |
| Consumer.Store.DealWithRows | app/consumer/rabbitmq.py:219-259 | each row in turn is given up at the cap or published; a sent publish, and nothing else, leaves a raised count pending, a timed-out one leaves nothing; the first that raises ends it |
| Consumer.Store.ReconcileOnce | app/consumer/rabbitmq.py:200-265 | the loaded rows were stale, and a committed cycle writes exactly their pending changes over the table of that moment; a publish that raises ends the cycle without a commit |
| Pipeline.CommitNeverConflicts | app/db/models.py:83-84 | in every reachable state the rows of a commit are new, so the unique constraint is never violated |
| Pipeline.LoadIsPossible | app/delivery/worker.py:72-79 | in every reachable state the key row behind every locked row exists |
| Pipeline.LinkedRun | app/consumer/rabbitmq.py:131-147 | the invariant that links the two machines is kept along every run of both |
| Pipeline.RowsAreTheAttempts | app/consumer/rabbitmq.py:74-93 | a delivery row exists if and only if its message is ingested and its subscriber was recorded active at the insert |
| Pipeline.RowsAreForTheActive | app/consumer/rabbitmq.py:74-93 | and these are exactly the subscribers that were active and not deleted when the handler listed them |
| Pipeline.NewRowsArePending | app/consumer/rabbitmq.py:85-91 | the rows of a commit are pending, with no attempt made and due at once; the others stay |
| Pipeline.ClaimsLoadWhatIsStored | app/delivery/worker.py:72-76 | a claim takes the stored enriched payload of each row if there is one at that moment, and the raw one if not |
| Pipeline.PostsSendTheLoad | app/delivery/worker.py:120-123 | a POST sends what the claim of its row took |
| Pipeline.PayloadsAdvanceOnce | app/delivery/worker.py:72-120 | per message, in claim order over all subscribers and workers, POSTed payloads are raw first and then the one enriched payload, and agree with the raw one on every key but the enrichment key |
| PatchCache.CacheRefinesLog | app/api/subscribers.py:29-47 | any sequence of waits, lookups and writes is answered as an unbounded log would answer it |
| PatchCache.AnswersLiveSixtySeconds | app/api/subscribers.py:30-37 | an answer is recalled if and only if it is the latest under its key and less than 60 s old |
| SubscriberTheorems.SoundStep | app/api/subscribers.py:33-127 | every event of every request keeps the invariant that ties cache, answers stored, requests in progress and answers given together |
| SubscriberTheorems.WriteLeavesOnlyYoung | app/api/subscribers.py:40-47 | at the end of any run, right after a write, the cache holds exactly the keys last written less than the TTL ago |
| SubscriberTheorems.KeyedPatchIsAppliedIff | app/api/subscribers.py:86-104 | in every interleaving, an answered PATCH with a key has been applied if and only if no answer younger than the TTL was stored at its look-up and its row was found; with such an answer it got that |
| SubscriberTheorems.UnkeyedPatchIsAppliedIff | app/api/subscribers.py:86-104 | without a key, or with an empty one, it has been applied if and only if its row was found |
| SubscriberTheorems.PatchDoesWhatItSays | app/api/subscribers.py:91-104 | if no other request commits the row between the SELECT and the refresh, its commit leaves the requested endpoint and activity and every other column as read, and once answered it has been applied and its answer says so |
| SubscriberTheorems.BothAppliedIff | app/api/subscribers.py:86-102 | two PATCHes with one key, both rows found and nobody else using the key, are both applied if and only if the second looked up before the first had stored its answer, or the TTL after |
| SubscriberTheorems.RepeatedPatchIsAnsweredOnce | app/api/subscribers.py:78-104 | every repeat within the TTL of a stored answer gets the latest stored answer and is never applied, whatever comes between and after |
| SubscriberTheorems.KeysAreAppliedOncePerWindow | app/api/subscribers.py:78-104 | in every interleaving, two answers stored under one key are at least the TTL apart unless the later request looked up before the earlier one stored |
| SubscriberTheorems.DeletedForEver | app/api/subscribers.py:107-127 | in every interleaving a deletion is never undone, and the row does not change if no request holds it as read |
| SubscriberTheorems.DeletedRowIsWrittenIff | app/api/subscribers.py:91-97 | a deleted row can still be written if and only if some request read it before the deletion and has not written it yet |
| SubscriberTheorems.DeletedAnswers | app/api/subscribers.py:86-127 | a request that arrives after the deletion is answered 404, except a PATCH whose key has a live answer |
| SubscriberTheorems.RequestsAreRegistryWrites | app/api/subscribers.py:50-114 | what any interleaving of requests does to the subscriber registry is a sequence of the writes that the pipeline machines allow |
| SubscriberEndpoints.Endpoints.GetCachedPatch | app/api/subscribers.py:33-37 | the answer of the cache, which is the answer of the log |
| SubscriberEndpoints.Endpoints.CachePatchResult | app/api/subscribers.py:40-47 | deletes every entry that has reached the TTL and no other, then writes |
| SubscriberEndpoints.Endpoints.LookUp | app/api/subscribers.py:86-89 | a live answer is given at once; an empty header is none |
| SubscriberEndpoints.Endpoints.GetOr404 | app/api/subscribers.py:117-127 | the row as it is, or 404 when it is missing or deleted |
| SubscriberEndpoints.Endpoints.CommitUpdate | app/api/subscribers.py:92-97 | a requested endpoint or activity that differs from the one read is stored; every other column stays as it is by then, deleted or not; no other row changes |
| SubscriberEndpoints.Endpoints.RefreshRow | app/api/subscribers.py:98-99 | the answer is id, name, endpoint, activity and creation time of the row as it is by then |
| SubscriberEndpoints.Endpoints.UpdateSubscriber | app/api/subscribers.py:78-104 | the whole PATCH as the list of its steps, with other requests at each await: answered from the cache, 404, or committed, read back, stored and answered |
| SubscriberEndpoints.Endpoints.GetSubscriber | app/api/subscribers.py:70-75 | the columns of the row as it is at the SELECT, or 404 when it is missing or deleted |
| SubscriberEndpoints.Endpoints.CommitRemove | app/api/subscribers.py:112-114 | the row is deleted, and inactive if it was read active |
| SubscriberEndpoints.Endpoints.DeleteSubscriber | app/api/subscribers.py:107-114 | 404, or the row deleted, as the list of its steps |
| Signing.UniqueReadability | app/delivery/signing.py:21-21 | a string is the signed string of (timestamp, body) if and only if it reads back as exactly that pair |
| Signing.CanonicalBytes | app/delivery/signing.py:21-21 | byte for byte: ASCII digits without a leading zero that stand for the time, a dot, the body |
| Signing.CanonicalIsInjective | app/delivery/signing.py:21-21 | different pairs have different signed strings |
| Signing.DecimalReads | app/delivery/sender.py:61-61 | the printed timestamp reads back, negative ones too, and holds no dot |
| Signing.HexIsInjective | app/delivery/signing.py:22-23 | different MAC values have different hex digests |
| Signing.HexReads | app/delivery/signing.py:22-23 | two lower-case hex digits for each byte, the high one first |
| Signing.VerifyAcceptsIff | app/delivery/signing.py:26-43 | for any MAC and any two secrets, accepted if and only if inside the window and the MACs of the two signed strings are equal |
| Signing.SignVerifyRoundTrip | app/delivery/signing.py:10-43 | with one secret and a collision-free MAC (section 2 of RFC 2104), accepted if and only if timestamp and body are the signed ones and the clock is inside the window |
| Signing.SenderRoundTrip | app/delivery/sender.py:56-61 | what the sender signs without giving a timestamp carries the time of the call, and is accepted for it exactly while the receiver's clock is within the tolerance; with a collision-free MAC for no other time or body |
| Signing.TamperingNeedsACollision | app/delivery/signing.py:26-43 | a header accepted for another pair shows two different strings with one MAC |
| Signing.AcceptedHeaderShape | app/delivery/signing.py:22-43 | an accepted header is `sha256=` and two lower-case hex digits per MAC byte |

## Left out

- HTTP, AMQP, SQL and JSON libraries: a POST is an outcome, a publish is sent, timed out or raised, a body is too large, not JSON or an event.
- One committed SQL statement is one event, with row locks and unique-index waits where they matter; other isolation effects of PostgreSQL are not modelled.
- A wait for a row lock or an index entry ends in `AwaitLock` and `AwaitIndex` by the death of the holder when nothing else ended it; the machines allow every way.
- In the `Delivery` machine a claim may take any eligible rows up to the limit; that it takes as many as there are is stated by `DeliveryWorker.Database.SelectForUpdate` alone.
- The loops of `run`, `_periodic_stale_reset`, `_reconciler` and `_supervised_reconciler`, which never end: their bodies are events that can happen at any time.
- `received_at` is the time of the insert; in PostgreSQL it is the start of its transaction, which is earlier when the insert had to wait for another one of the same id.
- A failed statement of a worker or handler is a crash of that worker or handler at that point; handler exceptions that reach `message.process`, and messages without an id, are not modelled.
- Jitter and other randomness are any value in range, times are integers (milliseconds) and the cache clock a real; floating-point rounding is not modelled.
- Columns that only record (`last_attempt_at`, `enriched_at`, `created_at` of attempts), the text of error messages beyond what decides them, metrics and logging.
- `_get_provider` beyond whether there is one; the providers' prompts and latencies; that the enriched payload is the raw one with the enrichment key set is taken from the mock provider.
- `Subscribers` is one API process for one lifetime: the cache of another process, and its loss at a restart, are not modelled. An UPDATE writes the columns whose value differs from the one read, as SQLAlchemy does, and always the update time.
- Reuse of one key for different subscribers is answered as the code does, from the key alone; that it should be refused is not claimed.
- HMAC-SHA256 itself, constant-time comparison and the making of secrets: the MAC is any function of secret and message.
- Listing endpoints, `pipeline_stats`, schemas, middleware, health checks, migrations, the test receiver and scripts.
