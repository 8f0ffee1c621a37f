# PrismPipe: durable document operations, shared computations and their runtime

A Dafny model of the parts of PrismPipe whose correctness does not follow from reading one function, with proofs.

**Durable document operations.** `OperationStore` is the SQLite table as a class with one method per SQL transaction, each
proved equal to a function of the table. `DocumentProcessing` is the processor, the consumer and the recovery drain as a
step machine: any number of workers hold tokens and snapshots of rows, every await is a step boundary, steps interleave
freely, workers may crash anywhere, the broker may deliver any message any number of times, publications may be taken
and still be reported as failed, and claims run on clock readings that may be arbitrarily old. `ProtocolInvariants`,
`ProtocolSteps`, `ProtocolMoves` and `ProtocolBroker` prove what every step keeps; `ProtocolTheorems` and `ProtocolDrains` state what
whole runs guarantee: one outcome per key, fencing, lease exclusion, a uniform outbox, safe acknowledgement, bounded
retries and drain fairness. `ProtocolOrigins` and `ProtocolOutcomes` trace every row, grant, outcome and published message of a
run back to the step and the request it comes from, and `ProtocolDecisions` says what a worker decides in every reachable
state. `Consumer` has the imperative code of `process`, `process_message` and
`drain_pending_publications` against the store and the in-memory broker (`DeepiriBus`). `IsoTime` proves that comparing
the stored timestamp texts is comparing instants.

**Shared computations.** `ComputationCache` is the bounded cache with its three linked dictionaries and the tier all
workers share, as functions; `ComputationGraph` is the object, updated in place and proved equal to them. Over every
sequence of operations of any number of workers (`CacheRuns`): the dictionaries stay coherent, eviction is least recently
used (`CacheRecency`), every reuse is accounted for (`CacheAccounting`), hits are bounded in age (`CacheFreshness`), and a
registered result is returned until its time is over (`CacheCompleteness`).
`SharedExecution` and `OrganismExecutor` prove that restoring cached hops means the same as running the nodes, with the
exact condition for one hop; `SingleFlight` is the coalescing of concurrent misses and what breaks it.

**Requests.** `VectorizePayload`, `VectorizeInput` and `VectorizeRequest` are the `document.vectorize` parser and printer
with their round trip; `PayloadMeaning` says without the parser which request a payload means, and that the parser reads
exactly that; `RequestIdentity` has the idempotency keys and fingerprints; `ChunkContent` the filling in of chunk
texts and the second parse inside the node.

**Swarm and executor.** `Swarm` is partitioning, the worker loop and reduction; `BoundedExecutor` the bounded daemon
executor as a step machine and as an object.

A few results say where the code does less than its surroundings suggest:

- A worker whose own entry expired goes on asking the shared tier for the key, because a hydrated entry is linked only when
  its id is new to the worker (`CacheCompleteness.HydrationLinksIffNew`).
- Hydrating a shared entry whose id another key already uses breaks the links (`CacheProperties.HydrateCoherence`).
- A capability's hits have a bounded age exactly when its TTL is positive (`CacheRuns.AgeIsBoundedIffTtlPositive`), and an
  unreadable TTL restarts the clock (`CacheFreshness.UnreadableKeepsBoundIffYoung`).
- A node's average latency is the mean of its latencies exactly while nothing but registrations raises its count
  (`CacheAccounting.AverageIsMeanIff`).
- A restored failure does not terminate an organism, and a restored result does not delete keys
  (`SharedExecution.CachedFailureIsIgnored`, `SharedExecution.DeletedKeySurvives`).
- An owner cancelled in mid-node leaves a flight that never ends (`SingleFlight.CancellingOrphans`,
  `SingleFlight.OrphansStay`), and with Redis on a flight can end before its node runs
  (`SingleFlight.EarlyResolveBreaksExclusion`).
- Content of whitespace only passes the loading of chunk texts and fails the node's second parse
  (`ChunkContent.SecondParse`).
- A swarm with fewer items than workers processes items more than once, counts a failing partition as an error once and
  as a result afterwards, and under fail-fast counts a returned failure twice (`Swarm.RoundRobinRepeats`,
  `Swarm.FailuresAreCountedOnce`, `Swarm.FailFastErrors`).

Conventions. Digests are modelled as what is hashed, so equal digests mean equal contents. Random tokens and ids are
parameters that are fresh. Clock readings are parameters. JSON is a datatype; nan and infinity are one value. An error is
reduced to the path of the rejected field. One stretch of code between two awaits, and one SQL transaction, is one atomic
step. `dafny verify dfyconfig.toml` checks everything.

## Model

| member | source | states |
|---|---|---|
| `OperationStore.SQLiteDocumentOperationStore.ClaimOperation` | src/prismpipe/document/operations.py:221-324 | the outcome and the whole row, column by column: a new row with the request as given, a conflict on another fingerprint, a final or live row shown as it is, or a takeover that keeps request and creation time |
| `OperationStore.SQLiteDocumentOperationStore.FinishOperation` | src/prismpipe/document/operations.py:361-425 | the update guarded by token and expected status (RETRYABLE_FAILURE only for a dead letter), column by column, or no change at all |
| `OperationStore.SQLiteDocumentOperationStore.RecordRetryableFailure` | src/prismpipe/document/operations.py:440-468 | the update of a PROCESSING row under its token, column by column, which keeps the token, or no change |
| `OperationStore.SQLiteDocumentOperationStore.UpdatePublication` | src/prismpipe/document/operations.py:479-505 | marking published or counting an attempt, unguarded, with a new timestamp and no other column touched |
| `ProtocolTheorems.AtMostOneFinish` | src/prismpipe/document/operations.py:361-419 | in every run at most one finish succeeds per key, and exactly one has when the row is final |
| `ProtocolTheorems.OutcomeIsFrozen` | src/prismpipe/document/operations.py:381-411 | after the final commit, status, result, error, outbound message and attempts never change and no token is left |
| `ProtocolTheorems.OnlyTheLatestGrantWrites` | src/prismpipe/document/operations.py:386-396 | fencing as an equivalence: a finish or a failure is accepted exactly from the latest grant in the right phase; anything refused changes nothing |
| `ProtocolTheorems.GrantedExactlyWhenFree` | src/prismpipe/document/operations.py:242-318 | in reachable states a claim is granted exactly for a new key, or for the same request without an outcome whose latest grant is not live at the caller's clock reading; a new row has the request as given, one attempt and both timestamps now, a takeover keeps request and creation time, its attempt count one above the grants so far; no other row changes |
| `ProtocolTheorems.GrantedOnlyWhenFree` | src/prismpipe/document/operations.py:232-318 | although the clock is read before the transaction, no step grants ownership while an earlier grant is unsettled with time left on its lease |
| `ProtocolTheorems.LeasesExclude` | src/prismpipe/document/operations.py:289-312 | at most one live grant per key at any time, the latest one, and the row carries its token |
| `ProtocolTheorems.AttemptsCountGrants` | src/prismpipe/document/operations.py:298-312 | attempt_count is the number of grants; the token is null exactly when the row is final |
| `ProtocolOrigins.RowOrigin` | src/prismpipe/document/processing.py:92-256 | every row of every run was created by a claim for a delivered message and still carries its fingerprint, document, version, payload and metadata, "unknown" for a missing id, or under a conflict key the ids of the row it conflicts with |
| `ProtocolOrigins.GrantOrigin` | src/prismpipe/document/operations.py:232-318 | every grant is a claim's: a fresh token, a lease of exactly the configured length counted from a clock reading between the row's new timestamp and the commit, and the rest of the row as for a new key or a takeover |
| `ProtocolOutcomes.OutcomeOrigin` | src/prismpipe/document/processing.py:123-173 | every final row was ended by a worker that held its token, on a delivered message: with the node's output, with the node's failure, with the verdict it was given (the validation error or the conflict), or as an exhausted failure |
| `ProtocolOutcomes.DeadLetteredOnlyWhenExhausted` | src/prismpipe/document/processing.py:537-548 | a row is dead-lettered only after max_attempts grants, or when some delivery of a message about it had at least that number; its error says exhausted and not retryable |
| `ProtocolOutcomes.SucceededRequestIsValid` | src/prismpipe/document/processing.py:82-92 | only a request that passed validation, under its own key, ever succeeds |
| `ProtocolOutcomes.PublishedNamesItsRequest` | src/prismpipe/document/processing.py:647-664 | every message ever published carries the key, document, version and metadata of the delivered request whose claim created its row |
| `ProtocolDecisions.ClaimDecides` | src/prismpipe/document/operations.py:242-318 | in a reachable state a claim for a message ends the handling, grants, shows the row for waiting or as settled, or finds a conflict, each exactly when the row says so |
| `ProtocolDecisions.ConflictDecides` | src/prismpipe/document/processing.py:110-121 | after a conflict the row is read again and its conflict key is claimed |
| `ProtocolDecisions.ConflictClaimDecides` | src/prismpipe/document/processing.py:233-272 | the claim under the conflict key, exactly: granted with the conflict as verdict, shown, or given up |
| `ProtocolDecisions.CommitDecides` | src/prismpipe/document/processing.py:127-173 | an owner whose token the row still carries commits success or failure, any other owner's commit changes nothing |
| `ProtocolDecisions.FailureIsRecorded` | src/prismpipe/document/processing.py:144-170 | an owner whose token the row still carries records a retryable failure and keeps the token; a cancelled owner does so and ends; any other changes nothing |
| `ProtocolDecisions.DispatchDecides` | src/prismpipe/document/processing.py:530-565 | the decision about a settled record, exactly: an unfinished row is retried while deliveries are left, a failure while attempts and deliveries are left and dead-lettered otherwise, a pending result is published, a published one acknowledged |
| `ProtocolDecisions.PublishDecides` | src/prismpipe/document/processing.py:572-594 | one publication: what the broker's log gets and what the worker learns, for messages and drains |
| `ProtocolDecisions.RecordDecides` | src/prismpipe/document/processing.py:551-610 | what became of a publication is written on the row; a failed one is retried exactly while the new attempt count is below max_attempts |
| `ProtocolDecisions.TransportDecides` | src/prismpipe/document/processing.py:556-570 | a retry puts the message back with one more delivery, an acknowledgement names the row it rests on |
| `ProtocolDecisions.PollDecides` | src/prismpipe/document/processing.py:302-316 | a duplicate waits while the row is unfinished, goes on with the row as it then is, and with its old record when it gives up |
| `ProtocolDecisions.DeliverDecides` | src/prismpipe/document/processing.py:518-529 | a delivery is a new handling of the message as it was sent |
| `ProtocolTheorems.OutboxIsUniform` | src/prismpipe/document/processing.py:572-610 | everything ever published for a key is one and the same message, never before the commit: stream, message id, success flag, ids, document, version, result, error, metadata and headers are spelled out from the final row |
| `ProtocolTheorems.AcknowledgedIsSafe` | src/prismpipe/document/processing.py:524-565 | from an acknowledgement on, the row the message is about (its own key's, or its conflict key's) is final, and its message is on the broker, or pending in the outbox with max_attempts used up |
| `ProtocolBroker.PublishedWasSent` | src/prismpipe/document/processing.py:583-594 | in every state of every run a row marked published has its own message, with its own headers, in the broker's log |
| `ProtocolBroker.ActKeepsBroker` | src/prismpipe/document/processing.py:572-608 | no step of any worker marks a row, or gets ready to, unless the broker took its message |
| `ProtocolTheorems.SettledOnce` | src/prismpipe/document/processing.py:524-570 | one handling acknowledges or retries, never both and never twice |
| `ProtocolTheorems.RetriesAreBounded` | src/prismpipe/document/processing.py:530-570 | a message lineage is retried at most 2 * max_attempts - 2 times, whatever other workers do |
| `ProtocolTheorems.RetryDecreases` | src/prismpipe/document/processing.py:531-560 | each decision to retry strictly decreases the sum of the delivery room and the publication room |
| `ProtocolMoves.RunKeepsInv` | src/prismpipe/document/processing.py:74-316 | every state of every run satisfies the protocol invariant (rows, grants, commits, handlings, program counters, logs) |
| `ProtocolSteps.NextKeepsInv` | src/prismpipe/document/processing.py:74-610 | every single step of any worker keeps that invariant |
| `ProtocolSteps.ClaimKeepsGrants` | src/prismpipe/document/operations.py:232-318 | a grant with a fresh token supersedes only a grant that was settled or whose lease has passed the commit clock |
| `ProtocolSteps.FinishKeepsTable` | src/prismpipe/document/operations.py:361-419 | a finish by a holder of any snapshot either freezes a well-formed final row with its outbound message or does nothing |
| `ProtocolSteps.RetryableKeepsTable` | src/prismpipe/document/operations.py:440-468 | a recorded failure keeps the row well formed and its token usable for the dead letter |
| `ProtocolSteps.PublicationKeepsTable` | src/prismpipe/document/operations.py:479-505 | the unguarded publication update is safe from any snapshot of a pending row |
| `ProtocolInvariants.PcStable` | src/prismpipe/document/processing.py:123-173 | what a worker knows from its snapshot is not invalidated by anything the other workers do to the table |
| `ProtocolMoves.RunEvolves` | src/prismpipe/document/operations.py:361-505 | between any two states of a run rows keep their identity, counters only grow, publication moves only from none to pending to published, final outcomes stay |
| `ProtocolMoves.StepsAreExplained` | src/prismpipe/document/processing.py:524-570 | only the two retry decisions lead to a retry, and only a claim adds a grant, one at a time |
| `ProtocolDrains.WorkerDrainIsDrain` | src/prismpipe/document/processing.py:596-610 | a recovery worker's completed drain, interleaved with everybody else, attempted every row of its page |
| `ProtocolDrains.RunIsTrace` | src/prismpipe/document/processing.py:489-494 | the tables of a run with advancing timestamps form a trace on which the fairness argument applies |
| `ProtocolDrains.PendingIsAttemptedInRun` | src/prismpipe/document/processing.py:596-610 | drain fairness in the protocol: with r rows ahead, a pending row is attempted within r / limit + 1 completed drains |
| `DrainFairness.AttemptedWithinQuotient` | src/prismpipe/document/operations.py:510-521 | the same bound for any trace of tables, whatever fails, arrives or is published in between |
| `DrainFairness.PendingIsAttempted` | src/prismpipe/document/operations.py:479-521 | any n consecutive drains with n * limit > r reach the row |
| `DrainFairness.DrainMakesProgress` | src/prismpipe/document/processing.py:596-610 | a drain that misses a row removes `limit` rows from in front of it, because a failed attempt moves to the back |
| `DrainFairness.FinishAdvances` | src/prismpipe/document/operations.py:388-411 | a finish with a later timestamp joins the outbox behind every final row |
| `DrainFairness.PublicationUpdateAdvances` | src/prismpipe/document/operations.py:484-498 | an attempt, failed or not, moves its row behind every other final row |
| `Outbox.PendingPublications` | src/prismpipe/document/operations.py:510-521 | the page holds pending rows in (updated_at, operation_id) order, at most max(limit, 0) of them; pending rows are left out only by a full page, and come later |
| `Outbox.PageIsSorted` | src/prismpipe/document/operations.py:516 | a page is in order and nothing left out sorts before anything returned |
| `Outbox.PageIsFull` | src/prismpipe/document/operations.py:517-519 | a page is full or holds every pending row, without repetition |
| `Text.LessIffFirstDifference` | src/prismpipe/document/operations.py:516 | text order is decided by the first character that differs, a proper prefix coming first |
| `IsoTime.TextOrderIsTimeOrder` | src/prismpipe/document/operations.py:542-547 | comparing isoformat texts, with or without a fraction, is comparing instants; equal texts are equal instants |
| `IsoTime.TextOrderIsFieldOrder` | src/prismpipe/document/operations.py:289-294 | text order is calendar field order |
| `IsoTime.FractionOrder` | src/prismpipe/document/operations.py:542-543 | an omitted zero fraction still sorts first, because of the character that follows the seconds |
| `IsoTime.TextReadsBack` | src/prismpipe/document/operations.py:542-547 | the stored text reads back as the very instant, every field in its place and a fraction exactly when it is not zero |
| `Consumer.DrainPendingPublications` | src/prismpipe/document/processing.py:596-610 | one page: refused rows stay pending with one more attempt and a new timestamp, the others are published in order and marked, no other row is touched, and the count returned is right |
| `Consumer.PublishRecord` | src/prismpipe/document/processing.py:572-608 | one publication attempt: an incomplete record raises and changes nothing; otherwise what the broker got and what the row records, published or one more attempt |
| `Consumer.DocumentVectorizeProcessor.Process` | src/prismpipe/document/processing.py:74-316 | an owner commits its outcome on a row that carries the body's document, version, payload and metadata, a validation verdict becomes a terminal failure, a duplicate sees the row as it is; no other row is written and none is marked published |
| `Consumer.DocumentVectorizeProcessor.RecordConflict` | src/prismpipe/document/processing.py:233-272 | a conflicting request becomes a terminal failure under its conflict key, with its own or the other row's ids, that names the row it conflicts with; that row stays as it is |
| `Consumer.DocumentVectorizeProcessor.DeadLetter` | src/prismpipe/document/processing.py:541-548 | a recorded failure whose attempts are used up becomes a dead letter with the exhausted error, every other column kept |
| `Consumer.DocumentVectorizeProcessor.Commit` | src/prismpipe/document/processing.py:127-173 | success, retryable and terminal outcomes each leave exactly that outcome on the owner's row |
| `Consumer.DocumentVectorizeProcessor.FinishFailure` | src/prismpipe/document/processing.py:274-300 | a failure is committed exactly when the record's token still fits and the row is in the right phase |
| `Consumer.DocumentVectorizeConsumer.ProcessMessage` | src/prismpipe/document/processing.py:524-565 | what `process` came to decides exactly whether the message is requeued, acknowledged, left or raises, what row it leaves and what the broker gets; it acknowledges only a delivered row, requeues only while the retry measure decreases, never both |
| `Consumer.DocumentVectorizeConsumer.PublishAndAcknowledge` | src/prismpipe/document/processing.py:551-565 | a pending row is offered: published and acknowledged, or one more failed attempt that is requeued exactly while attempts are left; a published row is acknowledged |
| `DeepiriBus.InMemoryDeepiriTransport.Publish` | src/prismpipe/deepiri_bus.py:160-179 | disconnected and injected failures, and what is appended otherwise |
| `DeepiriBus.InMemoryDeepiriTransport.Acknowledge` | src/prismpipe/deepiri_bus.py:181-185 | acknowledging is idempotent |
| `DeepiriBus.InMemoryDeepiriTransport.Retry` | src/prismpipe/deepiri_bus.py:187-200 | a copy with one more delivery attempt goes to the back of its topic's queue, the document stream if it has none |
| `ComputationGraph.ComputationGraph.StoreOutput` | src/prismpipe/engine/__init__.py:213-243 | the eviction loop drops exactly one entry when the bound is exceeded, with its node and its key if still linked |
| `ComputationGraph.ComputationGraph.FindSharedComputation` | src/prismpipe/engine/__init__.py:245-258 | the known node with its count raised by one, links, entries and order as they were |
| `ComputationGraph.ComputationGraph.HydrateFromRedis` | src/prismpipe/engine/__init__.py:260-319 | the local copy, its inherited expiry and the counters, or nothing |
| `ComputationGraph.ComputationGraph.GetCachedResultByKey` | src/prismpipe/engine/__init__.py:335-369 | local tier with expiry, then shared tier, then a miss; no indexing fails on a coherent cache |
| `ComputationGraph.ComputationGraph.RegisterComputation` | src/prismpipe/engine/__init__.py:371-471 | fold into the existing node or create one, store as most recent, write through to the shared tier |
| `CacheRuns.CachesStayCoherent` | src/prismpipe/engine/__init__.py:213-369 | after any operations of any workers, under any TTLs and any TTL readings: coherent dictionaries, sizes within the bound, least-recently-used eviction, counted evictions, balanced reuse, averages within their extremes |
| `CacheRuns.ApplyKeeps` | src/prismpipe/engine/__init__.py:335-471 | one operation of one worker, under any TTLs and readings, keeps all of that for every worker and the shared tier |
| `CacheRuns.HitsAreRecent` | src/prismpipe/engine/__init__.py:260-362 | with a positive TTL for the capability and accurate readings of it, whatever any lookup of any worker returns was registered under that key less than ttl + 1 seconds before |
| `CacheRuns.HitIsRegistered` | src/prismpipe/engine/__init__.py:335-369 | whatever any lookup of any worker returns was registered by some worker under exactly that key, under any TTLs and readings |
| `CacheRuns.AgeIsBoundedIffTtlPositive` | src/prismpipe/engine/__init__.py:530-533 | over all runs with accurate readings the age of a capability's hits has a bound if and only if its TTL is positive |
| `CacheCompleteness.LookupAnswers` | src/prismpipe/engine/__init__.py:335-369 | a lookup answers from the own tier while its entry is alive, otherwise from the shared tier if asked and alive there, otherwise not; exactly |
| `CacheCompleteness.LookupCounts` | src/prismpipe/engine/__init__.py:289-369 | what every lookup adds to hits, misses, shared hits and negative hits |
| `CacheCompleteness.RegisteredIsReturned` | src/prismpipe/engine/__init__.py:335-471 | over any run: what a worker registered is returned to it, state and route, by every lookup before its TTL is over, unless it was registered again, looked up after expiry or evicted; from then on nothing but the shared tier answers |
| `CacheCompleteness.KeptWhileFewAreUsed` | src/prismpipe/engine/__init__.py:213-243 | over any run: a registered entry is not evicted while its worker stores and hits fewer than max_entries times |
| `CacheCompleteness.SharedIsReturned` | src/prismpipe/engine/__init__.py:260-319 | over any run: a persisted result is returned to any worker without a live entry of its own until its TTL is over, or for good when the TTL is not positive |
| `CacheCompleteness.HydrationLinksIffNew` | src/prismpipe/engine/__init__.py:289-309 | a hydrated entry is linked under its key exactly when the worker had no node with its id |
| `CacheCompleteness.HydratedIsReturned` | src/prismpipe/engine/__init__.py:260-319 | over any run: what was taken over from the shared tier under an id new to the worker answers its later lookups until the expiry it inherited |
| `CacheProperties.SizesAreBounded` | src/prismpipe/engine/__init__.py:237-243 | links are no more than outputs, outputs no more than the bound |
| `CacheProperties.HydrateCoherence` | src/prismpipe/engine/__init__.py:289-309 | hydrating keeps the dictionaries coherent exactly when no other key is linked to the shared id |
| `CacheProperties.RegisterLinks` | src/prismpipe/engine/__init__.py:394-448 | registering keeps every link, including across the eviction it causes |
| `CacheProperties.LocalLookupLinks` | src/prismpipe/engine/__init__.py:343-362 | a hit or an expiry keeps every link |
| `CacheRecency.VictimIsOldest` | src/prismpipe/engine/__init__.py:235-243 | at least max_entries other ids were stored or hit after the victim's last use, and the entry just stored is not the victim |
| `CacheRecency.StoreKeepsRecency` | src/prismpipe/engine/__init__.py:213-243 | every eviction ever made stays justified and the order stays by last use |
| `CacheRecency.LocalLookupKeepsRecency` | src/prismpipe/engine/__init__.py:349-355 | a hit makes its entry the last in the order and keeps the order by last use |
| `CacheAccounting.RegisterBalances` | src/prismpipe/engine/__init__.py:400-448 | reuse of live and evicted nodes equals hits, re-registrations and shared finds |
| `CacheAccounting.HydrateBalances` | src/prismpipe/engine/__init__.py:289-314 | hydrating keeps that balance |
| `CacheAccounting.FoldAverages` | src/prismpipe/engine/__init__.py:403-407 | a folded average lies between the smallest and the largest latency folded in |
| `CacheAccounting.AverageIsMeanIff` | src/prismpipe/engine/__init__.py:403-407 | an average that is the mean so far stays the mean with the next latency exactly when only those folds raised the count, or the latency equals the average |
| `CacheAccounting.AverageIsNotMean` | src/prismpipe/engine/__init__.py:353-407 | the witness: one hit between two registrations already makes it differ |
| `CacheFreshness.HitIsRecent` | src/prismpipe/engine/__init__.py:343-369 | a direct or hydrated hit is less than ttl + 1 seconds old |
| `CacheFreshness.HydrateIsFresh` | src/prismpipe/engine/__init__.py:280-287 | inheriting the remaining whole seconds costs at most one second |
| `CacheFreshness.UnreadableKeepsBoundIffYoung` | src/prismpipe/engine/__init__.py:284-287 | the fallback for an unreadable TTL keeps the bound exactly when the result is less than a second old |
| `CacheFreshness.NonPositiveTtlNeverExpires` | src/prismpipe/engine/__init__.py:280-281 | otherwise a hydrated copy is returned at any later time |
| `SharedExecution.SharingPreservesMeaning` | src/prismpipe/engine/__init__.py:1541-1760 | with caches of any workers in any reachable state, under any TTLs and readings, an execution ends with the public state, next capability and hop-limit outcome of one with an empty cache, for every routing graph |
| `SharedExecution.CapabilityIsNamed` | src/prismpipe/engine/__init__.py:811-816 | a name with the prefix and the name without it are the same capability; a bare prefix and no name are none |
| `SharedExecution.WarmHopIsColdHop` | src/prismpipe/engine/__init__.py:1608-1620 | restoring what the node produced is running it, if and only if the node succeeded and deleted no public key |
| `SharedExecution.HitIsNodeResult` | src/prismpipe/engine/__init__.py:1604-1617 | whatever a lookup returns is what the node makes of the key |
| `SharedExecution.ReferenceDependsOnWhatIsSeen` | src/prismpipe/engine/__init__.py:1494-1505 | private keys never influence an execution of deterministic nodes |
| `SharedExecution.ColdHopRegistersHonestly` | src/prismpipe/engine/__init__.py:1711-1719 | what a cold hop registers is right for the public state of the key, although the node saw private keys too |
| `SharedExecution.CachedFailureIsIgnored` | src/prismpipe/engine/__init__.py:1608-1620 | a restored failure leaves the organism running |
| `SharedExecution.DeletedKeySurvives` | src/prismpipe/engine/__init__.py:1609-1611 | a key the node deletes survives in an organism that restores the result |
| `OrganismExecutor.OrganismExecutor.Execute` | src/prismpipe/engine/__init__.py:1580-1760 | the loop itself, with other activities using the cache at every await and any number of flight waits, ends as the reference execution does and counts one warm or cold step for every hop with a node; undisturbed and with room it leaves its whole path linked, and takes no cold step where it was |
| `OrganismExecutor.OrganismExecutor.HopOnce` | src/prismpipe/engine/__init__.py:1593-1755 | one hop, looked up, waited for or computed, advances the reference execution by one hop; a live entry makes it a warm step, and a step is counted exactly when a node is registered |
| `OrganismExecutor.OrganismExecutor.RunNode` | src/prismpipe/engine/__init__.py:1696-1747 | the owner's path takes over the node's result and registers it, success or failure, under the key looked up until its TTL is over; without a node nothing is stored and no step counted |
| `OrganismExecutor.OrganismExecutor.ExecuteTwice` | src/prismpipe/engine/__init__.py:1580-1760 | executing an organism that looks like one executed before, undisturbed and with nothing evicted or expiring, takes no cold step and ends the same |
| `OrganismExecutor.OrganismExecutor.LookUpOrWait` | src/prismpipe/engine/__init__.py:1604-1661 | the lookups of a hop: a live entry is found at once, and in an undisturbed stretch exactly the linked keys are found |
| `OrganismExecutor.OrganismExecutor.Put` | src/prismpipe/engine/__init__.py:371-471 | afterwards the key is linked to an entry with this result and the expiry of its TTL; while there is room nothing else changes |
| `OrganismExecutor.OrganismExecutor.Restore` | src/prismpipe/engine/__init__.py:1608-1620 | a hit overlays the public keys, leaves the two private marks, follows the cached route and counts a warm step |
| `SingleFlight.OneOwnerPerKey` | src/prismpipe/engine/__init__.py:1507-1525 | at most one runner per key, and every unresolved waiter has an active owner |
| `SingleFlight.ComputedExactlyOnce` | src/prismpipe/engine/__init__.py:1637-1752 | a key that resolves and is not dropped is computed exactly once however many want it |
| `SingleFlight.NeverStuck` | src/prismpipe/engine/__init__.py:1656-1661 | while anybody is unfinished, an owner can finish or a waiter can wake up |
| `SingleFlight.NobodyLeavesEmptyHanded` | src/prismpipe/engine/__init__.py:1637-1755 | whoever asked for a key, waited or ran its node is through only with a result of the key, unless the key was disturbed |
| `SingleFlight.InFlight.AwaitInflightOrOwn` | src/prismpipe/engine/__init__.py:1507-1517 | join the flight that is there or become the owner of a new one, as the step machine does |
| `SingleFlight.InFlight.FinishInflight` | src/prismpipe/engine/__init__.py:1519-1525 | resolve, and remove the flight only if it is still this one |
| `SingleFlight.CancellingOrphans` | src/prismpipe/engine/__init__.py:1736-1752 | cancelling an owner in mid-node leaves a registered, unresolved flight nobody runs |
| `SingleFlight.OrphansStay` | src/prismpipe/engine/__init__.py:1656-1661 | such a flight stays so after every step, and all who wait for it keep waiting |
| `SingleFlight.EarlyResolveBreaksExclusion` | src/prismpipe/engine/__init__.py:1674-1694 | in every reachable state: when an owner's flight is ended before its node has run, the next idle task that enters the key runs the same node too |
| `VectorizeRequest.RoundTrip` | src/prismpipe/document/vectorize.py:336-500 | a request is read back from its payload unchanged if and only if it is one the parser could have produced |
| `VectorizeRequest.NormalizationIsIdempotent` | src/prismpipe/document/processing.py:83-84 | for every accepted payload, parsing the normal form gives the same request |
| `VectorizeRequest.ParsesOk` | src/prismpipe/document/vectorize.py:336-425 | every accepted request is well formed field by field and related across fields; what it has to do with the payload is `PayloadMeaning.PayloadMeansRequest` |
| `PayloadMeaning.PayloadMeansRequest` | src/prismpipe/document/vectorize.py:336-425 | a payload is accepted as a request if and only if every field of the request is the stated entry of the payload (documentType, schemaId and schemaVersion from the root where it has the key, even null, otherwise from the document; absent or null optionals None, absent lists empty, absent flags false) and the request is well formed and related |
| `PayloadMeaning.ContradictionIsRejected` | src/prismpipe/document/vectorize.py:914-924 | a payload whose root and document give different non-null values for documentType, schemaId or schemaVersion is rejected, whatever else it says |
| `PayloadMeaning.StorageMeaning` | src/prismpipe/document/vectorize.py:38-85 | the same equivalence for storage references |
| `PayloadMeaning.DocumentMeaning` | src/prismpipe/document/vectorize.py:113-133 | for document references |
| `PayloadMeaning.ChunkMeaning` | src/prismpipe/document/vectorize.py:159-192 | for chunks |
| `PayloadMeaning.ArtifactMeaning` | src/prismpipe/document/vectorize.py:252-283 | for artifact requests |
| `PayloadMeaning.OptionsMeaning` | src/prismpipe/document/vectorize.py:214-233 | for options |
| `VectorizeInput.ValidateRelationships` | src/prismpipe/document/vectorize.py:427-478 | the loop reports the first problem, and reports none exactly when the request's fields are related |
| `VectorizeInput.NoProblemIffRelated` | src/prismpipe/document/vectorize.py:427-478 | stopping at the first problem accepts exactly: score in range, same document, paired schema fields, chunk ids distinct, indices equal to positions, content present, dimensions agreeing |
| `VectorizeInput.ChunksRoundTrip` | src/prismpipe/document/vectorize.py:357-365 | a chunk list is read back unchanged exactly when every chunk is well formed, and rejected otherwise |
| `VectorizePayload.StorageRoundTrip` | src/prismpipe/document/vectorize.py:38-98 | both directions for storage references, with the uri, key and bucket rules |
| `VectorizePayload.DocumentRoundTrip` | src/prismpipe/document/vectorize.py:113-143 | both directions for document references |
| `VectorizePayload.ChunkRoundTrip` | src/prismpipe/document/vectorize.py:159-203 | both directions for chunks |
| `VectorizePayload.ArtifactKeepsPayload` | src/prismpipe/document/vectorize.py:252-293 | an accepted artifact request is well formed field by field and is written back as the very payload it was read from |
| `VectorizePayload.ArtifactRoundTrip` | src/prismpipe/document/vectorize.py:252-293 | an artifact request is read back unchanged exactly when its kept payload carries the allowed fields with the stored, acceptable values |
| `VectorizePayload.OptionsRoundTrip` | src/prismpipe/document/vectorize.py:214-240 | both directions for options |
| `RequestIdentity.SameFingerprintIffSameRequest` | src/prismpipe/document/processing.py:638-639 | accepted payloads share a fingerprint exactly when they were read as the same request |
| `RequestIdentity.KeyOfAcceptedRequest` | src/prismpipe/document/processing.py:613-635 | the key of an accepted request never uses the message id nor an operationId of the payload |
| `RequestIdentity.KeyOfAnyPayload` | src/prismpipe/document/processing.py:613-635 | the key of any payload, valid or not: which payload entry or header gives each part, and that the message id takes part exactly when route, correlation and operation id say nothing |
| `RequestIdentity.ConflictIffDifferentRequest` | src/prismpipe/document/processing.py:93-121 | two accepted requests, each with its own headers, share a key exactly when document, version, route, effective correlation and header operation id agree, and conflict exactly when they then differ as requests |
| `ChunkContent.ResolveChunkContent` | src/prismpipe/document/processing.py:318-358 | inline text stays, each other chunk gets its decoded content, or the first chunk that cannot be filled is reported with its error |
| `ChunkContent.AcceptedChunksHaveAnAddress` | src/prismpipe/document/processing.py:318-358 | a chunk of an accepted request keeps its text, or is loaded from the stated address and filled with exactly what the content there says; its failure is retryable exactly when storage is unavailable |
| `ChunkContent.SecondParse` | src/prismpipe/document/processing.py:364-367 | the node accepts the loaded request, unchanged, exactly when no chunk text is whitespace only |
| `Swarm.Partition` | src/prismpipe/engine/__init__.py:1221-1231 | partitions come out in the order their keys first appear, each holding exactly its items in order |
| `Swarm.PartsHoldTheData` | src/prismpipe/engine/__init__.py:1221-1229 | partitioning loses and duplicates nothing |
| `Swarm.PartitionsAreInOrder` | src/prismpipe/engine/__init__.py:1221-1231 | each partition holds the items at the positions of one key, in order, and partitions come in the order their keys first appear |
| `Swarm.CoverageIffOnePartitionEach` | src/prismpipe/engine/__init__.py:1231-1236 | the workers process every item exactly once if and only if there are as many partitions as workers |
| `Swarm.RoundRobinCovers` | src/prismpipe/engine/__init__.py:1226-1236 | with at least as many items as workers the workers' data is a permutation of the data |
| `Swarm.RoundRobinRepeats` | src/prismpipe/engine/__init__.py:1226-1236 | for any data with fewer items than workers, the item at position j is processed exactly the rounded-up (W - j) / n times |
| `Swarm.TimesProcessed` | src/prismpipe/engine/__init__.py:1231-1236 | the exact number of times each position is processed, for any partition function and any number of workers |
| `Swarm.SharesByPosition` | src/prismpipe/engine/__init__.py:1221-1236 | what a worker is given depends on positions and keys only, so repeated items are counted by position |
| `Swarm.SwarmCoordinator.ExecuteSwarm` | src/prismpipe/engine/__init__.py:1201-1301 | the worker loop with cached outcomes, failures, exceptions and fail-fast: results, error count, graph and reduction |
| `Swarm.CachingIsInvisible` | src/prismpipe/engine/__init__.py:1248-1281 | when the node succeeds, every worker contributes the node's result whatever the graph holds or forgets |
| `Swarm.ResultsPlusErrors` | src/prismpipe/engine/__init__.py:1239-1296 | without fail-fast every worker is a result or an error |
| `Swarm.FailuresAreCountedOnce` | src/prismpipe/engine/__init__.py:1247-1287 | while nothing is forgotten the error count is the number of distinct failing partitions |
| `Swarm.FailFastErrors` | src/prismpipe/engine/__init__.py:1247-1296 | fail-fast raises exactly when some worker is neither answered from the graph nor successful, and for the first such worker: two errors for a returned failure, one for an exception, none otherwise |
| `Swarm.OneWorkerTwoErrors` | src/prismpipe/engine/__init__.py:1306-1311 | so one worker can report two errors, an error rate of 2 |
| `Swarm.SwarmSums` | src/prismpipe/engine/__init__.py:1201-1301 | a summing node and reducer over round robin give the sum of the data |
| `BoundedExecutor.Conservation` | src/prismpipe/core/node.py:55-107 | in every interleaving an accepted future is in exactly one of: one queue slot, one thread, the hands of a shutdown, or settled; inside it is settled only if its caller withdrew it |
| `BoundedExecutor.Bounded` | src/prismpipe/core/node.py:34-70 | never more than max_pending queued nor max_workers held |
| `BoundedExecutor.NothingAfterShutdown` | src/prismpipe/core/node.py:62-81 | once the flag is set nothing is accepted, and the queue is empty whenever no shutdown is at work |
| `BoundedExecutor.CalledAtMostOnce` | src/prismpipe/core/node.py:91-107 | a function is called at most once and never after its future was withdrawn |
| `BoundedExecutor.FirstInFirstOut` | src/prismpipe/core/node.py:55-107 | in every reachable state the queue is the tail of what was accepted, in order, and whatever is settled was run unless its caller withdrew it or the executor was shut down |
| `BoundedExecutor.NobodyIsLeftWaiting` | src/prismpipe/core/node.py:72-107 | when the shutdown is through and all threads have returned, every accepted future is settled |
| `BoundedExecutor.ShutdownProgresses` | src/prismpipe/core/node.py:72-107 | after the flag is set, every step of a thread or of the drain uses up remaining work |
| `BoundedExecutor.ShutdownIsNeverStuck` | src/prismpipe/core/node.py:72-107 | while work remains some thread or the drain can step |
| `BoundedExecutor.ShutdownEffect` | src/prismpipe/core/node.py:72-81 | an undisturbed shutdown empties the queue and cancels exactly the queued futures still pending |
| `BoundedExecutor.NextKeeps` | src/prismpipe/core/node.py:55-107 | every step keeps the executor's invariant |
| `BoundedExecutor.BoundedDaemonExecutor.Submit` | src/prismpipe/core/node.py:55-70 | refused after shutdown, refused when full, appended to the queue otherwise |
| `BoundedExecutor.BoundedDaemonExecutor.Shutdown` | src/prismpipe/core/node.py:72-81 | the drain loop is the run of steps begin, take and cancel for each queued future, end; afterwards the queue is empty and exactly the queued pending futures are cancelled |
| `BoundedExecutor.BoundedDaemonExecutor.WorkerRound` | src/prismpipe/core/node.py:91-107 | one undisturbed round of a worker is the corresponding run of steps: the first queued future is run to its end, or skipped if cancelled |
| `BoundedExecutor.BoundedDaemonExecutor.Withdraw` | src/prismpipe/core/node.py:55-70 | a caller's cancel takes effect only on a pending future |

## Left out

- CacheRuns.HitsAreRecent: asks for accurate TTL readings of the capability, because an unreadable one breaks the bound as CacheFreshness.UnreadableKeepsBoundIffYoung says; TTL reading and clock reading count as one instant.
- OrganismExecutor.OrganismExecutor.Execute: covers one worker without Redis, and waits for a flight a number of times given as a parameter; several workers and the shared tier are covered by SharedExecution.SharingPreservesMeaning.
- OrganismExecutor.OrganismExecutor.HopOnce: the same, for one hop.
- OrganismExecutor.OrganismExecutor.RunNode: nodes are functions of capability, input and state; nodes that mutate their input are not modelled.
- SingleFlight.EarlyResolveBreaksExclusion: of the Redis flight lock only its effect, ending a flight early, appears; mutual exclusion is proved without Redis.
- CacheAccounting.FoldAverages: latencies are real numbers; floating-point rounding is not modelled.
- ComputationGraph.ComputationGraph.RegisterComputation: child ids, capability statistics, output hashes, success rates and genealogy are not modelled.
- ComputationGraph.ComputationGraph.HydrateFromRedis: a shared payload that is not JSON or has no node id is not modelled; the only writer, `_store_redis`, writes neither.
- OperationStore.SQLiteDocumentOperationStore.FinishOperation: only the three final statuses, which is all the callers pass.
- OperationStore.SQLiteDocumentOperationStore.ClaimOperation: rows written before the claim_token column existed are excluded from the runs.
- ProtocolDrains.PendingIsAttemptedInRun: assumes that timestamps of final rows strictly advance whenever the table is written; timestamps of finish and publication updates are the commit clock.
- VectorizeRequest.ParsesOk: a rejected payload is reported by the path of its field instead of the whole message; integers too large for a float are not modelled.
- ChunkContent.ResolveChunkContent: decoding of bytes is a given; the loop runs without cancellation.
- Swarm.SwarmCoordinator.ExecuteSwarm: workers differ only in their partition, so a cache key is the partition; capability lookup and organism bookkeeping are not modelled.
- BoundedExecutor.BoundedDaemonExecutor.Shutdown: waiting for threads with a deadline is not modelled.
- `persist_computation_to_redis` (src/prismpipe/engine/__init__.py:473-502) is never called.
- The validation of backend results (src/prismpipe/document/vectorize.py:811-860) is a sequence of independent checks.
- `commit_envelope` and node timeouts (src/prismpipe/core/node.py:121-260): deep copies of declared fields and asyncio deadlines.
- The mapping from envelope kinds to stream names (src/prismpipe/deepiri_bus.py:67-90) is a table lookup.
- The node's writing of its result or error into the envelope, and the vectorizer backend itself, are the outcome parameter of the processor.
- Start and stop of the consumer, its semaphore and the asyncio lifecycle.
- SQL text, SQLite locking, threads and event-loop scheduling below the level of a transaction or of a stretch between awaits.
- The Redis Streams adapter, file storage, HTTP server and clients, metrics, logging and configuration.
- `PrismEngine.execute` and `ParallelExecutor`, whose loops have no hop bound, and the `prismpipe.organic` packages.
