# Verified models of the search platform's core protocols

Dafny models of the parts of the platform whose correctness spans many calls, workers or releases, with
machine-checked proofs of what they promise. Each module follows one component of the repository.

| Module | Component |
|---|---|
| `Json`, `Ordering`, `Encoding` | JSON values, canonical order of text, UTF-8 and base64 (RFC 4648, section 4) |
| `EventEnvelope`, `EventPayloads` | identities, keys, digest and the strict parser of version 2 indexing events, and the payloads it accepts |
| `CheckpointStore` | classification of an event against a checkpoint, keys, the in-memory store and its session |
| `FencedIndexing`, `Convergence` | the fan-out protocol as a step system over any number of workers, and its convergence |
| `Consumer`, `Retries`, `AttemptRuns` | the worker's two passes and its retry loop as they run, and their refinement to the step system |
| `Offsets` | offset commits of the poll loop |
| `LockRegistry`, `AdvisoryLocks`, `FenceScopes` | the reference-counted fence registry, its PostgreSQL form in signed 64-bit lock numbers, and the protocol running inside either |
| `AuditDelivery` | page verification of the audit chain, the delivery cursor, racing delivery workers |
| `OutboxRetention` | bounded batch deletion beside other sessions |
| `DlqResolver`, `ReplayPayloads`, `QuarantineExamples`, `DlqLedger` | quarantine wrapper, replay validation, one resolver call, the records it reads and replays, records that show where worker and resolver part, and overlapping calls |
| `Comparing`, `OpenApiSchemas`, `OpenApiCompat`, `OpenApiChains` | how Python compares JSON values and where it raises, the comparisons of the compatibility gate on released contracts, and chains of releases |
| `OpenApiPromises`, `OpenApiGate`, `OpenApiRaising` | what a contract promises its clients, place by place, the gate proved against it, and when the gate raises |
| `Rollouts` | the rollout transition table and the documented read and write coverage |

Code that changes state is modelled by classes and methods with loops; each is proved to compute a
specification function, and the properties are proved of those functions or of step systems that the functions
refine. What decides an outcome is in each case also stated apart from the function that computes it, from the inputs
alone, and the two are proved to agree. Concurrency is a step system: a state, actions with guards, and theorems over
all finite runs.

`dafny verify dfyconfig.toml` checks everything.

## How the outside world appears

- SHA-256 is a datatype constructor over canonical material, so equal digests mean equal material. JSON encoding
  is a bijection: records carry JSON values and, where it matters, their size in bytes.
- Which characters are printable, the text of numbers with a fraction and of nested values, and the formats of
  timestamps and trace headers are functions in `TextRules`. Identifiers, lower-casing, stripping, operations and
  delete filters are written out.
- Failing calls, clocks, acknowledgements, locks held by others and commits of other sessions are parameters or
  nondeterministic actions. A failing target call has no effect. A DLQ flush that returns means the message is durable.
- Steps that the code performs under one lock or in one SQL statement are one step here: registration and
  deregistration under the guard, `advance` under its row lock, one retention batch, and the resolver's check of
  the offset together with its commit.

## Where the code falls short of a simpler claim

- The poll loop does not seek back after a failure. `Offsets.FailureCanBeOvertaken` gives the run, and
  `Offsets.SafeIffNoOvertaking` the exact condition under which a run passes no unsettled record.
- A resolver call on a partition without a stored offset passes the order check at the first retained record,
  replays it, and then fails to commit. `DlqResolver.ConfirmedCallsSucceedIffStored` gives the exact condition and
  `QuarantineExamples.FirstReplayNeedsAStoredOffset` a record and a call.
- "No errors" of the compatibility gate is not transitive. A null keyword value may be dropped in one release and
  come back different in the next; an empty enum may be dropped and come back as null, which raises.
  `OpenApiSchemas.ChainsHoldIffFirm` and `OpenApiChains.DocumentChainsHoldIffFirm` are exact, for schemas and for
  whole contracts, and construct the two steps (`OpenApiSchemas.LooseSchemaBreaksChains`).
- A contract with a null path, response or media type is reported as incompatible with itself, since the script reads
  null as removed. `OpenApiCompat.DocumentReflexive` is exact, `OpenApiCompat.NullPathFailsItself` gives one.
- The worker accepts some events that replay validation refuses: operations not written in lower case, and upsert
  documents whose id is not the same string. `DlqResolver.AcceptedIsReplayable` is exact; `QuarantineExamples`
  gives one record of either kind.
- A document that readers find need not stay readable: a rollback may end before the write to the active placement
  has arrived. `Rollouts.RollbackCanHide` gives the run, `Rollouts.ReadableStaysReadable` the exact condition, and
  `Rollouts.WaitingRollbackKeepsReadable` what suffices.
- The transition table alone does not protect readers on entering cutover: `Rollouts.ParityIsNeeded` gives a run and
  `Rollouts.ParityDecides` the exact condition.
- Re-saving one and the same checkpoint is accepted in memory and refused by PostgreSQL
  (`CheckpointStore.BackendsDifferOnResaveOnly`); the worker never does it within one attempt.

## Model

| member | source | states |
|---|---|---|
| `EventEnvelope.ParseIdentity` | indexing_service/app/event_envelope.py:270-289 | An accepted identity has a bounded tenant without the key separator, a collection name and a document id in their character sets. |
| `EventEnvelope.ParseTargets` | indexing_service/app/event_envelope.py:133-227 | Accepted targets are a non-empty list of distinct valid names. |
| `EventEnvelope.ParseEvent` | indexing_service/app/event_envelope.py:133-227 | Whatever payload arrives, an accepted event is valid in every field: ids, rollout id, signed 64-bit positive counters, distinct targets, a document exactly on upserts, and a delete filter only on deletions and only of bounded field names and values. |
| `EventPayloads.ParsesIffSpells` | indexing_service/app/event_envelope.py:133-227 | The parser accepts a payload and reads an event from it exactly if the payload spells that event, member by member: which member each field comes from, in which character set, length and range, and which members may be there at all. |
| `EventPayloads.PayloadRoundTrip` | indexing_service/app/event_envelope.py:133-227 | Every event that the parser can produce is read back from its own payload. |
| `EventPayloads.OperationsAreRead` | indexing_service/app/event_envelope.py:133-227 | The name of an operation is read whatever its case and whatever white space surrounds it. |
| `EventPayloads.FiltersAgree` | indexing_service/app/event_envelope.py:133-227 | A delete filter is accepted exactly if it is the clause for this document id, joined to a field name compared with a name or a bracketed list of names. |
| `EventEnvelope.LogicalKeyInjective` | indexing_service/app/event_envelope.py:43-57 | Accepted identities with equal logical keys are equal. |
| `EventPayloads.LogicalKeyReadsBack` | indexing_service/app/event_envelope.py:43-57 | The key of an accepted identity reads back as tenant, collection and document, in this order, at its separators. |
| `EventEnvelope.KafkaKeyInjective` | indexing_service/app/event_envelope.py:43-57 | The UTF-8 Kafka keys of accepted identities are equal exactly for equal identities. |
| `EventEnvelope.DigestBindsMutation` | indexing_service/app/event_envelope.py:392-418 | Two events have the same digest exactly if they ask for the same mutation: they may differ in target order, time and trace, in nothing else. |
| `Ordering.SortedSetIsStrict` | indexing_service/app/checkpoint_store.py:217-219 | Sorting a set of keys gives each of them once, in strictly increasing order. |
| `Ordering.SortEqualIffPermutation` | indexing_service/app/event_envelope.py:392-418 | Sorting the targets forgets their order and nothing else. |
| `Ordering.LessAtFirstDifference` | indexing_service/app/checkpoint_store.py:217-219 | Texts are ordered at their first difference, where one ends or has the smaller character. |
| `CheckpointStore.SlotKeyInjective` | indexing_service/app/checkpoint_store.py:873-886 | Checkpoint keys of accepted (identity, target) pairs are equal only for equal pairs. |
| `CheckpointStore.SavedUnderSlotKey` | indexing_service/app/checkpoint_store.py:847-880 | The key computed from a saved checkpoint is the key computed from the event it was made from. |
| `CheckpointStore.ClassifyComparesEvents` | indexing_service/app/checkpoint_store.py:808-844 | Against the checkpoint of another event: duplicate exactly for the same mutation, apply exactly for another event id with both numbers greater, stale exactly with both smaller, and an error otherwise. |
| `CheckpointStore.StaleMirrorsApply` | indexing_service/app/checkpoint_store.py:808-844 | One event is stale against another exactly if the other would apply after it. |
| `CheckpointStore.ApplyIsAccepted` | indexing_service/app/checkpoint_store.py:328-344 | A checkpoint saved after an apply verdict is accepted by both stores and strictly advances the row. |
| `CheckpointStore.BackendsDifferOnResaveOnly` | indexing_service/app/checkpoint_store.py:551-586 | The in-memory and the PostgreSQL save conditions differ on one case only: saving the same point again. |
| `CheckpointStore.InMemoryCheckpointStore.CommitStaged` | indexing_service/app/checkpoint_store.py:346-357 | Commits all staged rows exactly if none has a smaller number than the row it replaces, or stops at one that has; no row is lost and none gets a smaller number either way. |
| `CheckpointStore.EventSession.Load` | indexing_service/app/checkpoint_store.py:259-268 | Staged rows shadow stored ones, and only fenced targets of the session's event are read. |
| `CheckpointStore.EventSession.Save` | indexing_service/app/checkpoint_store.py:270-275 | Stages a checkpoint exactly if its target is fenced and the stored row is missing, has both numbers smaller, or is the same point; otherwise changes nothing. |
| `FencedIndexing.StepKeepsProtocol` | indexing_service/app/checkpoint_store.py:300-307 | Every step of any number of fenced attempts keeps the protocol invariant: disjoint fences, plans that still describe the committed rows, staged rows that are exactly the planned changes. |
| `FencedIndexing.StepKeepsAgreement` | indexing_service/app/consumer.py:743-812 | Every step keeps content and checkpoint in agreement for copies no open attempt has changed, and content and event for those one has. |
| `FencedIndexing.AgreementInEveryRun` | indexing_service/app/consumer.py:697-822 | In every run of any number of workers with failing calls, duplicates and any delivery order, each untouched copy holds what the event of its checkpoint carries, and the checkpoint records that event: its identity, numbers, operation and whether it left a tombstone. |
| `FencedIndexing.CheckpointsOnlyAdvance` | indexing_service/app/checkpoint_store.py:328-357 | Over every run no row is lost, and a row changes only to a point with both coordinates strictly greater. |
| `FencedIndexing.WriteIsNeverObsolete` | indexing_service/app/consumer.py:704-765 | When an event changes a target, none of its own targets has a newer checkpoint, committed or staged by anyone, and the changed one has a strictly older one. |
| `FencedIndexing.EachTargetWrittenOnce` | indexing_service/app/consumer.py:458-530 | Over every run, two changes of one copy come from events in strictly increasing order; so no mutation changes a target twice, however often it is redelivered. |
| `Convergence.BelowNeverApplies` | indexing_service/app/checkpoint_store.py:808-844 | Against the checkpoint of the greatest event, an older event is stale and a repetition is a duplicate. |
| `Convergence.Converges` | indexing_service/app/consumer.py:697-822 | Once an attempt of the greatest event of a document finishes, each of its targets holds what that event carries, and its checkpoint, for good, whatever came before, is open, or comes later. |
| `Convergence.OrderIndependence` | indexing_service/app/consumer.py:697-822 | Two histories that both finish the greatest event leave its targets in the same state. |
| `Consumer.PlanTargets` | indexing_service/app/consumer.py:704-741 | The first pass judges the targets in order against the committed rows before any is changed; it stops exactly at the first that has no client or whose row contradicts the event, and says which of the two. |
| `Consumer.PlanIsDecided` | indexing_service/app/consumer.py:704-741 | The plan ends for want of a client exactly if some target has none while all before it have one and do not contradict; for a contradiction likewise; and otherwise it lists the verdict on every target. |
| `Consumer.ApplyTargets` | indexing_service/app/consumer.py:743-812 | The second pass changes and saves the planned targets in order, and stops at the first failing call with the work before it staged; no save is refused. |
| `Consumer.NothingToApply` | indexing_service/app/consumer.py:743-765 | A plan with one stale target, or with no new one, changes nothing. |
| `Consumer.ProcessV2Event` | indexing_service/app/consumer.py:697-822 | Which of the six labels an attempt ends with is told, exactly, by the clients, the committed rows and the targets that are down; one that ends in an ordering or missing-cluster error, as stale or as duplicate, has written nothing and saved nothing. |
| `Consumer.AttemptIsDecided` | indexing_service/app/consumer.py:697-822 | Each outcome exactly when: missing cluster and contradiction at the first such target, stale if some target is and none of these, duplicate if all are, a failed call if some target to be changed is down, and applied otherwise. |
| `Consumer.AttemptLeaves` | indexing_service/app/consumer.py:743-812 | Exactly the calls, changes and new rows an attempt leaves: the targets judged new, in order, up to the first that is down, all of them with a client, each changed to what the event carries and saved as its checkpoint. |
| `Consumer.ProcessInScope` | indexing_service/app/checkpoint_store.py:300-307 | Partial progress is committed also after a failure, the commit is never refused, rows only advance, and calls, contents and rows are exactly those of the targets reached. |
| `Consumer.ReadMessage` | indexing_service/app/consumer.py:825-839 | A message is read as an event exactly if it parses as it and travels under the key of its own identity. |
| `Consumer.ProcessMessage` | indexing_service/app/consumer.py:610-650 | A message that cannot be read leaves rows and targets as they were; any other is one fenced attempt. |
| `Retries.RetryMessage` | indexing_service/app/consumer.py:458-556 | The retry loop makes the attempts and ends as specified: retry failed calls, fence timeouts and load errors, refresh on a missing cluster, give up at once on contradictions, quarantine or raise at the end. |
| `Retries.ProcessMessageWithRetries` | indexing_service/app/consumer.py:458-556 | The call reports the message processed exactly if an attempt that the loop makes completes from the state the loop has then; it returns quarantined only after a DLQ acknowledgement and raises only if no attempt completed and the quarantine was unavailable or unacknowledged or a client refresh failed. |
| `Retries.ReturnsIffSettled` | indexing_service/app/consumer.py:458-556 | Told by the attempts the loop makes, each from the state the one before it left: processed exactly if one completes, which is then the last; quarantined exactly if none does, the last one did not end in a failed refresh, and the DLQ acknowledges; the final rows and targets are the last attempt's. |
| `Retries.NextAttempt` | indexing_service/app/consumer.py:458-530 | The first attempt is always made; after attempt n one more is made exactly if n is below max(1, max_attempts) and this one ended in a failed call, without fences or rows, or without a cluster that a refresh then supplied; it starts from what attempt n left. |
| `Retries.AllAttemptsAreMade` | indexing_service/app/consumer.py:475-530 | If every attempt fails in passing, exactly max(1, max_attempts) of them are made. |
| `Retries.LastAttemptDecides` | indexing_service/app/consumer.py:531-556 | The attempt after which no other is made decides: processed if it applied or found the event stale or duplicate, raised if its refresh failed, else quarantined exactly if the DLQ is there and acknowledges, else raised; rows and targets are what it left. |
| `Retries.HopelessLeavesNoTrace` | indexing_service/app/consumer.py:490-504 | A contradicting or unreadable event is given up after one attempt without touching rows or targets. |
| `AttemptRuns.AttemptIsARun` | indexing_service/app/consumer.py:697-822 | Refinement: the code's attempt is a run of protocol steps, all of one worker, with the same rows and contents; the target calls it makes are the writes of the run, call by call; it finishes exactly when the code reports no error. |
| `AttemptRuns.CompletedDeliverySettles` | indexing_service/app/consumer.py:814-822 | A delivery that the code completes leaves each of its targets with its effect and checkpoint, if nothing recorded supersedes it. |
| `AttemptRuns.RetriesAreARun` | indexing_service/app/consumer.py:458-556 | The whole retry loop is a run of the protocol, all of one worker, with the same rows and contents and with the loop's target calls as its writes. |
| `AttemptRuns.RetriesWriteOnce` | indexing_service/app/consumer.py:458-556 | Of all target calls that the retry loop makes for one event, no two are for the same target, and all carry the event. |
| `Offsets.Partition.HandleBatch` | indexing_service/app/consumer.py:380-438 | The inner poll loop handles records in order, each through the retry loop on the rows and targets the ones before it left, commits after each settled one and leaves the batch at the first that is not. |
| `Offsets.BatchCommitsPrefix` | indexing_service/app/consumer.py:380-438 | A batch commits one past a prefix of its records and settles at most one record more. |
| `Offsets.BatchStops` | indexing_service/app/consumer.py:380-438 | The committed prefix of a batch is exactly the records up to the first that is not justified or whose commit is refused, each with the rows and targets the ones before it left. |
| `Offsets.SettledIffJustified` | indexing_service/app/consumer.py:380-438 | A record is settled exactly if some attempt that the retry loop makes completes it, or the last one does not and the DLQ acknowledges; one that is not JSON, exactly if the DLQ acknowledges it. |
| `Offsets.ResumingIsSafe` | indexing_service/app/consumer.py:372-438 | If every poll resumes at the committed offset, no unsettled record is ever passed. |
| `Offsets.SafeIffNoOvertaking` | indexing_service/app/consumer.py:372-438 | Without a seek, a run passes no unsettled record exactly if no batch that leaves a record behind is followed by one that commits. |
| `Offsets.FailureCanBeOvertaken` | indexing_service/app/consumer.py:425-438 | A concrete run in which the loop, as written, passes a failed record: the next poll goes on behind it and commits. |
| `LockRegistry.Registry.Enter` | indexing_service/app/checkpoint_store.py:217-228 | Registration takes the requested keys once each and in order, creates or shares the lock object of each, and counts one user more for exactly those keys. |
| `LockRegistry.Registry.Leave` | indexing_service/app/checkpoint_store.py:241-247 | Deregistration of captured entries takes one user from each of their keys and from no other, and drops an entry exactly when its count reaches zero. |
| `LockRegistry.RegisterEffect` | indexing_service/app/checkpoint_store.py:217-228 | Registering distinct keys adds one user to each and leaves every other entry alone. |
| `LockRegistry.DeregisterEffect` | indexing_service/app/checkpoint_store.py:241-247 | Deregistering takes exactly one user from each key and leaves every other entry alone. |
| `LockRegistry.MutualExclusion` | indexing_service/app/checkpoint_store.py:208-247 | In every run, all threads that use a key share one lock object, and no two are inside its fence, although lock objects are dropped and recreated. |
| `LockRegistry.EntryIffUsed` | indexing_service/app/checkpoint_store.py:208-247 | A key has an entry exactly while its count is positive, and the count is the number of threads between registration and deregistration. |
| `LockRegistry.NothingLeaks` | indexing_service/app/checkpoint_store.py:230-247 | A thread that has left, by return, error or timeout at any lock, holds no lock and is counted nowhere: every count is the number of other threads that use the key; with nobody left the table is empty. |
| `LockRegistry.DeadlockFree` | indexing_service/app/checkpoint_store.py:217-247 | While any thread is inside, some thread can take a step other than timing out. |
| `LockRegistry.FreeFencesAreEntered` | indexing_service/app/checkpoint_store.py:217-240 | Fences that no thread uses can be entered at once: inside, the thread holds the lock of every key it asked for. |
| `LockRegistry.CanLeave` | indexing_service/app/checkpoint_store.py:230-247 | From wherever a thread is, waiting at any lock or inside, steps of its own take it out, and all the others keep what they have. |
| `AdvisoryLocks.LockKey` | indexing_service/app/checkpoint_store.py:889-892 | The lock number is the prefix or 2^64 less, whichever lies in the signed 64-bit range. |
| `AdvisoryLocks.KeysAreHex` | indexing_service/app/checkpoint_store.py:883-886 | A fence key is sixty-four lower-case hex digits, each worth its place among 0 to f. |
| `AdvisoryLocks.LockKeyInjectiveOnPrefixes` | indexing_service/app/checkpoint_store.py:889-892 | Two keys share a lock number exactly if they share their first sixteen hex digits. |
| `AdvisoryLocks.HexOrder` | indexing_service/app/checkpoint_store.py:883-892 | On hex strings of one length the order of the text is the order of the numbers. |
| `AdvisoryLocks.PrefixIsMonotone` | indexing_service/app/checkpoint_store.py:883-892 | Sorted keys have nondecreasing unsigned prefixes. |
| `AdvisoryLocks.FencesExclude` | indexing_service/app/checkpoint_store.py:702-722 | Two open transactions never hold the same advisory lock, so none shares a fenced key with another. |
| `AdvisoryLocks.TransactionsBegin` | indexing_service/app/checkpoint_store.py:702-722 | A new transaction may ask for any sorted keys, and holds none of them yet. |
| `AdvisoryLocks.DeadlockFree` | indexing_service/app/checkpoint_store.py:702-722 | Transactions that lock their sorted keys one by one never all wait, although the signed lock numbers are not sorted. |
| `AdvisoryLocks.EndingFreesItsLocks` | indexing_service/app/checkpoint_store.py:702-722 | A transaction may be rolled back at any time and committed exactly when it holds all its fences; either frees its locks and no others. |
| `FenceScopes.FencedEventsMayBegin` | indexing_service/app/checkpoint_store.py:299-307 | Inside the fences of all its targets an event meets the protocol's guard: no open attempt covers any of its keys. |
| `FenceScopes.JointRunsAreProtocolRuns` | indexing_service/app/consumer.py:652-665 | Any interleaving of workers with fences that exclude each other is, for the workers, a run of the protocol. |
| `FenceScopes.RegistryStepsAreFenceSteps` | indexing_service/app/checkpoint_store.py:208-247 | Every step of the fence registry keeps the fences exclusive and takes none from a thread that works inside it. |
| `FenceScopes.TransactionStepsAreFenceSteps` | indexing_service/app/checkpoint_store.py:702-722 | Every step of the advisory-lock transactions keeps the fences exclusive and takes none from an open attempt. |
| `FenceScopes.SystemRunsAreProtocolRuns` | indexing_service/app/consumer.py:652-665 | Every run of workers together with the fence registry, or with the advisory-lock transactions, is for the workers a run of the protocol; the only rules are the locks' own, that an event begins inside its fences and that they are left after its attempt is closed. |
| `FenceScopes.UnusedIsGood` | indexing_service/app/consumer.py:652-665 | Unused locks of either kind and a world without open attempts meet the invariant that runs of locks and workers start from. |
| `FenceScopes.WorkersBehindLocksAgree` | indexing_service/app/consumer.py:652-665 | From unused locks and a settled world on, with either kind of locks and no assumption of exclusion, each copy that no open attempt has changed holds the effect of the event its checkpoint records. |
| `AuditDelivery.VerifyPage` | query_api/app/control_plane/audit_delivery.py:423-451 | Accepts a page exactly if every record has the next number, names the hash of the one before and is hashed over all that it says. |
| `AuditDelivery.LinkedSplits` | query_api/app/control_plane/audit_delivery.py:423-451 | A page may be cut anywhere: the whole verifies exactly if both parts do. |
| `AuditDelivery.PageIndependence` | query_api/app/control_plane/audit_delivery.py:423-451 | Verifying page by page, with any page sizes, accepts exactly what one pass accepts. |
| `AuditDelivery.ChainUniqueness` | query_api/app/control_plane/integrity.py:63-97 | Two accepted pages from one checkpoint with the same end hash are equal throughout. |
| `AuditDelivery.BackoffIsCappedAndMonotone` | query_api/app/control_plane/audit_delivery.py:380-386 | Waits start at the base, never shrink as failures repeat, double until the cap and stay there from the tenth failure on. |
| `AuditDelivery.Repository.Fetch` | query_api/app/control_plane/audit_delivery.py:179-232 | Defers exactly if the cursor is known to the chain and its retry time is in the future; reports an integrity error exactly if the cursor is not known or the next page is not chained to it; otherwise hands out exactly that page. |
| `AuditDelivery.FetchIsDecided` | query_api/app/control_plane/audit_delivery.py:179-232 | The same of the specification, for every chain, damaged or not, every cursor and page size, and every head that was read before the page; a head behind the cursor is an integrity error too. |
| `AuditDelivery.Repository.AdvanceTo` | query_api/app/control_plane/audit_delivery.py:234-274 | The cursor moves exactly to a later acknowledged point whose hash is the chain's there, and forgets its failures; otherwise it stays, and the answer says whether a repeated acknowledgement names it. |
| `AuditDelivery.AdvanceIsDecided` | query_api/app/control_plane/audit_delivery.py:234-274 | The same of the specification, for every chain, cursor and acknowledgement. |
| `AuditDelivery.Coordinator.DeliverOnce` | query_api/app/control_plane/audit_delivery.py:361-406 | After an exact acknowledgement the cursor stands behind the batch without failures; after every other answer, also a wrong acknowledgement of a batch taken in part, it stands where it did with one failure more, the reason, and the time of the next try. |
| `AuditDelivery.ReadingNeverFails` | query_api/app/control_plane/audit_delivery.py:179-232 | On a valid chain, reading from any good cursor, also an outdated one, reports no integrity error and makes progress. |
| `AuditDelivery.AuditCoverage` | query_api/app/control_plane/audit_delivery.py:361-406 | In every run of racing workers, appends and sinks that fail or acknowledge wrongly after taking any part of a batch: every record at or below the cursor was accepted, the cursor never moves back and carries its record's hash. |
| `AuditDelivery.LoneDeliveryProgresses` | query_api/app/control_plane/audit_delivery.py:361-406 | A worker that is alone, and neither waits nor has everything, reads the next page, and its steps do to the cursor and the sink what one call of the coordinator does. |
| `AuditDelivery.CommitGoesForward` | query_api/app/control_plane/audit_delivery.py:234-274 | Of racing workers, one that commits moves the cursor behind its batch, unless another has been there already, and then leaves it alone. |
| `AuditDelivery.AppendsAndReports` | query_api/app/control_plane/audit_delivery.py:276-306 | An append adds one record under the next number; a reported failure adds one to whatever the cursor's count is by then, with reason and time. |
| `OutboxRetention.Batch` | scripts/ops/outbox_retention.py:406-462 | A batch has the limit's size or takes all there is. |
| `OutboxRetention.BatchIsOldestFirst` | scripts/ops/outbox_retention.py:406-462 | Every row taken comes before every unlocked candidate passed over. |
| `OutboxRetention.OldestAndNewestAreRange` | scripts/ops/outbox_retention.py:381-404 | The reported range is attained and bounds all rows it is about. |
| `OutboxRetention.PostgresRetention.ProcessTable` | scripts/ops/outbox_retention.py:613-690 | The method computes the specified run for every behaviour of other sessions: refusals, dry run, batches, rising backlog, final recount. |
| `OutboxRetention.RunFollows` | scripts/ops/outbox_retention.py:654-690 | What a run does, turn by turn, told by the table each turn finds: it counts the backlog, stops if that is above the first count or the limit, and deletes the first unlocked rows that may go; it ends when the turns are used up or nothing is left to delete. |
| `OutboxRetention.RisingIffOver` | scripts/ops/outbox_retention.py:654-665 | A run that was not refused ends as rising exactly if some recount shows more unpublished rows than the first count or than the limit. |
| `OutboxRetention.PublishersNeverStopARun` | scripts/ops/outbox_retention.py:654-665 | Sessions that only publish never stop a run. |
| `OutboxRetention.ReportIsTruthful` | scripts/ops/outbox_retention.py:381-404 | A completed run reports the unpublished rows and candidates there were first, the range of the candidates, and the range of the rows it deleted. |
| `OutboxRetention.NewestSurvives` | scripts/ops/outbox_retention.py:406-462 | If superseded rows go all at once, a row of the stream at least as new stays. |
| `OutboxRetention.DeletingKeepsCandidates` | scripts/ops/outbox_retention.py:381-462 | Deleting any candidates leaves the candidate status of every other row as it was. |
| `OutboxRetention.RetentionIsSafe` | scripts/ops/outbox_retention.py:613-690 | Beside any inserts, publications and locks of other sessions, every batch takes only published, aged, unheld rows that a surviving row of the stream supersedes, at a moment when the backlog is within the limit; totals are bounded by batch size times batches and reported truthfully; dry and refused runs touch nothing. |
| `OutboxRetention.StreamsKeepTheirNewest` | scripts/ops/outbox_retention.py:406-462 | No run loses the newest position of a stream that was there at the start or before any batch. |
| `OutboxRetention.BatchingRefinesOneShot` | scripts/ops/outbox_retention.py:654-690 | Without other writers, deleted plus remaining is what was counted first, for every batch size and lock choice, and nothing remains exactly if the table is what one deletion of all candidates leaves. |
| `OutboxRetention.UnlockedRunsUseTheirLimits` | scripts/ops/outbox_retention.py:654-690 | With nothing locked a run deletes as many candidates as its limits allow. |
| `Encoding.Utf8Injective` | indexing_service/app/consumer.py:598-607 | Different texts have different UTF-8 bytes. |
| `Encoding.Base64RoundTrip` | indexing_service/app/consumer.py:598-607 | Strict decoding of what was encoded recovers the bytes. |
| `Encoding.StandardVectors` | indexing_service/app/consumer.py:598-607 | The encoding agrees with the test vectors of section 10 of RFC 4648. |
| `Encoding.StandardAlphabet` | indexing_service/app/consumer.py:598-607 | The digits are those of section 4 of RFC 4648. |
| `Encoding.StandardEncodings` | indexing_service/app/consumer.py:598-607 | Characters of one to four bytes are encoded as in section 7 of RFC 3629, and texts character by character. |
| `Encoding.DecimalDigits` | scripts/ops/dlq_resolver.py:360-361 | Numbers are written in decimal. |
| `DlqResolver.QuarantineRoundTrip` | scripts/ops/dlq_resolver.py:413-518 | What the worker publishes is read back as the same message, key bytes and source coordinates, exactly if it is within the resolver's limits. |
| `ReplayPayloads.ReadsIffWrapped` | scripts/ops/dlq_resolver.py:413-518 | The resolver reads a record exactly if it is a wrapper within the limits, of this topic, with these members and no others, and reads from it what it wraps. |
| `ReplayPayloads.ReplayableIffSpelled` | scripts/ops/dlq_resolver.py:521-629 | Of whatever record, also one that the worker would refuse: it is replayable exactly if it spells, member by member, an event of some identity and targets, under the key of that identity and from the topics of its collection. |
| `DlqResolver.AcceptedIsReplayable` | scripts/ops/dlq_resolver.py:521-629 | A payload that the worker's parser and key check accept is replayable exactly if its operation is plainly written, an upsert's document id is the same string, and the topics match. |
| `DlqResolver.QuarantineIsReplayable` | indexing_service/app/consumer.py:559-607 | From quarantine to replay: an accepted event quarantined within the limits parses, and replays exactly if it is plainly written. |
| `DlqResolver.TokenNamesOneRecord` | scripts/ops/dlq_resolver.py:360-361 | A confirmation token stands for one topic, partition and offset. |
| `DlqResolver.ConfirmationNamesOneRecord` | scripts/ops/dlq_resolver.py:961-1010 | A confirmation, read with either prefix, stands for one action and one record. |
| `DlqResolver.CallsAct` | scripts/ops/dlq_resolver.py:923-1053 | Exactly when a call sends, disposes, plans or inspects: it selected a retained record that reads as a quarantined message and is next in order, and action, validation, reason, approver and the confirmation with its own prefix are as they have to be. |
| `DlqResolver.RefusalsAreNamed` | scripts/ops/dlq_resolver.py:821-1053 | A refused call is refused for the first thing that stands against it, by name: its selection, what Kafka shows, the record, and then crash, commit, order, validation, disposition and confirmation in this order. |
| `DlqResolver.OrderIsEligibility` | scripts/ops/dlq_resolver.py:748-763 | The order check passes exactly on the eligibility that the evidence reports. |
| `DlqResolver.OnlyJustifiedPlans` | scripts/ops/dlq_resolver.py:821-1053 | A call sends or disposes only of the retained record it selected, under the confirmation of this action for this record, a replay only of a record that parses and validates, a disposition only with commit, reason and approver. |
| `DlqResolver.Group.Commit` | scripts/ops/dlq_resolver.py:765-803 | The group offset stays or moves by one from exactly the selected offset; no error is reported exactly if it stood there and Kafka confirmed, and then it moved. |
| `DlqResolver.Group.Resolve` | scripts/ops/dlq_resolver.py:821-1053 | For every answer of Kafka the method computes the specified resolution: offsets stay or move by one past a justified record of a committing call, and nothing is sent or moved unless the call was confirmed with the prefix of its action and the token of its record; success means they moved, inspection and dry runs change nothing. |
| `DlqResolver.ConfirmedCallsSucceedIffStored` | scripts/ops/dlq_resolver.py:923-1053 | A committing call that passed its checks, whose replay was flushed and whose commit Kafka confirmed, succeeds exactly if the partition has a stored offset, and then moves it by one. |
| `QuarantineExamples.FirstReplayNeedsAStoredOffset` | scripts/ops/dlq_resolver.py:765-803 | One quarantined record and one confirmed replay call: with its offset stored it is replayed and committed, with nothing stored it is replayed and then fails to commit. |
| `QuarantineExamples.CapitalsAreRefused` | scripts/ops/dlq_resolver.py:521-629 | An upsert written in capitals is accepted by the worker and refused by replay validation. |
| `QuarantineExamples.NumbersAreRefused` | scripts/ops/dlq_resolver.py:521-629 | An upsert whose document gives its id as a number is accepted by the worker and refused by replay validation. |
| `DlqResolver.CallMovesByOne` | scripts/ops/dlq_resolver.py:923-1053 | Whatever Kafka answers, a call leaves all offsets alone or moves one by one past a confirmed, replayed or disposed record; success means it moved; inspection and dry runs move and send nothing. |
| `DlqResolver.NothingStoredNothingCommitted` | scripts/ops/dlq_resolver.py:398-410 | On a partition without a stored offset the order check accepts the first retained record, but every commit fails, for a replay after the record was sent. |
| `DlqLedger.JournalCoversOffsets` | scripts/ops/dlq_resolver.py:765-803 | The moves cover every offset between the initial and the present one exactly once, in order. |
| `DlqLedger.OffsetLedger` | scripts/ops/dlq_resolver.py:821-1053 | Over every run of overlapping calls, stored offsets never move back, partitions without one never get one, and every passed offset was passed once, after a confirmed replay with acknowledgement or a confirmed disposition by name. |
| `DlqLedger.OneConfirmationOneRecord` | scripts/ops/dlq_resolver.py:821-1053 | Over every run, whatever was sent or committed under one confirmation was one record, and no confirmation moves offsets twice. |
| `DlqLedger.ResolveIsARun` | scripts/ops/dlq_resolver.py:821-1053 | A call that nothing overlaps is a run of the ledger's steps with the same effect. |
| `OpenApiSchemas.CompatibleReflexive` | scripts/ci/openapi-compat.py:22-76 | A schema passes against itself exactly if everything iterated over in it can be iterated over and every bound can be ordered. |
| `OpenApiGate.CompatibleIffUnbroken` | scripts/ci/openapi-compat.py:22-76 | The recursive comparison passes exactly if in every place of the old schema nothing is broken: type, format, $ref, const, pattern and compositions the same, no enum value or property lost, no name newly required, no minimum new or higher and no maximum new or lower, additional properties not closed. |
| `OpenApiSchemas.CompatibleTransitive` | scripts/ci/openapi-compat.py:22-76 | Two passing steps from a schema without null keyword values and empty enums add up to a passing one, through all nesting; passing includes that the comparison does not raise. |
| `OpenApiSchemas.ChainsHoldIffFirm` | scripts/ci/openapi-compat.py:22-76 | From a schema that passes against itself, chains hold end to end exactly if it carries no null keyword value and no empty enum where the comparison looks. |
| `OpenApiSchemas.LooseSchemaBreaksChains` | scripts/ci/openapi-compat.py:22-76 | For every schema that passes against itself and carries a null keyword value or an empty enum, two passing steps whose sum is reported or raises. |
| `OpenApiSchemas.Report.CheckSchema` | scripts/ci/openapi-compat.py:22-76 | The recursive comparison of any two values comes to its end exactly if nothing in it raises; then it has appended errors exactly if the relation fails, kept earlier ones, and every new one names the place or one below it. |
| `OpenApiSchemas.CompatibleIsComparable` | scripts/ci/openapi-compat.py:22-76 | What passes has not raised. |
| `Comparing.NotAboveTransitive` | scripts/ci/openapi-compat.py:62-67 | Bounds that are ordered step by step are ordered end to end, for numbers, texts and nested lists as Python orders them, and comparing the ends does not raise. |
| `Comparing.SameOnPlain` | scripts/ci/openapi-compat.py:31-40 | Equality as the script uses it is equality of values, except across booleans, integers and floats, where it is equality of what they stand for. |
| `Comparing.SameOnNumbers` | scripts/ci/openapi-compat.py:31-40 | Booleans, integers and floats are equal exactly if they stand for the same number. |
| `Comparing.IterationIsTheirs` | scripts/ci/openapi-compat.py:35-41 | Lists yield their items, texts their characters, objects their keys, and nothing else can be gone through; lists and objects cannot be members of a set. |
| `Comparing.FalsyValues` | scripts/ci/openapi-compat.py:102-120 | What counts as false: null, false, zero, and whatever is empty. |
| `Comparing.OrderIsTheirs` | scripts/ci/openapi-compat.py:62-67 | Numbers and texts are ordered as they are, lists by their first difference with a prefix first, and everything else raises. |
| `OpenApiCompat.OperationOverridesPath` | scripts/ci/openapi-compat.py:79-84 | Operation-level parameters override those of the path and leave the others in place. |
| `OpenApiCompat.CollectParameters` | scripts/ci/openapi-compat.py:79-84 | The loop builds the map in which later entries of one name and place win, and raises exactly if one of the lists cannot be iterated over. |
| `OpenApiCompat.DocumentReflexive` | scripts/ci/openapi-compat.py:164-191 | Exactly which contracts pass against themselves: those in which everything looked into can be, and no path, response or media type is null. |
| `OpenApiCompat.NullPathFailsItself` | scripts/ci/openapi-compat.py:164-173 | A contract with a null path is compared with itself without raising and reported as incompatible. |
| `OpenApiCompat.DocumentTransitive` | scripts/ci/openapi-compat.py:87-191 | Two passing steps from a contract without null keyword values and empty enums add up to a passing one through paths, operations, parameters, bodies, responses and shared schemas; passing includes that nothing raises. |
| `OpenApiCompat.ReleasesCompose` | scripts/ci/openapi-compat.py:164-191 | A release without null keyword values and empty enums is compatible with every later one of a chain of accepted releases. |
| `OpenApiCompat.CheckOperation` | scripts/ci/openapi-compat.py:87-161 | Comparing two operations comes to its end exactly if nothing in it raises, and then has appended errors exactly if the relation on operations fails. |
| `OpenApiGate.CollectedIsDeclared` | scripts/ci/openapi-compat.py:79-84 | The declaration of a parameter that counts is the last one of its name and place, those of the path coming before those of the operation. |
| `OpenApiGate.PassingBreaksNothing` | scripts/ci/openapi-compat.py:87-191 | Rejection: if the gate passes, no path, operation, parameter, body, media type, response or shared schema is lost, nothing becomes required, operation ids, security and presentation stay, and nothing is broken in any place of any schema that the contracts have in common. |
| `OpenApiGate.BreakingNothingPasses` | scripts/ci/openapi-compat.py:87-191 | Acceptance: between contracts that pass against themselves, every change that breaks none of these passes, whatever it widens or adds. |
| `OpenApiGate.CompatibilityErrors` | scripts/ci/openapi-compat.py:164-191 | For any two contracts: a list is returned exactly if nothing that is looked into raises; if it is empty nothing of the old contract is broken, and between contracts that pass against themselves exactly then. |
| `OpenApiRaising.ComparableIffReadable` | scripts/ci/openapi-compat.py:22-76 | The recursive comparison comes to its end exactly if in every place that both schemas have, enums and required names can be gone through, new names are texts, and the bounds both have can be ordered. |
| `OpenApiRaising.RaisesOnlyInSchemas` | scripts/ci/openapi-compat.py:87-191 | Between contracts that pass against themselves the gate raises exactly if somewhere the two schemas of one place cannot be read against each other; whatever else has changed is reported. |
| `OpenApiChains.DocumentChainsHoldIffFirm` | scripts/ci/openapi-compat.py:87-191 | From a contract that passes against itself, chains of releases hold end to end exactly if no keyword value, style, explode or allowEmptyValue it compares is null and no enum is empty. |
| `Rollouts.AbandonedStaysAbandoned` | admin_ui/app/lib/routingRollouts.js:1-14 | A rollout that fails, rolls back or is cancelled never completes. |
| `Rollouts.CompletedRuns` | admin_ui/app/lib/routingRollouts.js:1-14 | The runs from draft to completed are exactly those through validating, dual write, one or more rounds of backfill and verifying, cutover and drain. |
| `Rollouts.TableFitsCoverage` | admin_ui/app/lib/routingRollouts.js:1-14 | Rollback can begin exactly from where both placements are written, cancelling is possible exactly before that, failing exactly from where work is under way; terminal phases are exactly those without transitions; what is read is what is written, but for the active placement in cutover and drain. |
| `Rollouts.CoverageNeverLapses` | docs/README.md:296-305 | In every phase of every run the latest accepted version of each document has reached, or is on its way to, a placement that is read; with nothing on its way, readers find exactly it. |
| `Rollouts.AcceptSendsNextVersion` | docs/README.md:296-305 | Accepting gives a document its next version and sends it to exactly the placements that the phase writes. |
| `Rollouts.MoveKeepsReadable` | docs/README.md:296-305 | Entering a phase keeps every version that readers find, or a newer one, readable exactly if it does not end a rollback while the candidate holds what the active placement lacks. |
| `Rollouts.ReadableStaysReadable` | docs/README.md:265-305 | Over every run, what readers find never goes back between any two moments exactly if no rollback ends while the candidate is ahead. |
| `Rollouts.WaitingRollbackKeepsReadable` | docs/README.md:296-305 | It never goes back if rollback is ended only after all writes to the active placement have arrived. |
| `Rollouts.RollbackCanHide` | docs/README.md:296-305 | A run from draft after which a document that readers find is found in no version once the rollback ends. |
| `Rollouts.ParityIsNeeded` | docs/README.md:265-305 | A run up to verifying in which the transition table allows cutover, parity does not hold, and entering cutover would make the one document disappear from reads. |
| `Rollouts.ParityDecides` | docs/README.md:265-305 | With nothing on its way, entering cutover keeps every document readable exactly if the two placements agree. |
| `Rollouts.CopyingReachesParity` | docs/README.md:265-305 | Parity can be reached: where backfill may copy, copies alone bring the candidate to the latest version of everything, and with nothing on its way cutover can then be entered. |

## Left out

- Typesense as a checkpoint store and legacy events: no fencing across processes, no versions, no monotonic save.
- Crashes between a target write and the commit of its scope, lost commits, and failed saves: the worker promises
  at-least-once delivery there, so such runs are outside the agreement and convergence theorems.
- Deletions with a filter: `Effect` removes the document whatever tenant the filter names, while the parser ties a
  filter only to the document id. The producer of events emits matching filters and is not part of this model.
- Two tenants that share a document id in one collection of one target: contents are keyed by the full identity.
- Workers of one store that use different kinds of fences at once: `FenceScopes` joins the protocol to one registry
  or to one database.
- LockRegistry.MutualExclusion: a thread inside one fence does not enter another `hold`; re-entry of the re-entrant
  locks is not part of this model.
- Lock deadlines are a timeout action that may happen at any wait; wall-clock time is not modelled.
- Message values that JSON cannot express, such as NaN, and records that repeat a JSON key.
- The PostgreSQL session appears through its save condition and its locks, not through SQL.
- Text order in SQL (`ORDER BY published_at, id`) is code point order, which a database collation may change.
- AuditDelivery.AuditCoverage: one destination; several destinations have separate cursor rows and share the chain.
- `AuditDeliveryRepository.stats`: it reads a cursor of zero as absent, so its backlog is not the distance to the head.
- Retention policy files, legal-hold snapshots, the job-wide advisory lock and evidence files: validation and I/O.
- Evidence dictionaries, recovery headers and digests in resolver evidence; a payload mutated in memory during replay.
- OpenApiGate.CompatibilityErrors: the order and wording of messages are not specified, only their presence and
  place; contracts whose outermost value is not an object are outside the script's own types.
- Soundness of compatibility as acceptance of values: adding `enum`, `type` or `pattern` is not flagged by the script.
- Deletions in `Rollouts`: documents only gain versions, and a placement keeps the newest it has seen.
- The routing engine, search merge, rollout domain and event store are not part of this model; rollouts are modelled
  from the transition table and the documented coverage.
- Metrics, tracing, logging, readiness probes, settings, authentication, Helm and UI components.
