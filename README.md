# Neo4j schema cache, Bolt FAILED state, Bolt scheduler bookkeeping and the 3.5 schema-store scan, in Dafny

This project models four pieces of Neo4j and proves properties of them.

- **The record storage engine's schema cache** (`schema_cache.dfy`, module `RecordStorage`).
  A `SchemaCacheState` keeps every index rule in four places: by id, by schema, by name, and in the
  lookup set of its schema's entity type. It keeps every constraint rule by id, by name and, when the
  constraint enforces uniqueness, in the uniqueness set of its entity type.
  `SchemaCache` publishes one state at a time. Each update copies the current state, updates the copy
  in place and swaps it in, so a snapshot keeps the contents it was taken with.
  The class fields are the Java maps and sets, and the methods reassign them.
  `CacheContents` is the value of one state. The functions `AddRule`, `RemoveRule`, `CopyOf` and
  `LoadRules` specify the methods, and the lemmas state what those updates mean.
  Two predicates describe agreement between the collections:
  - `Wellformed`: every update keeps it.
  - `Consistent`: the four places agree exactly, in both directions: every entry is a cached rule, and
    every cached rule is filed in each of its places. Removal always keeps it. Adding a rule keeps it when
    its id, schema and name are new; reusing a filed schema or name unfiles the rule filed there before.
- **The FAILED state of the Bolt v4 protocol** (`failed_state.dfy`, module `BoltV4Runtime`).
  `ProcessTransition` is the decision that `process` takes. The class `FailedState` holds the mutable
  interrupted state, and `Process` marks the connection state ignored.
- **The Bolt connection scheduler's bookkeeping** (`executor_bolt_scheduler.dfy`, module `BoltScheduling`).
  It is modelled as a sequential, event-driven state machine over `activeConnections` and
  `activeWorkItems`. Thread pools, futures and the keep-alive timer become events. Every call the
  scheduler makes on a connection, a work item or its pool is appended to a `calls` trace.
- **The 3.5 schema-store scan used by store migration** (`schema_storage35.dfy`, module `LegacySchemaStorage`).
  The store is a function from record id to what reading that record yields.
  `SchemaRuleIterator.FetchNextOrNull` is the cursor loop over `currentId`.
  `ScanIds` is an independent reference scan that visits ids `1..highestId` once each, and
  `ScanAllIsScanIds` proves that the iterator yields exactly what the reference scan yields.

Shared types live in `schema.dfy` (descriptors and rules) and `wrappers.dfy` (`Option`, which stands for a
Java reference that may be null).

Two behaviours of the source that the model keeps as written:
- `ExecutorBoltScheduler.java:240` calls `supplyAsync` on `threadPool`, which is null until `init()`.
  The resulting `NullPointerException` is not a `RejectedExecutionException` (caught at line 242), so it
  escapes `computeIfAbsent` in `handleSubmission` and no work item is installed.
- `SchemaCache.java:476` files an index under the name of the rule as given (`rule.getName()`), while
  `SchemaCache.java:497` removes it under the completed index's own `getName()`.

## Model

| member | source | states |
|---|---|---|
| `RecordStorage.SchemaCacheState.constructor` | community/record-storage-engine/src/main/java/org/neo4j/internal/recordstorage/SchemaCache.java:247-263 | A new state holds exactly the given rules, added in order to empty collections; it is wellformed and its dependant state is empty |
| `RecordStorage.SchemaCacheState.Copy` | community/record-storage-engine/src/main/java/org/neo4j/internal/recordstorage/SchemaCache.java:265-283 | The copy keeps the id, schema and name maps and rebuilds the lookup and uniqueness sets from the id maps (`CopyOf`); its dependant state starts empty |
| `RecordStorage.SchemaCacheState.RefillIndexSets` | community/record-storage-engine/src/main/java/org/neo4j/internal/recordstorage/SchemaCache.java:277-278 | After the loop over the indexes by id, each entity type's lookup set is exactly the cached indexes of that type |
| `RecordStorage.SchemaCacheState.RefillUniquenessSets` | community/record-storage-engine/src/main/java/org/neo4j/internal/recordstorage/SchemaCache.java:279 | After the loop over the constraints by id, each uniqueness set is exactly the cached uniqueness-enforcing constraints of that type |
| `RecordStorage.SchemaCacheState.CacheUniquenessConstraint` | community/record-storage-engine/src/main/java/org/neo4j/internal/recordstorage/SchemaCache.java:285-291 | Only a constraint that enforces uniqueness joins the set of its entity type; nothing else changes |
| `RecordStorage.SchemaCacheState.Load` | community/record-storage-engine/src/main/java/org/neo4j/internal/recordstorage/SchemaCache.java:293-299 | The state becomes the old one with every rule added in iteration order; the dependant state is untouched |
| `RecordStorage.SchemaCacheState.AddSchemaRule` | community/record-storage-engine/src/main/java/org/neo4j/internal/recordstorage/SchemaCache.java:460-479 | The new collections are `AddRule` of the old ones; the dependant state is untouched |
| `RecordStorage.SchemaCacheState.RemoveSchemaRule` | community/record-storage-engine/src/main/java/org/neo4j/internal/recordstorage/SchemaCache.java:481-500 | The new collections are `RemoveRule` of the old ones; the dependant state is untouched |
| `RecordStorage.SchemaCacheState.GetOrCreateDependantState` | community/record-storage-engine/src/main/java/org/neo4j/internal/recordstorage/SchemaCache.java:455-458 | A type already present returns its cached object and changes nothing; otherwise the factory's result is stored under the type and returned |
| `RecordStorage.SchemaCacheState.HasConstraintRuleId` | community/record-storage-engine/src/main/java/org/neo4j/internal/recordstorage/SchemaCache.java:306-309 | A null id is never a constraint rule; a non-null id is one exactly when it is cached as a constraint |
| `RecordStorage.SchemaCacheState.HasConstraintRule` | community/record-storage-engine/src/main/java/org/neo4j/internal/recordstorage/SchemaCache.java:311-314 | The descriptor overload agrees with the lookup by the descriptor's id |
| `RecordStorage.SchemaCacheState.HasIndex` | community/record-storage-engine/src/main/java/org/neo4j/internal/recordstorage/SchemaCache.java:316-319 | An index is present exactly when `getIndex` of its id finds one |
| `RecordStorage.SchemaCacheState.HasIndexForSchema` | community/record-storage-engine/src/main/java/org/neo4j/internal/recordstorage/SchemaCache.java:321-324 | A schema has an index exactly when `indexesForSchema` yields one |
| `RecordStorage.SchemaCacheState.GetIndex` | community/record-storage-engine/src/main/java/org/neo4j/internal/recordstorage/SchemaCache.java:331-334 | Finds an index exactly for a cached id; the index found is one of the cached indexes and carries that id |
| `RecordStorage.SchemaCacheState.IndexesForSchema` | community/record-storage-engine/src/main/java/org/neo4j/internal/recordstorage/SchemaCache.java:336-340 | Yields at most one index, one exactly when the schema is cached, and only an index on that schema |
| `RecordStorage.SchemaCacheState.IndexForName` | community/record-storage-engine/src/main/java/org/neo4j/internal/recordstorage/SchemaCache.java:342-345 | Finds an index exactly when the name is filed. The index found carries the name and is the one `getIndex` finds under its id; in a consistent state every cached index is found by its own name |
| `RecordStorage.SchemaCacheState.ConstraintForName` | community/record-storage-engine/src/main/java/org/neo4j/internal/recordstorage/SchemaCache.java:347-350 | Finds a constraint exactly when the name is filed. The constraint found carries the name and is cached under its id; in a consistent state every cached constraint is found by its own name |
| `RecordStorage.SchemaCacheState.IndexesForLabel` | community/record-storage-engine/src/main/java/org/neo4j/internal/recordstorage/SchemaCache.java:352-355 | Exactly the node indexes whose schema names the label |
| `RecordStorage.SchemaCacheState.IndexesForRelationshipType` | community/record-storage-engine/src/main/java/org/neo4j/internal/recordstorage/SchemaCache.java:357-360 | Exactly the relationship indexes whose schema names the type |
| `RecordStorage.SchemaCacheState.GetIndexesRelatedTo` | community/record-storage-engine/src/main/java/org/neo4j/internal/recordstorage/SchemaCache.java:362-367 | Exactly the indexes of the lookup set of the entity type whose schema is `Related` to the change: for the complete property list, a changed token and no unlisted property; otherwise a changed token, or an unchanged token with a changed property |
| `RecordStorage.SchemaCacheState.GetUniquenessConstraintsRelatedTo` | community/record-storage-engine/src/main/java/org/neo4j/internal/recordstorage/SchemaCache.java:369-374 | Exactly the uniqueness constraints of the entity type whose schema is `Related` to the change, by the same rule as for indexes |
| `RecordStorage.GetSchemaRelatedTo` | community/record-storage-engine/src/main/java/org/neo4j/internal/recordstorage/SchemaCache.java:376-415 | An empty lookup set gives the empty set. With the complete property list, the result is exactly the descriptors for a changed token with no property outside the list. Otherwise every descriptor for a changed token is included. When only tokens changed, nothing else is included. When properties changed, the rest is exactly the descriptors for an unchanged token with a changed property. In every case a descriptor is in the result iff its schema is `Related` to the change |
| `RecordStorage.SchemaCacheState.HasRelatedSchema` | community/record-storage-engine/src/main/java/org/neo4j/internal/recordstorage/SchemaCache.java:417-421 | True iff some index or uniqueness constraint of the entity type is for one of the labels and has the property key |
| `RecordStorage.SchemaCacheState.HasRelatedSchemaForLabel` | community/record-storage-engine/src/main/java/org/neo4j/internal/recordstorage/SchemaCache.java:423-427 | True iff some index or uniqueness constraint of the entity type is for the label |
| `RecordStorage.SchemaCacheState.SelectIndexSetByEntityType` | community/record-storage-engine/src/main/java/org/neo4j/internal/recordstorage/SchemaCache.java:429-440 | In a wellformed state, the selected lookup set holds only indexes of that entity type |
| `RecordStorage.SchemaCacheState.SelectUniquenessConstraintSetByEntityType` | community/record-storage-engine/src/main/java/org/neo4j/internal/recordstorage/SchemaCache.java:442-453 | In a wellformed state, the selected set holds only uniqueness-enforcing constraints of that entity type |
| `RecordStorage.AddConstraintFilesIt` | community/record-storage-engine/src/main/java/org/neo4j/internal/recordstorage/SchemaCache.java:462-469 | Adding a constraint, as the constraint semantics read it, files it under its id and its name. It joins the uniqueness set of its entity type only if it enforces uniqueness. Every index collection is unchanged |
| `RecordStorage.AddIndexFilesIt` | community/record-storage-engine/src/main/java/org/neo4j/internal/recordstorage/SchemaCache.java:470-478 | Adding an index files the completed index by id, by schema, by the rule's name and in the lookup set of its entity type. Every constraint collection is unchanged |
| `RecordStorage.RemoveConstraintDropsIt` | community/record-storage-engine/src/main/java/org/neo4j/internal/recordstorage/SchemaCache.java:481-491 | Removing a constraint id drops it by id and by name, and from its uniqueness set if it enforces uniqueness. Constraint ids are checked first, so the index collections are untouched |
| `RecordStorage.RemoveIndexDropsIt` | community/record-storage-engine/src/main/java/org/neo4j/internal/recordstorage/SchemaCache.java:492-499 | Removing an index id drops it by id, by schema and from its lookup set. Its name goes only while the name still maps to that same index. The constraint collections are untouched |
| `RecordStorage.RemoveIfMapsTo` | community/record-storage-engine/src/main/java/org/neo4j/internal/recordstorage/SchemaCache.java:497 | `Map.remove(key, value)`: the entry goes exactly when the key maps to that value, otherwise the map is unchanged |
| `RecordStorage.RemoveAbsentChangesNothing` | community/record-storage-engine/src/main/java/org/neo4j/internal/recordstorage/SchemaCache.java:481-500 | Removing an id that is neither a constraint nor an index leaves the state equal to what it was |
| `RecordStorage.AddPreservesWellformed` | community/record-storage-engine/src/main/java/org/neo4j/internal/recordstorage/SchemaCache.java:460-479 | Every add keeps the id and schema maps keyed by their own keys, every cached rule in its set, and every set typed |
| `RecordStorage.RemovePreservesWellformed` | community/record-storage-engine/src/main/java/org/neo4j/internal/recordstorage/SchemaCache.java:481-500 | Every remove keeps the state wellformed |
| `RecordStorage.LoadPreservesWellformed` | community/record-storage-engine/src/main/java/org/neo4j/internal/recordstorage/SchemaCache.java:293-299 | Loading any sequence of rules into a wellformed state keeps it wellformed |
| `RecordStorage.CopyOfIsWellformed` | community/record-storage-engine/src/main/java/org/neo4j/internal/recordstorage/SchemaCache.java:265-283 | The copy is wellformed, and its rebuilt sets are exactly the cached rules of each entity type |
| `RecordStorage.CopyOfConsistentIsIdentity` | community/record-storage-engine/src/main/java/org/neo4j/internal/recordstorage/SchemaCache.java:265-283 | Copying a consistent state reproduces it exactly: copy-on-write loses nothing |
| `RecordStorage.EmptyIsConsistent` | community/record-storage-engine/src/main/java/org/neo4j/internal/recordstorage/SchemaCache.java:251-260 | The empty state's collections agree |
| `RecordStorage.RemovePreservesConsistent` | community/record-storage-engine/src/main/java/org/neo4j/internal/recordstorage/SchemaCache.java:481-500 | Removing any id keeps the four places of every index and the three of every constraint in agreement, in both directions: every entry stays a cached rule and every cached rule stays filed |
| `RecordStorage.AddPreservesConsistent` | community/record-storage-engine/src/main/java/org/neo4j/internal/recordstorage/SchemaCache.java:460-479 | Adding a rule under an id cached as neither index nor constraint, with a schema and name not yet filed, keeps the places in agreement in both directions. This assumes the constraint semantics keep the id and the completer keeps id, name and schema |
| `RecordStorage.ReusedSchemaOrNameUnfiles` | community/record-storage-engine/src/main/java/org/neo4j/internal/recordstorage/SchemaCache.java:473-476 | Adding an index under a new id but a schema or name already filed overwrites the entry: the index filed there before is no longer filed |
| `RecordStorage.ReusedConstraintNameUnfiles` | community/record-storage-engine/src/main/java/org/neo4j/internal/recordstorage/SchemaCache.java:466-467 | Adding a constraint under a new id but a name already filed overwrites the entry: the constraint filed there before is no longer filed |
| `RecordStorage.AddThenRemoveConstraint` | community/record-storage-engine/src/main/java/org/neo4j/internal/recordstorage/SchemaCache.java:462-491 | In a consistent state, adding a constraint with a new id and name and then removing that id restores the state |
| `RecordStorage.AddThenRemoveIndex` | community/record-storage-engine/src/main/java/org/neo4j/internal/recordstorage/SchemaCache.java:470-499 | In a consistent state, adding an index with a new id, schema and name and then removing that id restores the state |
| `RecordStorage.SchemaCache.constructor` | community/record-storage-engine/src/main/java/org/neo4j/internal/recordstorage/SchemaCache.java:62-66 | A new cache is updatable and publishes an empty state with the given constraint semantics and completer |
| `RecordStorage.SchemaCache.SnapshotOf` | community/record-storage-engine/src/main/java/org/neo4j/internal/recordstorage/SchemaCache.java:71-75 | A snapshot shares the given state and refuses updates |
| `RecordStorage.SchemaCache.Load` | community/record-storage-engine/src/main/java/org/neo4j/internal/recordstorage/SchemaCache.java:127-140 | An updatable cache publishes a fresh state holding exactly the loaded rules, with the same semantics and completer. A snapshot refuses and keeps its state |
| `RecordStorage.SchemaCache.AddSchemaRule` | community/record-storage-engine/src/main/java/org/neo4j/internal/recordstorage/SchemaCache.java:142-155 | Publishes a fresh state: the copy of the old state with the rule added, which equals the old state plus the rule when that state was consistent. The old state object is not modified, and a snapshot refuses |
| `RecordStorage.SchemaCache.RemoveSchemaRule` | community/record-storage-engine/src/main/java/org/neo4j/internal/recordstorage/SchemaCache.java:157-170 | Publishes a fresh state: the copy of the old state with the id removed. From a consistent state, it is exactly the removal and stays consistent |
| `RecordStorage.SchemaCache.Snapshot` | community/record-storage-engine/src/main/java/org/neo4j/internal/recordstorage/SchemaCache.java:225-228 | A new read-only cache over the same state object, with the same contents |
| `RecordStorage.SchemaCache.ConstraintsForLabel` | community/record-storage-engine/src/main/java/org/neo4j/internal/recordstorage/SchemaCache.java:107-110 | Exactly the cached node constraints whose schema names the label |
| `RecordStorage.SchemaCache.ConstraintsForRelationshipType` | community/record-storage-engine/src/main/java/org/neo4j/internal/recordstorage/SchemaCache.java:112-115 | Exactly the cached relationship constraints whose schema names the type |
| `RecordStorage.SchemaCache.ConstraintsForSchema` | community/record-storage-engine/src/main/java/org/neo4j/internal/recordstorage/SchemaCache.java:117-120 | Exactly the cached constraints on that schema |
| `RecordStorage.SnapshotKeepsItsContents` | community/record-storage-engine/src/main/java/org/neo4j/internal/recordstorage/SchemaCache.java:142-170 | After taking a snapshot, any add, remove or load on the cache leaves the snapshot's contents as they were, and the snapshot itself refuses updates |
| `BoltV4Runtime.ShouldIgnore` | community/bolt/src/main/java/org/neo4j/bolt/v4/runtime/FailedState.java:80-84 | Holds exactly for Run, Pull, Discard, Commit and Rollback, and for none of Hello, Begin, Reset, Goodbye or the interrupt signal |
| `BoltV4Runtime.ProcessTransition` | community/bolt/src/main/java/org/neo4j/bolt/v4/runtime/FailedState.java:49-62 | Without an interrupted state, every message fails the "Interrupted state not set" check. An ignorable message marks the connection ignored and stays FAILED. An interrupt returns the recorded state and does not mark. Anything else has no next state. Only an interrupt leaves FAILED |
| `BoltV4Runtime.FailedState.constructor` | community/bolt/src/main/java/org/neo4j/bolt/v4/runtime/FailedState.java:46 | A new FAILED state has no interrupted state |
| `BoltV4Runtime.FailedState.SetInterruptedState` | community/bolt/src/main/java/org/neo4j/bolt/v4/runtime/FailedState.java:64-67 | The interrupted state becomes the given one, which may be null |
| `BoltV4Runtime.FailedState.AssertInitialized` | community/bolt/src/main/java/org/neo4j/bolt/v4/runtime/FailedState.java:69-72 | Fails, with the message "Interrupted state not set", exactly when no interrupted state is set |
| `BoltV4Runtime.FailedState.Process` | community/bolt/src/main/java/org/neo4j/bolt/v4/runtime/FailedState.java:49-62 | Returns the outcome of `ProcessTransition`, and marks the connection state ignored exactly when that transition says so |
| `BoltV4Runtime.InterruptReturnsLatestState` | community/bolt/src/main/java/org/neo4j/bolt/v4/runtime/FailedState.java:57-67 | After two `setInterruptedState` calls, an interrupt returns the state set last and leaves the ignored flag as it was |
| `BoltV4Runtime.UninitializedFailedStateFaults` | community/bolt/src/main/java/org/neo4j/bolt/v4/runtime/FailedState.java:51 | A fresh FAILED state faults on every message and marks nothing ignored |
| `BoltScheduling.KeepAliveEach` | community/bolt/src/main/java/org/neo4j/bolt/runtime/scheduling/ExecutorBoltScheduler.java:124-128 | Visits each id with a work item once, calling `keepAlive` on its connection. It completes iff every such id has a registered connection; otherwise it stops at the first id that has none |
| `BoltScheduling.StopEach` | community/bolt/src/main/java/org/neo4j/bolt/runtime/scheduling/ExecutorBoltScheduler.java:149 | Stops each id of the given set exactly once and records one stop call per id, in the order visited |
| `BoltScheduling.ExecutorBoltScheduler.constructor` | community/bolt/src/main/java/org/neo4j/bolt/runtime/scheduling/ExecutorBoltScheduler.java:67-84 | Both registries start empty; there is no pool and no keep-alive service yet |
| `BoltScheduling.ExecutorBoltScheduler.Init` | community/bolt/src/main/java/org/neo4j/bolt/runtime/scheduling/ExecutorBoltScheduler.java:103-108 | The worker pool exists and is not shut down |
| `BoltScheduling.ExecutorBoltScheduler.Start` | community/bolt/src/main/java/org/neo4j/bolt/runtime/scheduling/ExecutorBoltScheduler.java:111-136 | The keep-alive service is created iff the policy is STREAMING and the interval is strictly positive; otherwise nothing changes. A positive interval below one millisecond truncates to a zero period, which the executor rejects |
| `BoltScheduling.ExecutorBoltScheduler.KeepAliveBroadcast` | community/bolt/src/main/java/org/neo4j/bolt/runtime/scheduling/ExecutorBoltScheduler.java:122-129 | One broadcast calls `keepAlive` once on the connection of each id that has a work item, and on no other. A work item without a registered connection aborts the task and ends the broadcasts |
| `BoltScheduling.ExecutorBoltScheduler.Stop` | community/bolt/src/main/java/org/neo4j/bolt/runtime/scheduling/ExecutorBoltScheduler.java:139-151 | The broadcast ends. Each idle registered connection is stopped exactly once, and no other connection is stopped |
| `BoltScheduling.ExecutorBoltScheduler.Shutdown` | community/bolt/src/main/java/org/neo4j/bolt/runtime/scheduling/ExecutorBoltScheduler.java:154-183 | Every registered connection is stopped exactly once. Then an existing pool is shut down, and a timeout is reported as a warning, not an error |
| `BoltScheduling.ExecutorBoltScheduler.Created` | community/bolt/src/main/java/org/neo4j/bolt/runtime/scheduling/ExecutorBoltScheduler.java:186-191 | The connection is registered under its id. The asserted condition holds iff the id was absent |
| `BoltScheduling.ExecutorBoltScheduler.Closed` | community/bolt/src/main/java/org/neo4j/bolt/runtime/scheduling/ExecutorBoltScheduler.java:193-210 | Any work item of the id is cancelled and removed, and the id is always deregistered |
| `BoltScheduling.ExecutorBoltScheduler.Enqueued` | community/bolt/src/main/java/org/neo4j/bolt/runtime/scheduling/ExecutorBoltScheduler.java:212-216 | Behaves as `HandleSubmission` |
| `BoltScheduling.ExecutorBoltScheduler.HandleSubmission` | community/bolt/src/main/java/org/neo4j/bolt/runtime/scheduling/ExecutorBoltScheduler.java:224-246 | Arms the keep-alive timer only when the service exists. A new work item is installed and a batch submitted only when the id has none; an existing item is left unchanged |
| `BoltScheduling.ExecutorBoltScheduler.HandleCompletion` | community/bolt/src/main/java/org/neo4j/bolt/runtime/scheduling/ExecutorBoltScheduler.java:265-307 | Rejection: `handleSchedulingError`, then the item is removed, with no stop and no resubmission. Other error: the item is removed and the connection stopped. Success: the item is removed, and it is resubmitted iff the batch asks to continue and jobs are pending |
| `BoltScheduling.ExecutorBoltScheduler.EnqueueBurst` | community/bolt/src/main/java/org/neo4j/bolt/runtime/scheduling/ExecutorBoltScheduler.java:224-234 | Any number of enqueues before a completion submits at most one batch for the connection: exactly one if it had no work item and the pool exists |
| `LegacySchemaStorage.FetchFrom` | community/record-storage-engine/src/main/java/org/neo4j/kernel/impl/storemigration/legacy/SchemaStorage35.java:101-147 | Ids only increase. A fetch ends at `highestId + 1` with null, or just past a record that yields a rule or is malformed. Every record passed over yields nothing |
| `LegacySchemaStorage.SchemaRuleIterator.constructor` | community/record-storage-engine/src/main/java/org/neo4j/kernel/impl/storemigration/legacy/SchemaStorage35.java:94-99 | A scan starts at id 1, because record 0 holds the block size |
| `LegacySchemaStorage.SchemaRuleIterator.FetchNextOrNull` | community/record-storage-engine/src/main/java/org/neo4j/kernel/impl/storemigration/legacy/SchemaStorage35.java:101-147 | The loop returns `FetchFrom`'s result and leaves `currentId` where `FetchFrom` says |
| `LegacySchemaStorage.ScanIdsAtFetch` | community/record-storage-engine/src/main/java/org/neo4j/kernel/impl/storemigration/legacy/SchemaStorage35.java:104-146 | One `fetchNextOrNull` is the first step of the reference scan: null ends it, a malformed rule ends it with that record's id, and a fetched rule heads the rest of the scan |
| `LegacySchemaStorage.ScanAllIsScanIds` | community/record-storage-engine/src/main/java/org/neo4j/kernel/impl/storemigration/legacy/SchemaStorage35.java:101-147 | Successive fetches yield exactly the reference scan of ids `from..highestId`, each visited once in increasing order |
| `LegacySchemaStorage.ScanIdsSkips` | community/record-storage-engine/src/main/java/org/neo4j/kernel/impl/storemigration/legacy/SchemaStorage35.java:107-128 | Skipping records that are not in use, not start records, or whose chain read fails does not change what the scan yields |
| `LegacySchemaStorage.ScanIdsReadsOnlyRange` | community/record-storage-engine/src/main/java/org/neo4j/kernel/impl/storemigration/legacy/SchemaStorage35.java:104-106 | A scan reads only records `lo..highestId`: stores that agree there scan alike |
| `LegacySchemaStorage.BlockSizeRecordNeverRead` | community/record-storage-engine/src/main/java/org/neo4j/kernel/impl/storemigration/legacy/SchemaStorage35.java:97 | Record 0 never influences a scan |
| `LegacySchemaStorage.ScanYieldsOnlyMatching` | community/record-storage-engine/src/main/java/org/neo4j/kernel/impl/storemigration/legacy/SchemaStorage35.java:107-137 | Every yielded rule is an instance of the requested type and passes the predicate. It comes from an in-use start record in range whose chain read succeeded |
| `LegacySchemaStorage.ScanYieldsEveryMatching` | community/record-storage-engine/src/main/java/org/neo4j/kernel/impl/storemigration/legacy/SchemaStorage35.java:104-137 | When no malformed rule aborts the scan, every matching record's rule is yielded |
| `LegacySchemaStorage.GetAll` | community/record-storage-engine/src/main/java/org/neo4j/kernel/impl/storemigration/legacy/SchemaStorage35.java:53-57 | The iterator yields every schema rule of the reference scan from id 1 |
| `LegacySchemaStorage.IndexesGetAll` | community/record-storage-engine/src/main/java/org/neo4j/kernel/impl/storemigration/legacy/SchemaStorage35.java:59-62 | An unfiltered scan for index rules, starting at id 1 |
| `LegacySchemaStorage.FirstNamed` | community/record-storage-engine/src/main/java/org/neo4j/kernel/impl/storemigration/legacy/SchemaStorage35.java:64-76 | Finds the first index in scan order with the name. Otherwise it is null when the scan completed and no index has the name, or the scan's malformed-rule failure |
| `LegacySchemaStorage.IndexGetForName` | community/record-storage-engine/src/main/java/org/neo4j/kernel/impl/storemigration/legacy/SchemaStorage35.java:64-76 | The loop over the iterator returns `FirstNamed` of the reference scan of index rules |

## Left out

- Locking in `SchemaCache` (`StampedLock`, `InaccessibleLock`, `volatile`) is not modelled. Each update is an atomic swap. The snapshot's lock becomes the `updatable` flag, and an update on a snapshot returns `refused` instead of throwing.
- `SchemaDescriptorLookupSet` is not part of this model. Its matching is given definitions of its own:
  - `matchingDescriptors`: a descriptor for any of the tokens;
  - for the complete property list: every property of the descriptor is listed;
  - for a partial list: the descriptor has any listed property.
- `ConstraintRuleAccessor.readConstraint` and `IndexConfigCompleter.completeConfiguration` are function parameters.
- `SchemaDescriptorPredicates` is not part of this model. `constraintsForLabel` and `constraintsForRelationshipType` are taken to select by entity type and token.
- `EntityType` has exactly the values NODE and RELATIONSHIP. So the `IllegalArgumentException` default branch of `select*SetByEntityType` cannot be reached and is not modelled.
- `SchemaCache`'s other lookups only delegate to the current state, so they are modelled once, on `SchemaCacheState`.
- `indexes()` and `constraints()` are not modelled as members. They are the values of the id maps (`ValuesOf`).
- `getOrCreateDependantState` keys by a type name and stores an integer for the object; `Class.cast` is not modelled.
- `ExecutorBoltScheduler` concurrency is not modelled:
  - thread pools, the fork-join pool and `CompletableFuture` chaining;
  - the scheduled keep-alive executor and its timing;
  - `awaitTermination`'s wait and its `InterruptedException` path;
  - interleavings.
  A submission is recorded as a `SubmitBatch` call, and its completion is a later `HandleCompletion` event with the outcome as a parameter.
- `idle()` and `hasPendingJobs()` of a connection are parameters. `stop()` failing is not distinguished from succeeding, because the scheduler swallows it either way.
- KeepAliveEach: `connection.keepAlive()` (`ExecutorBoltScheduler.java:127`) is taken never to throw. If it did, the exception would leave the periodic task, and the executor would suppress every later run, as the missing-connection case that is modelled does. "Completes iff every work-item id has a registered connection" holds only under this assumption, and so does `KeepAliveBroadcast`'s.
- HandleSubmission: `connection.initKeepAliveTimer()` (`ExecutorBoltScheduler.java:229`) is taken never to throw. If it did, `handleSubmission` would end before `computeIfAbsent` and install no work item; the model always proceeds to it. `Enqueued` and `EnqueueBurst` share this assumption.
- Thread renaming in `executeBatch`, `NameAppendingThreadFactory`, logging, `connector()`, `drained` (a no-op), `isRegistered` and `isActive` are not modelled.
- In FAILED, `name()` and `SHALLOW_SIZE` are not modelled. The connection's `markIgnored` is a class with a single flag.
- In the 3.5 schema scan, page cursors, `RecordStore` and `SchemaStore35.readSchemaRule`'s byte decoding are not part of this model.
  - The store is a function from id to what reading the record and its chain yields.
  - The lenient read and the normal read of an in-use record are taken to see the same record.
  - `getHighestPossibleIdInUse` is a parameter.
  - `newRecordBuffer` sizing is not modelled.
- `BaseRoutingTableProcedureValidator.java` is not part of this model.
- AddPreservesConsistent: needs an id that is not yet cached and a schema and name that are not yet filed. The source permits both reuses: re-adding a cached id can leave a stale schema or name entry behind, and reusing a filed schema or name unfiles the rule filed there before (`ReusedSchemaOrNameUnfiles`, `ReusedConstraintNameUnfiles`).
- AddThenRemoveConstraint: needs an id and a name that are not yet cached, for the same reason.
- AddThenRemoveIndex: needs an id, a schema and a name that are not yet cached, for the same reason.
