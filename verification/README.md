# Verification model of the client cache, the pagination filters, the selector scanner, the rate limits and the log queue

Five parts of the repository are modelled in Dafny and proved to do what they are for.

**The write-through sentinel cache.** `Sentinels.dfy` holds the decision table of the locking protocol twice: over strings, as the code writes it, and over a datatype, with the proof that the two agree because uuids have one length. `CacheOps.dfy` gives the effect of every provider call as a function of the shared map, and `CacheFacts.dfy` says the same key by key, in terms of what the keys held before. `InMemoryProvider.dfy` is the provider itself, a class whose loops are proved to have exactly those effects; it runs each call under one mutex, so a call is one atomic step. `CacheManager.dfy` holds the operations above the provider (locks, saving items and collections, creating and getting an item) as methods that log their provider calls, with arbitrary interference between two calls; their contracts say what the whole log is, and `OperationFacts.dfy` what that leaves in the keys. The protocols are transition systems over any number of clients and use the provider's functions as their steps:

- `ItemProtocol.dfy`, `ItemConsistency.dfy`: one item's primary key, consistent in every run that keeps three guards. `ItemExact.dfy` proves each guard exact: breaking it by one step makes a stale value possible, in every state the guarded runs can reach. `ItemLimits.dfy` has short runs that go wrong. `SlotOps.dfy` shows that the one-key view is the whole-map view, `SlotText.dfy` that its steps are the code's steps on the text in the key, and `ItemSimulation.dfy` that the calls of creating and of getting an item, with any steps of other clients between them, are runs of this protocol.
- `ListProtocol.dfy`, `ListConsistency.dfy`: list reads that fill many primary keys under one global lock.
- `CollectionProtocol.dfy`, `CollectionSafety.dfy`: cached collections and paths, dependency lists, tombstones. `CollectionUpdate.dfy` says exactly when a collection fetched before an update can still be served after it. `CollectionSimulation.dfy` shows that the calls that store a collection are the steps of a fill, `CollectionOperations.dfy` that those of creating an item are a creator's and those of a delete taking its lock a deleter's, so that read after write and read after delete hold of these operations. `AuthzKeys.dfy` has the key names of the authorization client and applies the theorems to creating an edge.

**The Redis provider.** `RedisTransactions.dfy` has the WATCH / read / EXEC transactions with retries, under arbitrary writes by other clients between any two commands. `ReserveSlots.dfy` and `ReleaseSlots.dfy` have the sliding-window counters as interleavings of single commands (`Counting.dfy` counts calls and sums buckets).

**The filter-query parser.** `FilterText.dfy` is the lexical level, `FilterSpec.dfy` the parser as a function on a tree with a cursor, `FilterRoundTrip.dfy` the documented grammar with its printer, `FilterLeaf.dfy` and `FilterParses.dfy` the proof that every filter of the grammar in ASCII parses to the tree that prints back as the filter. `FilterKeys.dfy` says which keys are accepted, by counting their arrows, and what each becomes. `FilterWeight.dfy` counts the bytes that a tree accounts for, and `FilterExact.dfy` concludes which filters of the grammar, over any characters, make the trip. `FilterHeap.dfy` and `FilterParser.dfy` are the parser as it runs, on heap nodes with parent pointers; they build exactly the tree of the functional parser. `rotateLeft` leaves stale parent pointers behind, so the invariant speaks of the spine from the root to the cursor only.

**The pager.** `PagerSpec.dfy`, `PagerText.dfy` and `Pager.dfy` have options, defaults, validation and the trip through query parameters; `PagerExact.dfy` says parameter by parameter which queries are accepted and what page they give; `PagerFilters.dfy` has how filter options combine, `PagerAgain.dfy` what applying the same options again does.

**The scanner.** `ScannerSpec.dfy` defines maximal munch over a family of automata, which is a parameter; `Scanner.dfy` is the scan loop with its growing buffer.

**The log queue.** `LogQueue.dfy` is the queue under concurrency, `LogBuffer.dfy` the linked list and its reversal in place, `LogTransfer.dfy` the packing of a batch per tenant (`LogEvents.dfy`: levels and thresholds).

`Options.dfy` has the one datatype that they all share.

Where the code and its own comments disagree, the model follows the code:

- The start time that `writeToIO` calls the earliest of the batch is that of the newest record. With a clock that does not go back it is the earliest if and only if all records were made at one time (`LogBuffer.StartIsEarliestIff`; `LogBuffer.StartTimeLate` has a batch where it is not).
- The filter parser advances by byte lengths over an index of characters. A lone leaf that is not ASCII does not parse (`FilterParses.LeafParsesIff`), but in a composite such a leaf can carry the index over the rest of the filter: the filter is accepted and a clause is gone (`FilterExact.ClauseDropped`). A filter of the grammar parses to its own tree if and only if all of it is ASCII and every key has at most one `->`, or exactly one `->>` (`FilterExact.RoundTripIff`, `FilterKeys.KeyParsesIff`).
- A `Filter` option writes the combined clause back into itself, so applying the same options again gives the same settings if and only if at most one clause is applied (`PagerAgain.ReappliedIff`).
- An object found by the alias `E` shares its cache key with an edge list, and one whose alias looks like the middle of a path shares it with that path; no other alias names a collection (`AuthzKeys.AliasIsCollectionIff`). An object type, edge type or organization named `COL`, or by the id of another, shares its name key with the collection or with that one (`AuthzKeys.NameApartIff`).
- The cache promises read after write. It is kept for creates and deletes; after an update it is kept if and only if no read that was answered before the update is still on its way when the list is cleared (`CollectionUpdate.ReadAfterUpdateIff`).
- The scanner drops the lookahead at the end of input, so it tokenises all of every input if and only if some automaton accepts every non-empty text on which one is still alive (`ScannerSpec.CoversAllIff`).

## Model

| member | source | states |
|---|---|---|
| Sentinels.OwnerTest | infra/cache/writethrough_sentinel_manager.go:75-86 | A key's text starts with my sentinel, conflicts appended or not, if and only if I own the lock |
| Sentinels.LockDecisionAgrees | infra/cache/writethrough_sentinel_manager.go:44-60 | Lock precedence on the typed entries is lock precedence on the strings, for every entry and sentinel |
| Sentinels.SetDecisionAgrees | infra/cache/writethrough_sentinel_manager.go:63-87 | The typed set, clear, conflict decision gives the four flags that the code computes from the strings |
| SlotText.StepsAgree | infra/cache/inmemory_provider.go:137-253 | Locking, releasing and storing, written with the code's tests on the stored text, are the typed steps, upgrades to a conflict included |
| InMemory.InMemoryClientCacheProvider.WriteSentinel | infra/cache/inmemory_provider.go:137-183 | The whole new map, the sentinel and the error are those of the atomic lock operation; tombstones of later keys are kept |
| InMemory.InMemoryClientCacheProvider.ReleaseSentinel | infra/cache/inmemory_provider.go:186-207 | Exactly the keys that hold the caller's own sentinel are deleted |
| InMemory.InMemoryClientCacheProvider.SetValue | infra/cache/inmemory_provider.go:210-253 | All keys or none change, as the decision on the lock key's value says; the three answers |
| InMemory.InMemoryClientCacheProvider.GetValue | infra/cache/inmemory_provider.go:296-330 | A miss takes a read lock if asked to; a sentinel is reported as a conflict and left alone |
| InMemory.InMemoryClientCacheProvider.DeleteValue | infra/cache/inmemory_provider.go:333-370 | Without force only keys that hold no sentinel are deleted or tombstoned, keys met twice included |
| InMemory.InMemoryClientCacheProvider.SaveKeyArray | infra/cache/inmemory_provider.go:372-404 | Lists are extended in order up to the first tombstoned one, which fails the call; members no longer cached are dropped |
| InMemory.InMemoryClientCacheProvider.RemoveDuplicates | infra/cache/inmemory_provider.go:372-404 | The rebuilt list names each key once and keeps first occurrences |
| InMemory.InMemoryClientCacheProvider.DeleteKeyArray | infra/cache/inmemory_provider.go:406-427 | Every key in the list is deleted, and the list key is tombstoned or removed; a tombstone is never removed |
| InMemory.AddAllStaysFailed | infra/cache/inmemory_provider.go:372-404 | Once a tombstoned list refuses, the rest of the call changes nothing |
| InMemory.InMemoryClientCacheProvider.AddDependency | infra/cache/inmemory_provider.go:430-444 | Empty keys are dropped, and the rest is one atomic extension of the lists |
| InMemory.InMemoryClientCacheProvider.ClearDependencies | infra/cache/inmemory_provider.go:447-458 | An empty key is an error without effect; otherwise the list is cleared |
| InMemory.InMemoryClientCacheProvider.Flush | infra/cache/inmemory_provider.go:461-475 | Exactly the values and locks under the prefix go; lists stay, and tombstones unless asked for |
| CacheFacts.GetFacts | infra/cache/inmemory_provider.go:296-330 | Key by key: a look-up finds a value if and only if the key holds one, and then answers with its text; only a miss that is asked to lock changes the cache |
| CacheFacts.SetFacts | infra/cache/inmemory_provider.go:210-253 | Key by key: the owner of the lock key stores the text in every key; a writer that finds another value or its own upgraded lock empties them; one that finds another writer upgrades its lock; anyone else changes nothing; the three answers |
| CacheFacts.ReleaseFacts | infra/cache/inmemory_provider.go:186-207 | A key is emptied if and only if it is one of those named and holds exactly the own sentinel |
| CacheFacts.DeleteFacts | infra/cache/inmemory_provider.go:333-370 | A key named is emptied or tombstoned, unless force is missing and it holds a lock or a tombstone |
| CacheFacts.FlushFacts | infra/cache/inmemory_provider.go:461-475 | A key goes if and only if it has the prefix and holds a value, a lock, or a tombstone when those are asked for |
| CacheFacts.ClearFacts | infra/cache/inmemory_provider.go:406-427 | What the list names is gone, the list is tombstoned or removed, a tombstone stays, and nothing else changes |
| CacheFacts.AddFacts | infra/cache/inmemory_provider.go:372-444 | A call fails if and only if some list holds a tombstone; otherwise every list names what is added and what it named before that is still cached, and nothing else |
| CacheFacts.LockFacts | infra/cache/inmemory_provider.go:137-183 | The first key that is not empty decides: a sentinel there refuses a read, a delete lock everyone, and then nothing changes; otherwise it is locked whatever it held, and so are the other keys but for tombstones |
| CacheFacts.LockNeedsKey | infra/cache/inmemory_provider.go:137-145 | Without a key there is an error and no effect |
| CacheFacts.LockLeavesList | infra/cache/inmemory_provider.go:161-176 | A dependency list that stands behind the first key is left alone by a read, emptied into the text "" by a mutation, and locked when the key is given twice |
| SlotOps.LockRefines | infra/cache/inmemory_provider.go:137-183 | Locking many keys acts on the primary key as the one-key lock step, whatever the other keys are |
| SlotOps.CommitRefines | infra/cache/inmemory_provider.go:186-253 | Saving and releasing many keys act on the primary key as the one-key steps, with the same decision |
| CacheManager.GetItemLockKeys | infra/cache/api.go:239-270 | The primary key comes first; a mutation locks exactly the primary key, the secondary keys, the global collection and, for a delete, the per-item collection; a read locks the primary key alone |
| CacheManager.Manager.TakeLockWorker | infra/cache/api.go:308-345 | The whole log: a delete, granted or not, then clears the list of its pages and clears and tombstones its dependency list, all before the server is asked; other operations make one call. When a delete returns without error the dependency key holds its tombstone, and nothing that its list named just before is cached |
| CollectionOperations.LockBlocks | infra/cache/api.go:308-345 | Whatever other clients do between its calls, a delete that takes its lock is a deleter of the collection protocol: the calls and their steps are a legal run that ends with its list tombstoned |
| CollectionOperations.DeletedIsGone | infra/cache/api.go:308-345 | So once the server has deleted the item after such a call, no cached collection that depends on it was fetched before |
| CacheManager.Manager.ReleaseItemLock | infra/cache/api.go:348-360 | One release of the keys locked, or nothing when no lock was taken |
| CacheManager.Manager.SaveItemToCacheWorker | infra/cache/api.go:587-670 | The whole log: value first; collections and lists cleared whether or not it was stored; lists extended only if it was; the first refusal ends the call with tombstones on every key of the item |
| CacheManager.ClearsExactly | infra/cache/api.go:606-629 | The keys that a write tombstones are exactly those that the caller adds, the two that mark the item and its collection as modified, and the collection key where there is no such mark |
| CacheManager.StoredEverywhere | infra/cache/api.go:597-601 | A stored item is under its primary key and under every secondary key, and nowhere else |
| CacheManager.WithdrawnEverywhere | infra/cache/api.go:664-668 | When a registration was refused all of these keys end up tombstoned |
| OperationFacts.WriteEmptiesLists | infra/cache/api.go:631-643 | A write empties the list of the item and the list of its pages: what they named just before is gone, and they are lists no more |
| OperationFacts.RegisteredEverywhere | infra/cache/api.go:648-668 | A stored item is put, under all its keys, into the list of everything that it depends on, and its secondary keys into its own list; or one of those lists had a tombstone, and in the end every key of the item is tombstoned |
| CacheManager.Manager.SaveItemsFromCollectionToCache | infra/cache/api.go:577-585 | With a lock the log is, item after item, the whole log of saving each under the global collection key; the values offered are those of all items that may be cached, in order; without a lock nothing is called |
| OperationFacts.ItemOfListStored | infra/cache/api.go:577-601 | Each item that may be cached is stored, under all its keys, if and only if the read lock is still in its global collection key when it is offered; otherwise the offer changes nothing |
| CacheManager.Manager.DependentKeys | infra/cache/api.go:702-726 | The keys collected are exactly those that the collection's items, the items themselves and the owner stand for; the size that the limit is compared with counts repeated items each time |
| CacheManager.Manager.SaveItemsToCollection | infra/cache/api.go:675-749 | A collection that may be cached is stored by the last call if and only if no list refused its key in the call before, which names it in exactly the lists that have to; any other collection makes no call |
| OperationFacts.CollectionListed | infra/cache/api.go:700-747 | When a collection is stored, the lists of its owner, of its items and of all that these depend on already name it |
| OperationFacts.CollectionStored | infra/cache/api.go:727-747 | Where no list refused the collection is offered last, and is cached if and only if the read lock is still in the lock key; where one refused nothing is offered |
| OperationFacts.PageListed | infra/cache/api.go:727-747 | A page of the global collection is in the list of its pages when it is stored |
| OperationFacts.CountExact | infra/cache/api.go:702-726 | The size that the limit is about: the distinct keys that items depend on, and one for each item whose own list is none of those met up to it |
| CacheManager.Manager.CreateItem | infra/cache/methods.go:23-69 | The whole log: a malformed item goes nowhere; an equal cached one ends the call; otherwise lock, then server, then save and clear, release last; nothing is stored without an answer or past the cache |
| CacheManager.CreateTombstones | infra/cache/api.go:606-629 | A create with its lock and an answer leaves its tombstone in every key that it has to clear, after the answer and before the release |
| OperationFacts.CreateStores | infra/cache/methods.go:51-68 | It offers the answer right after the server gave it and before it clears; with its lock still in the primary key the answer is then under every key of the item |
| OperationFacts.CreateLetsGo | infra/cache/methods.go:51-68 | In the end its lock is in none of the keys that it locked, and the release changed nothing else |
| CollectionOperations.CreateClearsAll | infra/cache/methods.go:51-68 | Whatever other clients do between its calls, a create that holds its lock and has an answer is a creator of the collection protocol: a legal run in which every key that it has to clear is cleared after the answer |
| CollectionOperations.CreatedIsVisible | infra/cache/methods.go:51-68 | So once it has returned, a collection cached in one of those keys was fetched after the server answered it |
| CacheManager.Manager.GetItem | infra/cache/methods.go:94-122 | The whole log: a hit asks nobody; a miss asks once and stores the answer under the lock of the miss; a cached text that does not validate is deleted and nothing is stored; a type that is never cached is asked for at the server only. And the answer: a readable text that the primary key holds at the look-up, otherwise that of the server |
| CacheManager.LookUpAnswers | infra/cache/methods.go:103-119 | If the primary key holds a readable text at the look-up, that is the answer and the server is not asked; otherwise the answer is the server's |
| OperationFacts.MissFills | infra/cache/methods.go:103-119 | A miss leaves the read lock in the key; the answer is offered next, and with the lock still there it is then under every key of the item |
| OperationFacts.InvalidIsDropped | infra/cache/api.go:437-446 | A cached text that does not validate is deleted from its key and from no other, and is no answer |
| ItemSimulation.HitIsCurrent | infra/cache/methods.go:94-122 | In the guarded runs with no mutation in flight, a hit of getting an item answers with what the server has |
| CacheManager.Manager.GetItemFromCache | infra/cache/api.go:400-502 | A type that is never cached makes no call; a text that is malformed or does not validate counts as missing, without a lock; only the second is deleted |
| ItemSimulation.CreateSimulates | infra/cache/methods.go:51-68 | Whatever other clients do between its calls, creating an item is a writer of the item protocol: the calls and their steps are a legal run that ends with the key as the last call leaves it |
| ItemSimulation.GetSimulates | infra/cache/methods.go:94-122 | The same for getting an item, which is a reader if the key is empty, and no client at all otherwise or when the type is never cached |
| ItemSimulation.CallRefines | infra/cache/inmemory_provider.go:137-475 | Every call that an operation makes is, at the primary key, the protocol step it stands for |
| ItemSimulation.OperationsFillSafely | infra/cache/methods.go:23-122 | So the fill theorem holds of these operations: what they store, nobody else tried to lock in between |
| CollectionSimulation.CollectionSimulates | infra/cache/api.go:727-747 | Whatever other clients do between them, the calls that store a collection are the steps of a fill, which installs if and only if they stored |
| CollectionSimulation.RegistersEverywhere | infra/cache/api.go:700-741 | The lists such a fill has registered with are exactly those that have to name its collection |
| ItemConsistency.FillSafety | infra/cache/inmemory_provider.go:137-253 | In every run: between a read's lock and its install no mutation attempted the lock; between a write's lock and its install no other mutation took it and no other write saved |
| ItemConsistency.GuardedConsistent | infra/cache/writethrough_sentinel_manager.go:44-87 | Any number of writers, deletes and readers, failures, evictions and tombstones at any moment: as long as mutations begin with their lock, reads lock the empty key only when nobody is still to change the item, and nobody deletes the key under a delete, a cached value is the last one committed once no mutation is in flight |
| ItemConsistency.TwoWritersConsistent | infra/cache/writethrough_sentinel_manager.go:44-87 | A workload that keeps the guards: at most two writers overlap, any number of readers lock on a miss; and an empty or read-locked key then means that no mutation is in flight |
| ItemConsistency.HitsOnlyConsistent | infra/cache/writethrough_sentinel_manager.go:63-87 | Another: any number of overlapping writers, some failing, readers that only hit |
| ItemExact.MissIff | infra/cache/inmemory_provider.go:307-317 | In every state of the guarded runs: a read that locks the empty key makes a stale value possible if and only if somebody is still to change an item it could read |
| ItemExact.BeginIff | infra/cache/inmemory_provider.go:137-160 | In every such state: a mutation that begins makes a stale value possible if and only if it is refused its lock |
| ItemExact.ForceIff | infra/cache/inmemory_provider.go:333-370 | In every such state: deleting the key by force makes a stale value possible if and only if a delete has its lock and the server has not deleted yet |
| ItemLimits.EmptyKeyUnderWriter | infra/cache/inmemory_provider.go:210-253 | The shortest such run: a read slips in under the one writer in flight |
| ItemLimits.ThreeWritersAndARead | infra/cache/writethrough_sentinel_manager.go:68-86 | From a consistent start, three successful overlapping writers and one read leave a stale value: the bound of two cannot be raised |
| ItemLimits.FailedWriterAndARead | infra/cache/inmemory_provider.go:186-207 | From a consistent start, two writers of which one fails, and one read, leave a stale value |
| ItemLimits.DeniedWriter | infra/cache/writethrough_sentinel_manager.go:44-60 | From a consistent start, a writer refused by a delete leaves a stale value without any read that locks |
| ListConsistency.ListReadsConsistent | infra/cache/api.go:577-670 | Mutations one at a time, any number of item and list reads, evictions, failures, tombstones after refused registrations: in every reachable state each cached item is the server's current item, even when a list read filled it |
| ListConsistency.SecondaryKeysIff | infra/cache/api.go:587-601 | From every initial state, creating an item is safe whatever its value if and only if none of its secondary keys is another item's primary key or the collection's key |
| ListConsistency.SharedKeyBreaks | infra/cache/api.go:587-601 | The three steps that break it otherwise: another item cached with a wrong value, or a value in the collection key while the list is being changed |
| CollectionSafety.DependencySafety | infra/cache/inmemory_provider.go:372-427 | While an item's dependency list is tombstoned, no cached collection or path depends on the item and no registered fill still holds its key |
| CollectionSafety.TombstoneStopsFills | infra/cache/api.go:700-747 | While the tombstone stands, a fill that depends on the item is refused when it registers and installs nothing when it had registered before |
| CollectionSafety.ReadAfterWrite | infra/cache/api.go:606-629 | Once a create that held its lock has returned, whatever is cached in the collections it clears was fetched after the commit |
| CollectionSafety.ReadAfterDelete | infra/cache/api.go:308-345 | Once the server has deleted an item, no cached collection that depends on it was fetched before the delete |
| CollectionUpdate.ReadAfterUpdateIff | infra/cache/api.go:631-638 | From every reachable state in which an update clears the list of its item: a dependent collection fetched before the update can still be served if and only if, right after the clear, a read answered before it still holds its key, has yet to register, and depends on no tombstoned list |
| CollectionUpdate.OldListServed | infra/cache/api.go:631-747 | A run of six steps from the empty cache: a read is answered, an update clears its list, the read registers and installs, and the old collection is served |
| CollectionSafety.AddAllLists | infra/cache/inmemory_provider.go:372-404 | When the call succeeds every list names every key |
| CollectionSafety.AddAllGrows | infra/cache/inmemory_provider.go:372-404 | Extending lists never touches a tombstone or another key and loses no member that is still cached |
| AuthzKeys.EdgesKeyInjective | authz/cache_name_provider.go:249-251 | An edge-list key determines its two objects and their order |
| AuthzKeys.AliasMeetsEdgesIff | authz/cache_name_provider.go:244-251 | An alias key equals an edge-list key if and only if the ids agree and the alias is "E" |
| AuthzKeys.AliasMeetsPathIff | authz/cache_name_provider.go:244-315 | An alias key equals a path key if and only if the ids agree and the alias with its organization reads like the end of the path |
| AuthzKeys.AliasIsCollectionIff | authz/cache_name_provider.go:234-315 | An alias names a collection if and only if it is "E", or with its organization begins with "P_", 36 characters and "_" |
| AuthzKeys.PathMissesEdges | authz/cache_name_provider.go:249-315 | A path key never equals an edge-list key |
| AuthzKeys.ClientLayout | authz/cache_name_provider.go:234-315 | Whatever ids are in use, dependency keys and collection keys are disjoint, as the collection theorems require |
| AuthzKeys.NameApartIff | authz/cache_name_provider.go:204-311 | An object type, an edge type or an organization meets that condition if and only if it is not named "COL" or like the id of another item of its kind |
| AuthzKeys.LongKeysApart | authz/cache_name_provider.go:214-292 | Objects by alias and edges by their ends always meet it |
| AuthzKeys.KindLayoutValid | authz/cache_name_provider.go:204-311 | Whatever ids are in use, the primary keys and the collection key of a kind are a layout that the list theorem applies to |
| AuthzKeys.CreateEdgeVisible | authz/client.go:1268-1299 | After CreateEdge has returned with its sentinel, a list cached in any of its four collections was fetched after the edge was committed |
| AuthzKeys.EdgePlaced | authz/cache_name_provider.go:204-311 | The keys of an edge lie where the collection theorems want them: it is stored under keys that are neither collections nor lists, and nothing it clears is a list |
| AuthzKeys.CreateEdgeClearsLists | authz/client.go:1268-1299 | CreateEdge itself, whatever other clients do between its calls, is a legal run in which its four collections are cleared after the server has the edge |
| AuthzKeys.CreatedEdgeVisible | authz/client.go:1268-1299 | Once it has returned, a list cached in any of the four was fetched after the server had the edge |
| RedisTransactions.RedisClientCacheProvider.SetTransaction | infra/cache/redis_provider.go:330-380 | One attempt has no effect, or that of the atomic SetValue on the server's state at the commit (at the GET when nothing is sent); it fails only if others wrote to the lock key during it |
| RedisTransactions.RedisClientCacheProvider.SetValue | infra/cache/redis_provider.go:304-399 | With any interference: the answers and the one change are the atomic operation's at one state the server went through during the call; an error means no effect, and comes only from keys that are empty or lack the prefix, or after others wrote to the lock key during each of 15 attempts |
| RedisTransactions.RedisClientCacheProvider.ReleaseSentinel | infra/cache/redis_provider.go:222-286 | Exactly the keys that hold the sentinel at the commit are deleted; nothing happens only for keys that are empty or lack the prefix, a read-only client, or after others wrote to these keys during each of 15 attempts |
| RedisTransactions.SetValueUnwatched | infra/cache/redis_provider.go:330-380 | If the lock key has not changed since the GET, the commands decided on then are the atomic operation at the commit, whatever else changed |
| RedisTransactions.ReleasedUnwatched | infra/cache/redis_provider.go:239-268 | If no watched key has changed since the MGET, deleting what held the sentinel then deletes exactly what holds it now |
| RedisTransactions.ReleaseAgrees | infra/cache/redis_provider.go:239-249 | The two providers release the same keys if and only if there is a sentinel or no key holds an empty value |
| Counting.ReadBuckets | infra/cache/redis_provider.go:951-964 | The pass over the values gives the slots in use and the occupied buckets in order |
| Counting.UsedIsSum | infra/cache/redis_provider.go:951-964 | The slots in use are the sum of the buckets, negative ones taken as empty |
| Counting.OccupiedExactly | infra/cache/redis_provider.go:951-964 | The buckets to try are exactly those that hold slots, earliest first |
| ReserveSlots.LimitHolds | infra/cache/redis_provider.go:990-1073 | In every interleaving: initial slots plus grants never exceed the limit once something is granted, and a call is turned away only when they have reached it |
| ReserveSlots.QuietExact | infra/cache/redis_provider.go:990-1073 | When all calls are done the final bucket has grown by the grants, and as many calls got a slot as asked for one and as the limit left room for |
| ReserveSlots.PeekReads | infra/cache/redis_provider.go:1009-1042 | A call that does not ask for a slot changes no bucket and answers whether the sum of the buckets is below the limit, where only the final one may count as negative |
| ReserveSlots.GrantsDiffer | infra/cache/redis_provider.go:990-1073 | In every interleaving no two granted calls return the same total, and all of them lie above what was there before and within what the grants fill; a peek answers truly for its total; a call turned away returns a total that met the limit |
| ReleaseSlots.NeverOverReleased | infra/cache/redis_provider.go:937-986 | In every interleaving no bucket gives up more slots than it held, and its value is exactly accounted for |
| ReleaseSlots.QuietExact | infra/cache/redis_provider.go:937-986 | When all calls are done no bucket is negative, the sum has dropped by the decrements kept, and every call kept one as long as there were slots |
| ReleaseSlots.EarliestFirst | infra/cache/redis_provider.go:965-980 | A call that nobody interferes with takes its slot from the earliest bucket that has one and from no other |
| FilterText.ParseKeyUndone | infra/pagination/filter_parser.go:78-91 | Rewriting a JSON key adds quotes and nothing else |
| FilterText.AsciiBytes | infra/pagination/filter_parser.go:122-122 | The byte length is the character count if and only if the text is ASCII |
| FilterText.BytesNeeded | infra/pagination/filter_parser.go:122-122 | A character takes the fewest bytes that can carry it in UTF-8, n bytes carrying 7 bits for n = 1 and 5n + 1 otherwise |
| FilterLeaf.MatchExact | infra/pagination/filter_parser.go:76-76 | On a leaf of the grammar the leaf expression matches exactly that leaf, whatever follows |
| FilterLeaf.CutExact | infra/pagination/filter_parser.go:104-110 | Cutting the match at two commas gives back key, operator and value, commas inside the value included |
| FilterParses.RoundTrip | infra/pagination/filter_parser.go:43-160 | Every ASCII filter of the grammar parses, at every depth and with every operator chain, to a tree whose in-order print is the filter |
| FilterParses.LeafParsesIff | infra/pagination/filter_parser.go:93-124 | A lone leaf is accepted if and only if key and value are ASCII and the key is accepted |
| FilterParses.OperatorsIff | infra/pagination/filter_query.go:7-56 | Of all operators in capitals a lone leaf may have just EQ, GE, GT, LE, LT, NE, IL, LK, NL and HAS |
| FilterExact.RoundTripIff | infra/pagination/filter_parser.go:43-160 | Every filter of the grammar, over any characters and at any depth, parses to its own tree if and only if all of it is ASCII and every key is accepted |
| FilterExact.BadKeyIsRejected | infra/pagination/filter_parser.go:78-91 | An ASCII filter with a key anywhere in it that is not accepted is rejected for its key |
| FilterKeys.KeyParsesIff | infra/pagination/filter_parser.go:78-91 | A key is accepted if and only if it has at most one `->`, or exactly one `->>` whatever `->` it has besides |
| FilterKeys.KeyBecomes | infra/pagination/filter_parser.go:78-91 | Every accepted key is of one of three kinds, and becomes: with one `->>`, what follows it quoted; else with one `->`, what follows it quoted; with neither, itself |
| FilterKeys.ArrowKeyBecomes | infra/pagination/filter_parser.go:83-86 | A key `a->b` with that one arrow becomes `a->'b'` |
| FilterKeys.DeepKeyBecomes | infra/pagination/filter_parser.go:79-82 | A key `a->>b` with that one `->>` becomes `a->>'b'` |
| FilterKeys.ArrowLeafParses | infra/pagination/filter_parser.go:78-124 | A leaf on such a key parses to its operator over the quoted path and the value |
| FilterKeys.SplitCounts | infra/pagination/filter_parser.go:79-87 | Splitting at an arrow cuts at each position where it stands |
| FilterKeys.DeepPathParses | infra/pagination/filter_parser.go:78-82 | The path to a text inside a JSON column has two arrows, is accepted, and gets its last step quoted |
| FilterKeys.DeepPathRoundTrip | infra/pagination/filter_parser.go:43-160 | A filter on such a path makes the round trip |
| FilterExact.ClauseDropped | infra/pagination/filter_parser.go:117-124 | A value with 17 bytes more than characters carries the parser over the clause after it: the filter is accepted without the clause |
| FilterExact.AccentsDrop | infra/pagination/filter_parser.go:117-124 | Seventeen accented letters are such a value |
| FilterWeight.ParsedFits | infra/pagination/filter_parser.go:43-74 | For every input that is accepted, the tree accounts for no more bytes than the input has characters, one closing parenthesis aside |
| FilterRoundTrip.PrintBuilt | infra/pagination/filter_query.go:90-141 | The tree that stands for a filter prints as the filter |
| FilterRoundTrip.EscapedValueOk | infra/pagination/options.go:61-62 | Values with quotes only after a backslash and not ending in one are read to their end |
| FilterSpec.RunLeavesRoot | infra/pagination/filter_parser.go:43-74 | For every input, valid or not, the cursor is below the root once a character was accepted, so the final look at its parent is safe |
| FilterHeap.PopToAncestor | infra/pagination/filter_query.go:112-121 | Climbing by parent pointers along the spine reaches the ancestor of the functional parser, stale pointers off the spine notwithstanding |
| FilterHeap.FrozenRepresents | infra/pagination/filter_query.go:90-141 | The nodes left behind the cursor are trees that are never written again |
| FilterHeap.FilterQuery.AddChild | infra/pagination/filter_query.go:97-110 | The first child goes left, every later one right; nothing else changes |
| FilterHeap.FilterQuery.RotateLeft | infra/pagination/filter_query.go:131-141 | The children move below a new left child and keep this node as their parent |
| FilterHeap.FilterQuery.FindAncestor | infra/pagination/filter_query.go:112-121 | The walk terminates at the nearest nested node of the spine, or the root |
| FilterParser.Parser.ParseLeaf | infra/pagination/filter_parser.go:93-124 | The heap step is the functional leaf step: same error or same index and tree |
| FilterParser.Parser.ParseLogical | infra/pagination/filter_parser.go:129-146 | The heap step is the functional operator step |
| FilterParser.Parser.ParseEndNested | infra/pagination/filter_parser.go:148-155 | The heap step closes the nearest group, or reports it missing |
| FilterParser.Parser.ParseStartNested | infra/pagination/filter_parser.go:157-160 | The heap step opens a group below the cursor |
| FilterParser.Parser.Parse | infra/pagination/filter_parser.go:43-74 | For every input the loop ends with the functional parser's error, or with heap nodes that are its tree |
| FilterParser.CreateFilterQuery | infra/pagination/filter_parser.go:167-175 | The same from a string, in fresh nodes |
| PagerText.AtoiItoa | infra/pagination/query.go:118-143 | A written number is read back as itself |
| PagerExact.AtoiIff | infra/pagination/query.go:118-143 | A parameter is read as a number if and only if it is that number in decimal notation, with an optional sign and zeros in front, and fits 64 bits |
| PagerSpec.QueryRoundTrip | infra/pagination/pager.go:164-188 | Valid settings are unchanged by the trip through query parameters |
| PagerSpec.Finished | infra/pagination/pager.go:53-87 | What comes out of the options is valid, and its direction, tree and duplicate flag are those of the other settings |
| PagerFilters.FiltersParse | infra/pagination/options.go:103-113 | Any sequence of filter options, each empty or in the grammar, leaves one left-nested AND filter in the settings and nothing else, and it parses and prints back |
| PagerAgain.ReappliedIff | infra/pagination/options.go:103-113 | The same list of options gives the same settings a second time if and only if filters that are not empty are applied once at most |
| PagerFilters.OptionsParse | infra/pagination/options.go:103-113 | The same of filter options that are each given once, whatever objects they are |
| Pager.PagerOption.Apply | infra/pagination/options.go:12-156 | Each option changes its own settings; a filter option also takes in the clause before it |
| Pager.Paginator.ClassifySortKeys | infra/pagination/pager.go:107-126 | Without a result type, the flag is set if and only if some sort key occurs twice |
| Pager.Paginator.ValidateCursor | infra/pagination/pager.go:192-228 | Without a result type, a cursor is accepted if and only if it is the right end or a list of pairs with distinct keys |
| PagerExact.CursorValidIff | infra/pagination/pager.go:192-228 | The empty cursor is valid exactly when paging forward, "end" exactly when paging backward; any other exactly when it is a list of key:value pairs with distinct keys, without further commas or colons |
| PagerExact.JoinSplits | infra/pagination/pager.go:207-209 | Splitting a joined list gives back its parts |
| Pager.Paginator.Validate | infra/pagination/pager.go:231-287 | Without a result type, accepts exactly the valid settings |
| Pager.Paginator.ToQuery | infra/pagination/pager.go:164-188 | The query parameters are those of the round trip |
| Pager.Paginator.AdvanceCursor | infra/pagination/pager.go:93-105 | The cursor moves exactly when there is a page in the direction of paging |
| Pager.ApplyOptions | infra/pagination/pager.go:40-87 | The paginator has exactly the settings the specification gives, its parsed filter the tree, otherwise null; and every option holds what its turns have left in it, one that is given twice included |
| Pager.NewPaginatorFromQuery | infra/pagination/query.go:102-150 | Defaults first, then the query's options in order; a number that does not parse is an error |
| PagerExact.QueryMeans | infra/pagination/query.go:102-150 | A query without defaults is accepted if and only if each parameter is one of those allowed and it does not ask for both directions; the page is then the one it asks for, and what it does not ask for is 50 results forward from the beginning by ascending id |
| PagerExact.QueryOverrides | infra/pagination/query.go:102-150 | Over any defaults, every parameter of the query takes the place of what was there, but a filter joins it |
| ScannerSpec.MunchIsMaximal | idp/userstore/selectorconfigparser/lexer.go:41-93 | What the scanner accumulates is the longest accepted prefix with the lowest index, for every family and input |
| ScannerSpec.StuckDecides | idp/userstore/selectorconfigparser/lexer.go:80-122 | Once every automaton is dead no further rune changes the longest match |
| ScannerSpec.TokensAreMunches | idp/userstore/selectorconfigparser/lexer.go:69-158 | Every token is the maximal munch of the remaining input at its offset |
| ScannerSpec.CatchAllTiles | idp/userstore/selectorconfigparser/lexer.go:119-159 | With a catch-all the tokens tile a prefix of the input; nothing is dropped unless an automaton was waiting for more at the end |
| ScannerSpec.CoversAllIff | idp/userstore/selectorconfigparser/lexer.go:119-159 | With a catch-all, all of every input is tokenised if and only if every non-empty text on which some automaton is still alive is accepted by some automaton |
| ScannerSpec.CoversInput | idp/userstore/selectorconfigparser/lexer.go:119-159 | The texts concatenate to a prefix of the input, and to all of it if and only if the last token reaches its end |
| ScannerSpec.ColumnCounts | idp/userstore/selectorconfigparser/lexer.go:113-120 | A column is the distance from the last line break |
| ScannerSpec.LineCounts | idp/userstore/selectorconfigparser/lexer.go:113-120 | A line number is the number of line breaks before |
| ScannerSpec.GapsMatchNothing | idp/userstore/selectorconfigparser/lexer.go:119-124 | For every family: a rune that is in no token is passed over because nothing matches there, unless some automaton was waiting when the input ended |
| ScannerSpec.RestExact | idp/userstore/selectorconfigparser/lexer.go:69-159 | The scanner ends at the start of its last token if some automaton was waiting for more of it, and at the end of the input otherwise |
| Scanner.FramesShow | idp/userstore/selectorconfigparser/lexer.go:113-159 | There is one frame for each token, with its automaton, its runes of the input, the number of line breaks before it and the distance from the last of them; and a final one for where the scanner ends |
| Scanner.MoveStates | idp/userstore/selectorconfigparser/lexer.go:80-93 | Stepping the surviving automata is running all automata on one more rune |
| Scanner.StepAll | idp/userstore/selectorconfigparser/lexer.go:80-93 | One pass over the states steps each once and notes the best match so far |
| Scanner.Scan | idp/userstore/selectorconfigparser/lexer.go:36-162 | The loop terminates and sends the frames of the specification for every family and input, the final one included |
| LogQueue.NothingLost | infra/logtransports/transportBackgroundIOWrapper.go:137-205 | In every interleaving the batches handed on, the batch in flight and the list in insertion order are what was accepted |
| LogQueue.IdleExact | infra/logtransports/transportBackgroundIOWrapper.go:137-205 | With the writers idle, attempts are accepted plus dropped; with the background thread idle too, both counters are exact |
| LogQueue.AcceptedWereOffered | infra/logtransports/transportBackgroundIOWrapper.go:191-205 | Nothing is accepted that no writer came with, nor more often than writers came with it |
| LogEvents.RefusesExactly | infra/logtransports/transportBackgroundIOWrapper.go:169-197 | Each level has its own limit, and an event is refused exactly from that size on; events above all levels always are, those below all levels never |
| LogQueue.SizeBound | infra/logtransports/transportBackgroundIOWrapper.go:169-205 | With n writers and no event at the lowest level the size never exceeds the limit by n |
| LogQueue.FloodGrows | infra/logtransports/transportBackgroundIOWrapper.go:191-205 | With events at the lowest level there is no bound: one writer reaches any size |
| LogBuffer.ReverseInPlace | infra/logtransports/transportBackgroundIOWrapper.go:154-162 | Turning the pointers around yields the same nodes in reverse and counts them |
| LogBuffer.TransportBackgroundIOWrapper.WriteToIO | infra/logtransports/transportBackgroundIOWrapper.go:137-167 | The batch is the list in insertion order, the counters move by its size, and the start time is that of the newest record |
| LogBuffer.StartIsEarliestIff | infra/logtransports/transportBackgroundIOWrapper.go:150-153 | Of a batch in the order of time the start time is the latest, and the earliest if and only if all records were made at one time |
| LogBuffer.StartTimeLate | infra/logtransports/transportBackgroundIOWrapper.go:150-153 | Two records made one after the other: the start time is not the earliest |
| LogBuffer.TransportBackgroundIOWrapper.WriteLogRecord | infra/logtransports/transportBackgroundIOWrapper.go:191-205 | A record is refused and counted, or becomes the new head before all the others; while the clock does not go back the batch stays in the order of time |
| LogBuffer.ReversedEvents | infra/logtransports/transportBackgroundIOWrapper.go:154-162 | Reversing the nodes reverses the events |
| LogTransfer.Encoder.Add | infra/logtransports/shared.go:25-50 | A record is appended to its tenant's records and to no other's, whether its array is new, growing or full |
| LogTransfer.AddRest | infra/logtransports/shared.go:52-58 | Whatever the order of the map, every array not yet set aside is sent once |
| LogTransfer.EncodeLogForTransfer | infra/logtransports/shared.go:21-59 | Each tenant's arrays, in output order, hold exactly its records in order; none is empty or over 1001, and all but a tenant's last are full |
| LogTransfer.OnlyAt | infra/logtransports/shared.go:27-33 | The record of an event stands behind those of the tenant's events before it, with its code, payload and time, and with its message led by the request unless it is empty |
| LogTransfer.OnlyCounts | infra/logtransports/shared.go:25-50 | A tenant has as many records as events |

## Left out

- Time: expiration of keys is a step that may happen at any moment, under the stated conditions that locks and tombstones outlast the operations and answers they protect; wall-clock TTLs and retries after timeouts are not modelled.
- JSON encoding, tracing, metrics, logging, HTTP, token refresh: values are opaque texts and never start with a sentinel or tombstone prefix; uuids are fresh.
- ItemConsistency.TwoWritersConsistent: deletes, failing writes and evictions happen while nothing else is in flight; `ItemConsistency.GuardedConsistent` has the general statement and `ItemExact` its exact limits.
- ItemConsistency.GuardedConsistent: the three guards are assumed of the run; where one is broken, `ItemExact` shows that a stale value can follow. Writes that bypass the cache are not steps of the protocol: bypassing is documented for reads only.
- ListConsistency.ListReadsConsistent: assumes that no secondary key is another item's primary key or the collection's key. It is false without that (`ListConsistency.SecondaryKeysIff`), and names can break it (`AuthzKeys.NameApartIff`).
- CacheManager.Manager.SaveItemToCacheWorker: the only provider failure is a refused registration; the in-memory provider has no others.
- CacheManager.Manager.CreateItem: a call without any cache manager, which only asks the server, is not modelled.
- CacheManager.Manager.GetItem: the variant with a modified key is not modelled; it decides which of the server's replicas is asked.
- ItemSimulation.CreateSimulates: the server is taken to answer with the item it was asked for, of a type that is cached.
- ItemSimulation.GetSimulates: the server is taken to answer with the item it was asked for.
- CollectionOperations.CreateClearsAll: the item is taken to lie under keys that are neither collections nor lists (`AuthzKeys.EdgePlaced` proves it of edges), and the steps of other clients to be those of the collection protocol.
- CollectionSafety.DependencySafety: other operations are taken to store items under keys that are neither collection nor dependency keys; `AuthzKeys.AliasIsCollectionIff` says which aliases break that. The list of edges of an object is filled from responses that fit on one page.
- Agreement of secondary keys (alias, type name) with primary keys: SetValue checks the lock key alone, so there is no such property.
- GetValues, the isModified follower reads, layered caches and the pages of a global collection, beyond the lists they register in.
- Redis WriteSentinel, GetValues, DeleteValue, AddDependency and ClearDependencies: WriteSentinel watches its first key only, so it does not keep tombstones of the others.
- RedisTransactions.RedisClientCacheProvider.SetValue: network errors, after which a commit may or may not have happened, are not modelled.
- ReserveSlots.LimitHolds: no release runs at the same time, no bucket expires, and counters are unbounded integers; values that are not numbers fail the call before any step.
- ReleaseSlots.QuietExact: no reservation runs at the same time; the remaining total that a call returns is not modelled.
- Accepted filters outside the grammar: the parser also accepts some unbalanced ones, so "accepted implies balanced" is not claimed. The SQL generated from the tree is not modelled.
- FilterParses.RoundTrip: stated for the grammar with accepted keys and ASCII text, because it is false of every other filter (`FilterExact.RoundTripIff`). Which of those are still accepted, with another tree, is answered for lone leaves only.
- PagerSpec.QueryRoundTrip: for a paginator without a result type, so without server-side validators; the limit multiplier does not travel, and URL escaping is not modelled.
- Pager.Paginator.ClassifySortKeys: supported keys and the final sort key belong to a result type, which nothing in the repository sets.
- Pager.Paginator.ValidateCursor: the validator of keys and values belongs to a result type.
- Pager.Paginator.Validate: the checks of a result type are not modelled.
- The scanner's concrete transition tables, nested families, transitions at the start or end of input (the generated tables have none), the goroutine, its stop channel and the parser behind it. A transition table is a finite map whose missing runes are the dead end.
- Scanner.Scan: on end of input it sends one token and drops the lookahead after it, as in the code; `ScannerSpec.CoversAllIff` says for which families all input is tokenised nevertheless.
- LogQueue.SizeBound: timers, flush and close are the same drain step; accounting inside the transports is not modelled.
