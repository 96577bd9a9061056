# BitBoxSync client: a verified model of the sync protocol

The `bitboxsync` engine keeps app-owned values of several clients in step through a server that stores
encrypted item versions. This project models what one sync pass does, step by step, and proves what the
protocol promises: about every interleaving of all clients, application writes, lost acknowledgements and
aborted passes; about one undisturbed pass; and about whole sequences of passes. Smaller parts cover the
canonical encodings, the invite URI and the polling backoff.

## How the model is built

* **One item** (`ItemLog`). A view of an item is what one client stores for it (record, backend value, and a
  history of everything that happened to it there) joined with the server's version history of it. The steps
  are the durable or observable actions: an application write, a settled conflict, a download, a merge, a
  backend write, a persisted record, a PUT. What the engine promises about an item is stated about its history:
  an upload of version v+1 must be preceded by taking v in, a backend write must be lossless, a merge base must
  be the server's plaintext at the base version.
* **One namespace** (`Network`). Any number of clients, each with items, a checkpoint (head and scope digest),
  and the server with one history per item and a head that counts accepted writes. A run is any sequence of
  enabled steps; `Reachable` means reached by some run from a state in which nothing was synchronised. The
  counting argument behind the namespace head uses an auxiliary vector `seen` of the versions the saved head
  accounts for.
* **The engine** (`Engine`, `Sync`) is imperative, as in the source: a class for the item record that the
  `markItem*` helpers update, a class for the engine whose methods follow the source branch by branch, loops
  over the item map and the dirty list. It works on a `World`: the metadata store, the value backend and the
  server. Every operation of the world may fail, and after every operation that reads or changes something
  `Interfere` may have taken any number of steps of other clients and of the application (conflict resolutions of
  an item excepted while its lock is held); `Keys` is not followed by such steps, since its answer does not depend
  on the state. `Interfere`, `Fault`, `StoreFault` and `Forge` (the answers of a dishonest server) are
  nondeterministic: callers may rely on their contracts only, and their bodies show one behaviour these contracts
  allow. The world records every request with its answer (`calls`), everything that went wrong (`faults`: failed
  operations, missing values that were needed, merges that broke) and every snapshot (`shots`), and keeps all its
  states. The contracts speak about these records, so that they bind the engine on a dishonest server and among
  failures too: a method fails exactly with the one fault recorded during it, or with the rollback error for an answer
  that takes something back.
* **Three settings.** `honest` worlds have a server that keeps and reports what it accepted; there every state
  is reachable and the engine's steps are proved to be enabled, so everything proved of `Reachable` states holds
  of the engine. In worlds that are not honest any answer may come, and the promises are those that need no help
  from the server: nothing recorded goes backwards, and what is done with each answer. `calm` worlds have neither interference nor failures; there every engine method is proved to compute a
  function of `PassSpec`, and `PassResults`, `Convergence` and `Recovery` prove what those functions achieve. A world
  may also fix the scope, which means that the application keeps returning the same keys during the pass.
* **Values** are byte strings. Encryption is ideal: opening an item gives what was sealed for that item and
  version. The scope digest of the step system is injective; `Encodings` shows for which names the input of the
  source's digest is, and `Digests` carries the result over to it. Passes of one client are
  serial, as `syncMu` makes them.

An item whose value exceeds the size limit, or that is in conflict, is skipped by the upload without an error,
so convergence does not hold of every state. The theorems name both conditions: with uploadable values
convergence is proved to hold exactly if no conflict is outstanding, and with merges that never shrink an
oversized local value exactly if, in addition, no value is oversized. An item that is behind the server but already
holds the newest value costs a refused PUT if it is queued and the item map is not read; that is proved to be the
only case. The scope digest determines the scope exactly if collection names cannot contain the byte 0, nor the
byte 1 together with a hexadecimal digit.

## Modules

| file | content |
|---|---|
| `Prelude`, `Ordering`, `Decimal` | bytes, results, sorted lists, decimal numbers and entity tags |
| `ItemState`, `ItemLog`, `Network` | record, one item, all clients and the server |
| `Guarantees` | what holds in every reachable state |
| `World`, `Engine`, `Sync` | surroundings, work on one item, the sync pass |
| `PassSpec`, `PassResults` | one undisturbed pass over one item, and what it achieves |
| `Convergence`, `Rounds`, `Recovery` | sequences of passes, interrupted and quiet passes, scope changes |
| `MergePolicies`, `Collections`, `MemoryBackend` | merge functions and codecs, settling conflicts, the in-memory backend |
| `Encodings`, `Digests` | joined keys, the input of the scope digest, and what the digest must be for the protocol |
| `Payloads`, `Invite`, `Backoff` | signed payloads, invite URI, polling interval |

## Model

| member | source | states |
|---|---|---|
| Guarantees.NoFalseRollback | bitboxsync/engine_items.go:39-59 | in every reachable state the saved head and every recorded version are at most the server's, so no rollback check can fire on an honest server |
| Guarantees.SkippingIsSound | bitboxsync/engine_namespace.go:270-291 | if the saved head equals the server's and the saved digest the current scope's, every active item is at the server's version or dirty, not in conflict and older |
| Guarantees.NoLostUpdate | bitboxsync/engine_items.go:305-416 | whenever a client's PUT created version v+1 on top of v, the uploaded value was held at a moment when v was the stored version, with no record persisted since, and by that moment v had been downloaded, written to the backend and recorded as clean, or downloaded, merged with the local value, the merge result written and v recorded as its base, or uploaded from here with its acknowledgement recorded, or shown as a conflict the application resolved; over all interleavings |
| Guarantees.DownloadIsNotEnough | bitboxsync/engine_items.go:149-232 | a history of downloads, merges and persisted records alone, without a backend write, an upload or a resolution, accounts for no version |
| Guarantees.EveryVersionBuildsOnItsPredecessor | bitboxsync/engine_items.go:321-350 | every version on the server was uploaded by some client, and what it uploaded was held when the version before it was the stored one and accounted for, in the sense of NoLostUpdate |
| Guarantees.UploadsFollowTheRecord | bitboxsync/engine_items.go:321-350 | every PUT was guarded by the version stored at that moment, for a dirty item not in conflict, and every refused one was older than the server's version at the moment of refusal |
| Guarantees.NoEditOverwritten | bitboxsync/engine_items.go:149-256 | every backend write by sync replaced an absent value, the server's plaintext at the clean base, the very value written, or the local input of the merge whose result is written |
| Guarantees.MergesAreGenuine | bitboxsync/engine_items.go:197-205 | every merge ran on a value the backend had held, a decrypted remote version newer than the record, and a base that is the server's plaintext at the base version, absent exactly if that is 0 |
| Guarantees.EveryRecordSound | bitboxsync/engine_items.go:480-520 | every record ever persisted, after any single store write, satisfies the metadata invariant and agrees with the server history, and has a merge base exactly if its base version is positive |
| Guarantees.ConflictFreezes | bitboxsync/engine_items.go:150-157 | in every reachable state, from a conflict to its resolution nothing but application writes, downloads and newer conflict records happened; the base stayed, and the conflict shows the server's plaintext at the recorded version |
| Guarantees.ResolvedUploadIsGuarded | bitboxsync/collection.go:75-149 | in every reachable state, the next PUT after a resolution was guarded by the version the application was shown, unless a newer record was persisted in between, whose version is then the guard |
| Guarantees.HistoryIsComplete | bitboxsync/types.go:131-162 | the history of an item determines the stored record and the backend value in every reachable state |
| ItemLog.StepKeeps | bitboxsync/engine_items.go:149-520 | every enabled step on an item keeps the item invariant: sound record, justified history, accounted version |
| Network.StepKeepsInv | bitboxsync/engine_namespace.go:270-291 | every enabled step of any client keeps the invariant of the whole namespace, including that the server head is the number of versions and that no checkpoint hides a newer version of a clean active item |
| Network.RunKeepsInv | bitboxsync/engine_run.go:150-177 | the invariant holds at every point of every run |
| Network.TotalBelow | bitboxsync/engine_items.go:358-363 | the counting argument: heads that count fewer writes per item are smaller, and equal heads mean equal versions of every item |
| ItemState.Item.MarkClean | bitboxsync/engine_items.go:484-491 | the record becomes clean at the version with that base, without conflict |
| ItemState.Item.MarkDirty | bitboxsync/engine_items.go:493-496 | only the dirty flag changes |
| ItemState.Item.MarkDirtyWithBase | bitboxsync/engine_items.go:498-505 | dirty on top of the remote version, which becomes the base |
| ItemState.Item.MarkConflict | bitboxsync/engine_items.go:507-514 | version, dirty flag and conflict move to the remote version; the base is left alone |
| ItemState.Item.ClearConflict | bitboxsync/engine_items.go:516-520 | the conflict is gone, everything else stays |
| World.World.SetIfCurrent | bitboxsync/engine_items.go:543-555 | the backend value is replaced exactly if it is what was read; the engine must show that the write is lossless |
| World.World.PutItem | raw/client.go:567-603 | an honest server accepts exactly if the guard is its version; the answer carries the guard plus one; the answer may get lost after acceptance; guard, value and outcome are recorded among the calls |
| World.World.GetItem | bitboxsync/engine_items.go:461-478 | an honest server returns its newest version, a dishonest one anything; the answer, or that none came, is recorded among the calls |
| World.World.SaveBumpedHead | bitboxsync/engine_items.go:358-363 | the saved head grows by one after an acknowledged upload, never beyond what it accounts for |
| World.World.constructor | bitboxsync/engine_run.go:150-177 | a world can be set up around any well-formed namespace, honest if nothing was synchronised yet |
| Engine.Engine.KeepDirtyAfterValueRace | bitboxsync/engine_items.go:258-270 | after a lost compare-and-set exactly the dirty flag of the stored record changes, and nothing is sent; it fails only if the store does |
| Engine.Engine.ApplyCleanRemoteValue | bitboxsync/engine_items.go:234-256 | if the backend still holds what was read, the remote value replaces it and becomes the clean base, otherwise the item stays queued; it fails only if the store or the backend does; undisturbed exactly TakeRemote |
| Engine.Engine.MergeRemoteValue | bitboxsync/engine_items.go:193-231 | equal values are taken as clean, others merged; it fails only if the store or the backend does, or the merge function; undisturbed exactly MergeRemote |
| Engine.Engine.RunMergePolicy | bitboxsync/engine_items.go:197-221 | a resolved merge is written and queued on the remote base (clean if it is the remote value), an unresolved one recorded as conflict without touching the base; the record stays as it was, and queued, only if the application had changed the value; a merge error is returned exactly if the merge function fails, anything else only if the store or the backend does; undisturbed exactly MergeRemote |
| Engine.Engine.ApplyRemoteValueLocked | bitboxsync/engine_items.go:149-232 | under any interference and on any server the new record is clean or dirty on the applied version, or in conflict with it over the old base; the old one stays, and queued, only if the application wrote to the item meanwhile, which is no failure; it fails exactly if an operation did, the merge broke, or a queued item had no value; undisturbed exactly ApplyRemote |
| Engine.Engine.FetchAndApplyRemoteItem | bitboxsync/engine_items.go:111-145 | one GET; the record afterwards shows exactly the version that was answered, unless it had caught up or the application wrote meanwhile; the rollback error comes exactly if the answer is older than the known or the announced version, and then nothing is applied; undisturbed exactly PullItem |
| Engine.Engine.FetchAndApplyForConflictLocked | bitboxsync/engine_items.go:444-458 | the same after a refused upload: one GET and no PUT, the rollback error exactly if the answer is older than the record |
| Engine.Engine.Upload | bitboxsync/engine_items.go:321-350 | one PUT of the value the backend holds, guarded by the stored version, or none if it is missing, too large or cannot be read; undisturbed exactly UploadSpec |
| Engine.Engine.SaveUpload | bitboxsync/engine_items.go:353-366 | the acknowledged version and plaintext become the clean base, and the saved head grows by exactly one |
| Engine.Engine.FlushDirtyItem | bitboxsync/engine_items.go:305-416 | on any server and under any interference the requests are a PUT, after a refusal a GET, after its answer a PUT, after a refusal a GET, and no more; a success means that the record shows what the last of them brought (an accepted upload as the clean base, a downloaded version unless the application wrote), and without a request that at some moment there was nothing to upload; the rollback error comes exactly if a download is older than the refused guard, any other exactly if something went wrong, and a rejected token only from the last request; undisturbed exactly FlushItem, the head growing with the versions |
| Engine.Engine.RetryUpload | bitboxsync/engine_items.go:384-413 | the single retry: one PUT if the item still is queued and has a value that fits, and if it is refused one GET whose answer the record then shows; an honest server answers with a version newer than the guard |
| Engine.Engine.ReconcileSnapshotValue | bitboxsync/engine_snapshots.go:62-107 | a snapshot value that differs from the clean base queues the item, any other leaves the record alone, and nothing is sent; it fails exactly if the store does; undisturbed exactly ReconcileItem |
| Sync.LoadActiveScope | bitboxsync/engine_discovery.go:53-87 | the collections are exactly the registered ones and every item belongs to one of them; the scope equals the one the application keeps returning, if it does; it fails exactly if a Keys call does |
| Sync.ReconcileLocalSnapshots | bitboxsync/engine_snapshots.go:18-60 | only active items are touched; under any interference success means that a snapshot of every registered collection was taken, in order, that none failed, and that every active item found in one was compared with the value found: at some moment its record was in conflict, queued, or had that value as clean base; undisturbed every active item is reconciled and nothing else changes |
| Sync.CollectLocalItems | bitboxsync/engine_items.go:50-70 | accepts the item map exactly if it neither drops nor lowers any stored item, active or not, and collects the active ones |
| Sync.FetchItemMap | bitboxsync/engine_items.go:34-70 | on any server: it succeeds exactly if the map was answered, its head is not below the saved or the listed one, the stored items could be listed and the answered map neither drops nor lowers one of them; the rollback error comes exactly if the map was answered and its head is too low or, compared with the list, it takes something back |
| Sync.PullItems | bitboxsync/engine_items.go:72-91 | one GET of each stale active item, in any order, until one fails; the rollback error exactly if an answer is older than the map announced; on success every active item is at its announced version or queued, on any server; undisturbed exactly the stale items are pulled |
| Sync.SyncNamespaceItems | bitboxsync/engine_items.go:33-107 | on any server: unless the answered map passes the checks of FetchItemMap the call fails and no item, backend value or checkpoint changes; otherwise exactly the stale active items are downloaded, each once; the checkpoint is saved only if all were answered, with the head of the map, and then every active item is as new as the map says, or queued; with an honest server it accounts for every version that existed before |
| Sync.SyncNamespaces | bitboxsync/engine_namespace.go:201-302 | on any server: the item map is read exactly if the answered head is above the saved one or the scope changed; a head below the saved one ends it with the rollback error before anything changes, and so does a map that takes something back; on success the checkpoint covers the scope and, with an honest server, every earlier version; the head never decreases |
| Sync.NamespaceStops | bitboxsync/engine_namespace.go:201-302 | an answer that takes back what was recorded, or a request that fails, leaves the checkpoint alone and fails the call; nothing is uploaded |
| Sync.FlushDirtyItems | bitboxsync/engine_items.go:273-421 | only active items are asked for and touched; success means that every request was answered and that the upload of every active item was attempted or at some moment there was nothing to upload; the rollback error comes exactly if a download was older than the guard just refused, any other exactly if something went wrong; undisturbed every active item is flushed and the saved head stays abreast of the server's |
| Sync.Pass | bitboxsync/engine_run.go:159-169 | success means that every snapshot was taken and compared, every request answered and every upload attempted; it fails exactly with what went wrong, or with the rollback error, and then an answer was older than what was recorded at some moment, than the head or the item map just read, or than the guard just refused; if the server takes back something recorded at the start, it fails without any upload and without saving a checkpoint; the three phases together have exactly PassEffect when undisturbed, and with an honest server catch up with it in any case |
| Sync.PassOnceOrTwice | bitboxsync/engine_auth.go:112-130 | a second pass is made exactly if the first ended with a rejected token, its last request showing that; a rejected token is returned only if the last request of the second pass was rejected too |
| Sync.SyncNow | bitboxsync/engine_run.go:150-177 | under any interference and failure and on any server: if the first thing that went wrong is a rejected token, the pass is made once more after that request, and what then went wrong is returned, otherwise there is one pass; success means that the last pass did all its phases promise; recorded versions and head never go back, only active items are touched, the rollback error has one of the reasons named for Pass, and an answer that takes back something recorded at the start ends it, before any further upload; with an honest server the state stays reachable, no rollback error comes, and success means every active item is as new as the server was at the start, or queued; undisturbed it succeeds with exactly PassEffect |
| Sync.AccountedIsCaughtUp | bitboxsync/engine_run.go:159-169 | what the saved checkpoint accounts for is not lost again by the rest of the pass |
| World.SessionForward | bitboxsync/engine_items.go:33-106 | whatever the server answers, a session takes neither a recorded version nor the saved head backwards |
| PassResults.PassSyncs | bitboxsync/engine_run.go:150-177 | one undisturbed pass leaves backend, base and server equal at the newest version of the item, from any invariant state without conflict and with an uploadable value |
| PassResults.RestIsNotUploaded | bitboxsync/engine_items.go:315-317 | an item at rest is not uploaded |
| PassResults.PassDoesNotBreak | bitboxsync/engine_items.go:202-205 | a merge that resolves encoded values fails no pass |
| PassResults.ArrivedValueIsRecorded | bitboxsync/engine_items.go:193-195 | a newest version that already is in the backend is recorded as clean without merge and without PUT |
| PassResults.ArrivedValueUnread | bitboxsync/engine_items.go:369-411 | a queued item whose newest version already is in the backend ends in step with the server even if the item map is not read: one refused PUT, one download, the write of the same value and the clean record, and nothing else |
| PassResults.QuietExactly | bitboxsync/engine_snapshots.go:89-94 | without reading the item map a pass leaves an item alone exactly if it is quiet: in conflict, without value, oversized, or clean and unedited |
| PassResults.ConflictOutlastsPass | bitboxsync/engine_items.go:150-157 | a conflict outlasts every undisturbed pass and its item is not uploaded |
| PassResults.PassKeepsEncoding | bitboxsync/engine_items.go:326-338 | an undisturbed pass leaves encoded what was, and a value too large to upload stays too large if merges never shrink an oversized local value |
| Convergence.TwoRoundsConverge | bitboxsync/engine_run.go:150-177 | two sequential rounds of all clients, in any order, from any reachable state without conflicts, leave every backend, base and the server equal on every active item, and the second round uploads nothing |
| Convergence.ConvergesIffNoConflict | bitboxsync/engine_run.go:150-177 | with uploadable values that happens exactly if no active item was in conflict |
| Convergence.ConvergesExactly | bitboxsync/engine_run.go:150-177 | with merges that never shrink an oversized local value, as PreferLocal, and encoded values, two rounds end with everything equal exactly if no active item was in conflict and no value was too large to upload |
| Convergence.OversizedOccurs | bitboxsync/engine_items.go:335-338 | a reachable state without conflict whose value is one byte too large to upload |
| Convergence.Convergence | bitboxsync/engine_run.go:150-177 | from every state reached with encoded values and always-resolving merges two rounds converge: conflicts cannot have arisen |
| Convergence.RunStaysProper | bitboxsync/engine_items.go:197-221 | with encoded application values and always-resolving merges, no run ever produces a conflict or a value that is not an encoding |
| Rounds.SyncInTurn | bitboxsync/engine_run.go:150-177 | engines that call SyncNow one after the other for two rounds end with every backend, base and the server equal, the second round uploading nothing |
| Recovery.LostAcknowledgementIsAbsorbed | bitboxsync/engine_items.go:193-195 | after an accepted PUT whose acknowledgement got lost, the next undisturbed pass reads the item map and makes the item clean at the server's version without merge and PUT |
| Recovery.LostSaveIsAbsorbed | bitboxsync/engine_items.go:234-256 | whenever the backend already holds the newest version and the record is older and not in conflict, clean or dirty, the next undisturbed pass makes it clean at that version without a merge; it sends no PUT exactly if it reads the item map, and it always reads it if the record was clean |
| Recovery.ArrivalMayGoUnread | bitboxsync/engine_namespace.go:284-291 | a reachable state in which such a record is dirty and the next pass does not read the item map, so that the PUT is sent and refused |
| Recovery.AcceptedPutMayBeLost | bitboxsync/engine_items.go:344-366 | an accepted PUT leads to such a state |
| Recovery.UnaccountedForcesFetch | bitboxsync/engine_namespace.go:270-279 | a version the checkpoint does not account for makes the next pass read the item map |
| Recovery.QuietPass | bitboxsync/engine_namespace.go:284-291 | with head and scope matching, a pass changes nothing, reads no item map and sends no item request exactly if every active item is quiet |
| Recovery.ReturnToScope | bitboxsync/engine_namespace.go:275-279 | an item that comes back into scope makes the pass read the item map and ends in step with the server |
| Recovery.ScopeIsolation | bitboxsync/engine_discovery.go:26-32 | under any interference, everything that happens to items outside the touched set comes from the application |
| MergePolicies.MergeCommutesWithEncoding | bitboxsync/collection.go:153-184 | the byte-level merge of encodings is the encoding of the typed merge, errors included |
| MergePolicies.PoliciesResolve | bitboxsync/merge.go:7-19 | collections registered with PreferLocal or PreferRemote meet what the convergence theorems ask of merges |
| MergePolicies.PoliciesChoose | bitboxsync/merge.go:7-19 | on encodings PreferLocal keeps the local value and PreferRemote takes the remote one, whatever the base |
| MergePolicies.PreferLocalIsStubborn | bitboxsync/merge.go:7-19 | collections registered with PreferLocal meet what the exact convergence theorem asks of merges |
| MergePolicies.NoMergeNeverResolves | bitboxsync/merge.go:23-27 | NoMerge leaves every decodable difference as a conflict |
| MergePolicies.UnregisteredConflicts | bitboxsync/engine_discovery.go:123-131 | without a registered merge function every difference becomes a conflict over the old base, and the local value stays |
| MergePolicies.EncodingsAreImages | bitboxsync/types.go:278-284 | for a faithful codec a byte string is an encoding exactly if it encodes some value |
| Collections.Collection.ResolveConflictWithValue | bitboxsync/collection.go:75-97 | a conflict is settled by the chosen value, whatever it is, queued on the unchanged base; without a conflict nothing changes; nothing is sent; it fails exactly if the item is unknown or the store or backend fails |
| Collections.Collection.ResolveConflictPreferLocal | bitboxsync/collection.go:101-123 | a conflict is settled in favour of the present local value, queued on the unchanged base; it fails only if the item is unknown, has no value, or the store or backend fails |
| Collections.Collection.ResolveConflictPreferRemote | bitboxsync/collection.go:127-149 | the remote side, if it decodes, is written as the encoding of what it decodes to, and version and plaintext of the remote side become the clean base; it fails exactly if the item is unknown, the remote side does not decode, or the store or backend fails |
| Collections.SettlingKeepsBase | bitboxsync/collection.go:87-89 | settling by a value or the local value never moves the base and leaves the shown version as the next guard |
| Collections.PreferRemoteRests | bitboxsync/collection.go:140-144 | taking the remote side makes the server's plaintext of the shown version the clean base, and leaves nothing to upload exactly if the value written encodes to those very bytes |
| Collections.ChosenValueIsUploaded | bitboxsync/collection.go:73-97 | a chosen value becomes the version after the one shown in the next undisturbed pass, with one PUT and no further merge |
| MemoryBackend.MemoryValueBackend.Keys | bitboxsync/memory_backend.go:29-33 | every stored key once, in ascending order |
| MemoryBackend.MemoryValueBackend.Get | bitboxsync/memory_backend.go:43-52 | the stored value, if any |
| MemoryBackend.MemoryValueBackend.Set | bitboxsync/memory_backend.go:55-63 | the value of one key is replaced, no other |
| MemoryBackend.MemoryValueBackend.SetIfCurrent | bitboxsync/memory_backend.go:67-82 | the value is replaced exactly if what is stored (or its absence) is what the caller read; otherwise nothing changes |
| MemoryBackend.MemoryValueBackend.Snapshot | bitboxsync/memory_backend.go:36-40 | a copy of exactly the stored values |
| Ordering.UniqueSortedStrings | bitboxsync/engine_discovery.go:89-96 | the strictly ascending list of the same strings |
| Ordering.AscendingIsUnique | bitboxsync/engine_discovery.go:39-48 | a set has only one strictly ascending list, so sorting makes the digest input independent of iteration order |
| Ordering.LessExactly | bitboxsync/engine_discovery.go:89-96 | strings are ordered by the first byte in which they differ, or the shorter one comes first |
| Encodings.JoinKeyParts | bitboxsync/engine_discovery.go:168-175 | the loop computes the length-delimited concatenation |
| Encodings.JoinedLayout | bitboxsync/engine_discovery.go:168-175 | a joined key begins with the length of its first part in eight bytes, most significant first, then that part, then the others |
| Encodings.SplitUndoesJoin | bitboxsync/engine_discovery.go:168-175 | joined keys are uniquely decodable, whatever the parts contain |
| Encodings.JoinUndoesSplit | bitboxsync/engine_discovery.go:168-175 | only joined keys are decodable, so splitting and joining are inverse |
| Encodings.JoinIsInjective | bitboxsync/engine_discovery.go:157-175 | different lists of parts have different keys |
| Encodings.LogicalKeysDiffer | bitboxsync/engine_discovery.go:162-166 | logical keys determine collection and key, so active items never collide |
| Encodings.HashInput | bitboxsync/engine_discovery.go:34-51 | the digest input is the fixed prefix and the marked, sorted names; there is none without a collection |
| Encodings.ScopeTextLayout | bitboxsync/engine_discovery.go:34-51 | each further collection adds the byte 0 and its name, each further item the byte 1 and its ID |
| Encodings.ScopeTextExactly | bitboxsync/engine_discovery.go:34-51 | over scopes with at least one collection and items named by 64 lowercase hexadecimal digits, the digest input determines collections and items exactly if collection names cannot contain the byte 0, nor the byte 1 together with such a digit |
| Encodings.CollisionWithOne | bitboxsync/engine_discovery.go:34-51 | a collection whose name is another one's, the byte 1 and an item ID has the digest input of that other collection with that item |
| Encodings.CollisionWithZero | bitboxsync/engine_discovery.go:34-51 | one collection named by four zero bytes has the digest input of two, named by one and by two |
| Digests.ComputeHash | bitboxsync/engine_discovery.go:34-51 | the digest is that of the sorted names and item IDs of the scope, and there is none without a collection |
| Digests.DigestDeterminesScope | bitboxsync/engine_discovery.go:34-51 | two scopes with the same digest are the same scope, if collection names are made of separable bytes and neither item IDs nor SHA-256 collide on them |
| Digests.SkippingByDigestIsSound | bitboxsync/engine_namespace.go:270-291 | what SkippingIsSound says holds of the digests that the source compares, under that condition on the saved and the current scope |
| Payloads.CanonicalIsInjective | protocol/crypto.go:393-592 | item data, login, refresh, sensitive-action and join-request payloads determine their inputs, and no two kinds ever coincide |
| Payloads.BuildItemAADFromBytes | protocol/crypto.go:245-255 | prefix, the byte 1, both identifiers and the version in eight bytes, most significant first, at these places; and the text of ItemAADExactly |
| Payloads.ItemAADExactly | protocol/crypto.go:245-255 | without length checks exactly the identifiers run together and the version are determined |
| Payloads.LoginIntent | protocol/crypto.go:393-420 | exactly the inputs with the right lengths and the known key kind are accepted; the 148 bytes are prefix, two marks, challenge, kind, key ID, auth key and wrap key, each at its place |
| Payloads.RefreshIntent | protocol/crypto.go:424-442 | exactly the inputs with the right lengths and the known key kind are accepted; the 84 bytes are prefix, two marks, challenge, kind and key ID, each at its place |
| Payloads.SensitiveActionIntent | protocol/crypto.go:446-469 | exactly the inputs with the right lengths, a known action and the known key kind are accepted; prefix, two marks, action, challenge, kind, key ID and the action's fields stand at their places |
| Payloads.JoinRequestPayload | protocol/crypto.go:554-592 | exactly the inputs with the right lengths and the known key kind are accepted; the 193 bytes are prefix, mark, namespace, invite, origin hash, kind, key ID, auth key, wrap key and the expiry in eight bytes, each at its place |
| Payloads.InviteFields | protocol/crypto.go:473-494 | exactly the inputs with the right lengths are accepted; the 76 bytes are namespace, invite, secret hash, and expiry and maximum as numbers of eight and four bytes, most significant first |
| Payloads.InviteFieldsAreInjective | protocol/crypto.go:473-494 | the action fields of an invite determine its parameters |
| Decimal.IfMatchExactly | protocol/crypto.go:938-959 | a header is read as a version exactly if it is that version's quoted form |
| Decimal.IfMatchText | protocol/crypto.go:942-959 | a blank header asks for nothing, and exactly the quoted decimal numbers below 2^64 without leading zeros are read as versions |
| Decimal.TagsDiffer | protocol/crypto.go:938-940 | different versions have different tags |
| Invite.CanonicalServerOriginIsIdempotent | protocol/crypto.go:595-644 | canonicalising an origin twice changes nothing |
| Invite.OriginExactly | protocol/crypto.go:595-644 | for every host and port over the plain characters, which origins are accepted and what they become: the host neither begins nor ends with a dot or a hyphen and has no two dots and no dot and hyphen side by side, a port without leading zeros below 65536, 443 dropped, at most 128 characters |
| Invite.PlainLibrary | protocol/crypto.go:595-792 | a URL library that does with plain text what the other results on invites and origins ask of it |
| Invite.CheckLabels | protocol/crypto.go:613-622 | the label loop accepts exactly the lists of well-formed labels |
| Invite.HostChecks | protocol/crypto.go:607-622 | the checks for ASCII, lower case and stray dots and the label loop together accept exactly the hosts made of non-empty well-formed labels |
| Invite.HostExactly | protocol/crypto.go:607-622 | the hosts made of non-empty well-formed labels are exactly those that look like one, character by character |
| Invite.CanonicalizeServerOrigin | protocol/crypto.go:595-644 | the source's sequence of checks, with the label loop, computes CanonicalServerOrigin, whose acceptance OriginExactly characterises |
| Invite.ParseUndoesEncode | protocol/crypto.go:669-792 | every valid token of an accepted origin is encoded, and parsing gives it back with its origin canonicalised |
| Invite.EncodeExactly | protocol/crypto.go:669-695 | exactly the tokens of version 1 with an accepted origin, identifiers of 32 lowercase hexadecimal characters, a positive expiry and the base64url form of 32 bytes as secret are encoded |
| Invite.InviteExactly | protocol/crypto.go:669-792 | the same for every origin written as host and port over the plain characters, in the terms of OriginExactly, with the token that comes back |
| Invite.SecretExactly | protocol/crypto.go:879-894 | the accepted secrets are exactly the unpadded base64url forms of 32 bytes |
| Invite.ReencodingIsStable | protocol/crypto.go:669-792 | every parsed token is valid, of version 1 and of a canonical origin, can be encoded, and parsing that gives the same token |
| Invite.EncodingIsInjective | protocol/crypto.go:669-695 | equal URIs come from tokens that agree up to the spelling of the origin |
| Backoff.CappedDoubledInterval | bitboxsync/engine_run.go:235-256 | the loop equals min(base*2^n, max(base, limit)), 0 for a base that is not positive, and never leaves an int64 |
| Backoff.DoubledOnce | bitboxsync/engine_run.go:235-256 | one more doubling is twice the interval, capped, and none is the interval itself, capped |
| Backoff.BackoffPollInterval | bitboxsync/engine_run.go:228-233 | the doubled interval for the number of failures |
| Backoff.IdlePollInterval | bitboxsync/engine_run.go:222-226 | the base for the first three quiet polls, then doubled every three |
| Backoff.Poller.RecordResult | bitboxsync/engine_run.go:57-77 | the interval after any history is determined by the failures or the quiet passes at its end |
| Backoff.IntervalStep | bitboxsync/engine_run.go:50-77 | a failure doubles the interval up to the limit, starting from the poll interval; activity, a requested reset, foreground polling and a login reset it |
| Backoff.ThreeQuietTurns | bitboxsync/engine_run.go:222-226 | three quiet passes in a row double the interval up to the limit |
| Backoff.Poller.ResetBackoff | bitboxsync/engine_run.go:52-56 | a login elsewhere resets the interval |
| Backoff.IntervalStaysInBounds | bitboxsync/engine_run.go:50-77 | through every history the interval stays between PollInterval and MaxPollInterval |
| Backoff.BackoffReachesLimit | bitboxsync/engine_run.go:235-256 | repeated failures never shorten the interval and eventually reach the limit |
| Backoff.WithDefaults | bitboxsync/types.go:391-396 | the configured intervals are positive and ordered, valid ones are kept, and the defaults are five minutes and an hour |

## Left out

- Several namespaces in one world: a world is one namespace; the loop over namespaces, membership, kinds and the default-namespace checks of `syncNamespaces` are not modelled, nor joining, key unwrapping or a namespace that disappears.
- `ListNamespaces` and `DefaultNamespace` concurrent with `SyncNow`: they write checkpoints outside the sync lock. The step `LoseCheckpoint` covers a checkpoint reset to head 0, but not in the middle of a pass of the same client.
- `ResetSyncState` is a step between passes, not during one.
- The order of the flush: `UpdatedAt` is not modelled and dirty items are flushed in an arbitrary order; item maps are visited in an arbitrary order too, as Go does.
- Backends without a conditional write, which the source documents as best effort, and deletion of values by the application, which has no protocol.
- Sync.SyncNow: login and token refresh are modelled only as running the pass once more from wherever it stopped when the token was rejected; a login that fails is not modelled.
- Sync.LoadActiveScope: what Keys answered is not recorded, so which items the scope contains is stated for worlds that fix the scope; so are the promises about every active item.
- Rounds.SyncInTurn: one failing merge aborts an undisturbed pass; the theorems ask for merges that resolve encoded values, and PassRunsClean says exactly which merges a pass needs.
- Convergence.ConvergesExactly: merges that may shrink an oversized local value can make it uploadable; for those ConvergesIffNoConflict assumes uploadable values.
- Collections.Collection.ResolveConflictWithValue: a backend value is the bytes that stand for it, so every value has them; values that a codec refuses to encode, whose item the engine then cannot upload, are not represented.
- Invite.ParseUndoesEncode: the URL library is a parameter with stated behaviour on text that needs no escaping; error messages are not told apart, and an expiry is assumed to fit an int64, as its Go type makes it.
- Decimal.IfMatchExactly: white space is ASCII white space.
- Payloads.CanonicalIsInjective: keys are their 32 raw bytes; signatures, digests and the derivation of identifiers are ideal.
- HTTP, JSON, SQLite, events and channel blocking, namespace watch, timers and jitter, identity and token storage, invite approval.
